/**
 * The web front end's `TaskListController`: the task list, and the `Create` and
 * `Edit` form posts.
 *
 * The projects, tasks and comments endpoints are collaborators whose answers are
 * inputs (`Endpoints`); every call on them is recorded, in order, in the
 * returned `effects`. The clock (`DateTime.Now`), the user's name-identifier
 * claim, the stored settings and the request (query string, ajax header) are
 * parameters.
 */
module TaskListController {
  import opened Wrappers
  import opened Mvc
  import opened TaskModels
  import DotNetText

  datatype Endpoints = Endpoints(
    getProject: int -> Option<ProjectModel>,
    getTasks: int -> seq<TaskModel>,
    getAllTasks: seq<TaskModel>,
    getAllProjects: seq<ProjectModel>,
    // the `IsClosed()` extension on a task
    isClosed: TaskModel -> bool)

  /** What `TaskViewModel.Create` is given to build the form shown again. */
  datatype TaskViewModelArgs = TaskViewModelArgs(
    projectTask: TaskModel, existingStatusId: Option<int>,
    comments: seq<TaskCommentModel>, newComment: Option<string>)

  datatype Event =
    | GetProject(projectId: int)
    | GetTasks(tasksOf: int)
    | GetAllTasks
    | GetAllProjects
    | AddTask(added: TaskModel)
    | UpdateTask(updated: TaskModel)
    | UpdateComments(comments: seq<TaskCommentModel>)
    | AddComment(comment: TaskCommentModel)
    | BuildTaskViewModel(args: TaskViewModelArgs)

  /** The list page's model; the filtering and sorting of its tasks are not part of this model. */
  datatype IndexViewModel = IndexViewModel(
    tasks: seq<TaskModel>, taskFilterId: int, projectId: int, page: DotNetText.Int32,
    pageSize: int, projects: seq<ProjectModel>, project: ProjectModel)

  const DefaultPageNo: DotNetText.Int32 := 1
  const AllProjects: ProjectModel := ProjectModel(0, "All")

  // ------------------------------------------------------------------- GetPage

  /** The values joined with commas: `string.Join(",", values)`. */
  function Join(values: seq<string>): string
    requires values != []
  {
    if |values| == 1 then values[0] else values[0] + "," + Join(values[1..])
  }

  /**
   * A query-string entry as a string: no value is null, one value is itself,
   * several are joined with commas (the conversion of `StringValues` to `string`).
   */
  function QueryValue(values: seq<string>): (s: Option<string>)
    ensures values == [] <==> s.None?
    ensures |values| == 1 ==> s == Some(values[0])
    ensures |values| >= 2 ==> s.Some? && ',' in s.value
  {
    if values == [] then None
    else
      JoinSeparates(values);
      Some(Join(values))
  }

  /** Several values: the first, a comma, then the rest joined the same way. */
  lemma QueryValueJoins(values: seq<string>)
    requires |values| >= 2
    ensures QueryValue(values).Some? && QueryValue(values[1..]).Some?
    ensures QueryValue(values).value == values[0] + "," + QueryValue(values[1..]).value
  {
  }

  lemma JoinSeparates(values: seq<string>)
    requires values != []
    ensures |values| >= 2 ==> ',' in Join(values)
  {
    if |values| >= 2 {
      assert Join(values)[|values[0]|] == ',';
    }
  }

  /** The "page" query value as an integer when it parses, and page 1 otherwise. */
  function GetPage(pageValues: seq<string>): (page: DotNetText.Int32)
    ensures DotNetText.TryParseInt32(QueryValue(pageValues)).Some? ==>
              page == DotNetText.TryParseInt32(QueryValue(pageValues)).value
    ensures DotNetText.TryParseInt32(QueryValue(pageValues)).None? ==> page == DefaultPageNo
  {
    match DotNetText.TryParseInt32(QueryValue(pageValues))
    case Some(pageNo) => pageNo
    case None => DefaultPageNo
  }

  /** A page number the list wrote into its own links comes back unchanged. */
  lemma GetPageOfFormatted(n: DotNetText.Int32)
    ensures GetPage([DotNetText.FormatInt32(n)]) == n
  {
    DotNetText.TryParseFormat(n);
  }

  /** No "page" entry, a blank one, or a repeated one all mean page 1. */
  lemma GetPageDefaults(pageValues: seq<string>)
    requires pageValues == [] || |pageValues| >= 2
             || (|pageValues| == 1 && DotNetText.IsNullOrWhiteSpace(Some(pageValues[0])))
    ensures GetPage(pageValues) == DefaultPageNo
  {
    if |pageValues| >= 2 {
      DotNetText.CommaNeverParses(QueryValue(pageValues).value);
    } else if |pageValues| == 1 {
      DotNetText.BlankNeverParses(Some(pageValues[0]));
    }
  }

  // --------------------------------------------------------------------- Index

  /**
   * `Index` (GET): one project's tasks when a project is selected (`projectId > 0`),
   * otherwise all tasks; a project that is not found shows as "All".
   */
  method Index(endpoints: Endpoints, taskFilterId: int, projectId: int, pageSize: int,
               pageValues: seq<string>, isAjaxRequest: bool)
    returns (r: ActionResult, model: IndexViewModel, effects: seq<Event>)
    ensures effects == [GetProject(projectId), if projectId > 0 then GetTasks(projectId) else GetAllTasks, GetAllProjects]
    ensures (GetTasks(projectId) in effects <==> projectId > 0) && (GetAllTasks in effects <==> projectId <= 0)
    ensures model.tasks == if projectId > 0 then endpoints.getTasks(projectId) else endpoints.getAllTasks
    ensures endpoints.getProject(projectId).Some? ==> model.project == endpoints.getProject(projectId).value
    ensures endpoints.getProject(projectId).None? ==> model.project == AllProjects
    ensures model.page == GetPage(pageValues) && model.projectId == projectId
    ensures model.taskFilterId == taskFilterId && model.pageSize == pageSize
    ensures model.projects == endpoints.getAllProjects
    ensures isAjaxRequest <==> r == PartialViewResult("../TaskList/_ProjectTaskList")
    ensures !isAjaxRequest ==> r == ViewResult(Some("../TaskList/Index"), [])
  {
    var page := GetPage(pageValues);
    effects := [GetProject(projectId)];
    var project := endpoints.getProject(projectId).GetOr(AllProjects);
    var projectTasks;
    if projectId > 0 {
      effects := effects + [GetTasks(projectId)];
      projectTasks := endpoints.getTasks(projectId);
    } else {
      effects := effects + [GetAllTasks];
      projectTasks := endpoints.getAllTasks;
    }
    effects := effects + [GetAllProjects];
    model := IndexViewModel(projectTasks, taskFilterId, projectId, page, pageSize, endpoints.getAllProjects, project);
    if isAjaxRequest {
      return PartialViewResult("../TaskList/_ProjectTaskList"), model, effects;
    }
    r := ViewResult(Some("../TaskList/Index"), []);
  }

  // --------------------------------------------------------------- Create (POST)

  /**
   * `Create` (POST): the task is stamped created and modified at the same instant
   * before validation; only a valid form adds it, owned by the signed-in user.
   */
  method Create(projectTask: TaskModel, now: int, modelStateValid: bool, userId: string)
    returns (r: ActionResult, effects: seq<Event>)
    ensures var stamped := projectTask.(created := now, modified := now);
            && (modelStateValid ==>
                  effects == [AddTask(stamped.(userId := Some(userId)))]
                  && r == RedirectToActionResult("Index", None, NoRouteValues))
            && (!modelStateValid ==>
                  effects == [BuildTaskViewModel(TaskViewModelArgs(stamped, None, [], None))]
                  && r == ViewResult(None, []))
    ensures forall e :: e in effects && e.AddTask? ==>
              modelStateValid && e.added.created == e.added.modified == now && e.added.userId == Some(userId)
    ensures forall e :: e in effects ==> e.AddTask? || e.BuildTaskViewModel?
  {
    var task := projectTask.(modified := now);
    task := task.(created := task.modified);
    if modelStateValid {
      task := task.(userId := Some(userId));
      return RedirectToActionResult("Index", None, NoRouteValues), [AddTask(task)];
    }
    effects := [BuildTaskViewModel(TaskViewModelArgs(task, None, [], None))];
    r := ViewResult(None, []);
  }

  // ----------------------------------------------------------------- Edit (POST)

  /**
   * Where a saved edit goes: to the list when the task has just been closed (it is
   * closed and its status changed), otherwise back to the task (`RedirectToAction("Edit", id)`,
   * whose second argument is the route-values object, here a boxed integer).
   */
  function EditRedirect(closed: bool, taskStatusId: int, existingTaskStatus: int, id: int): (r: ActionResult)
    ensures (closed && taskStatusId != existingTaskStatus) <==> r == RedirectToActionResult("Index", None, NoRouteValues)
    ensures !(closed && taskStatusId != existingTaskStatus) <==> r == RedirectToActionResult("Edit", None, BoxedIntValue(id))
  {
    if closed && taskStatusId != existingTaskStatus
    then RedirectToActionResult("Index", None, NoRouteValues)
    else RedirectToActionResult("Edit", None, BoxedIntValue(id))
  }

  /** The comment an edit adds, if any: only text that is not null or white space. */
  function NewCommentEvents(taskId: int, newComment: Option<string>, userId: string): (added: seq<Event>)
    ensures DotNetText.IsNullOrWhiteSpace(newComment) <==> added == []
    ensures added != [] ==> added == [AddComment(TaskCommentModel(0, taskId, newComment.value, Some(userId)))]
  {
    if !DotNetText.IsNullOrWhiteSpace(newComment)
    then [AddComment(TaskCommentModel(0, taskId, newComment.value, Some(userId)))]
    else []
  }

  /**
   * `Edit` (POST): a valid form saves the task (owned by the signed-in user) and the
   * edited comments, adds the new comment when there is one, then redirects; an
   * invalid form is shown again with everything it was given.
   */
  method Edit(endpoints: Endpoints, projectTask: TaskModel, existingTaskStatus: int, newComment: Option<string>,
              comments: seq<TaskCommentModel>, modelStateValid: bool, userId: string)
    returns (r: ActionResult, effects: seq<Event>)
    ensures var saved := projectTask.(userId := Some(userId));
            && (modelStateValid ==>
                  && effects == [UpdateTask(saved), UpdateComments(comments)] + NewCommentEvents(saved.id, newComment, userId)
                  && r == EditRedirect(endpoints.isClosed(saved), saved.taskStatusId, existingTaskStatus, saved.id))
            && (!modelStateValid ==>
                  && effects == [BuildTaskViewModel(TaskViewModelArgs(projectTask, Some(existingTaskStatus), comments, newComment))]
                  && r == ViewResult(None, []))
    ensures (exists e :: e in effects && e.AddComment?) <==>
              modelStateValid && !DotNetText.IsNullOrWhiteSpace(newComment)
    ensures forall e :: e in effects && e.AddComment? ==>
              e.comment == TaskCommentModel(0, projectTask.id, newComment.value, Some(userId))
  {
    if !modelStateValid {
      effects := [BuildTaskViewModel(TaskViewModelArgs(projectTask, Some(existingTaskStatus), comments, newComment))];
      return ViewResult(None, []), effects;
    }
    var task := projectTask.(userId := Some(userId));
    effects := [UpdateTask(task), UpdateComments(comments)];
    var added := NewCommentEvents(task.id, newComment, userId);
    effects := effects + added;
    if added != [] {
      assert effects[2] in effects;
    }
    r := EditRedirect(endpoints.isClosed(task), task.taskStatusId, existingTaskStatus, task.id);
  }
}
