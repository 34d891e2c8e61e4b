/** The task-tracking records the task-list controller and the sorter work on. */
module TaskModels {
  import opened Wrappers

  /** A task. `Created` and `Modified` are timestamps, modelled as integers. */
  datatype TaskModel = TaskModel(
    id: int,
    name: string,
    description: string,
    projectId: int,
    taskRef: string,
    taskStatusId: int,
    taskTypeId: int,
    taskPriorityId: int,
    fixedInRelease: string,
    created: int,
    modified: int,
    userId: Option<string>)

  /** A comment on a task. */
  datatype TaskCommentModel = TaskCommentModel(id: int, taskId: int, comment: string, userId: Option<string>)

  /** A project. */
  datatype ProjectModel = ProjectModel(id: int, name: string)
}
