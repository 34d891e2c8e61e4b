/**
 * `ModifiedDescSorter.Sort`: `projectTasks.OrderByDescending(pt => pt.Modified)`.
 * LINQ's `OrderByDescending` is a stable sort, so tasks with the same `Modified`
 * keep the order they had in the input. The ordering is modelled as a stable
 * insertion sort; its contract and the lemmas below are what the LINQ call promises.
 */
module ModifiedDescSorter {
  import opened TaskModels

  /** Newest first: `Modified` never increases along the sequence. */
  predicate SortedByModifiedDesc(s: seq<TaskModel>) {
    forall i, j :: 0 <= i < j < |s| ==> s[i].modified >= s[j].modified
  }

  /** The tasks whose `Modified` is `m`, in the order they appear. */
  function WithModified(s: seq<TaskModel>, m: int): seq<TaskModel> {
    if s == [] then []
    else (if s[0].modified == m then [s[0]] else []) + WithModified(s[1..], m)
  }

  /** Puts `t` before the first task that is not strictly newer than it. */
  function Insert(t: TaskModel, sorted: seq<TaskModel>): seq<TaskModel> {
    if sorted == [] || sorted[0].modified <= t.modified then [t] + sorted
    else [sorted[0]] + Insert(t, sorted[1..])
  }

  /** Inserting adds exactly the one task. */
  lemma {:induction false} InsertAddsTask(t: TaskModel, sorted: seq<TaskModel>)
    ensures |Insert(t, sorted)| == |sorted| + 1
    ensures multiset(Insert(t, sorted)) == multiset(sorted) + multiset{t}
  {
    if !(sorted == [] || sorted[0].modified <= t.modified) {
      InsertAddsTask(t, sorted[1..]);
      assert sorted == [sorted[0]] + sorted[1..];
    }
  }

  /** Inserting into a newest-first list keeps it newest first. */
  lemma {:induction false} InsertKeepsOrder(t: TaskModel, sorted: seq<TaskModel>)
    requires SortedByModifiedDesc(sorted)
    ensures Insert(t, sorted) != []
    ensures Insert(t, sorted)[0] == t || (sorted != [] && Insert(t, sorted)[0] == sorted[0])
    ensures SortedByModifiedDesc(Insert(t, sorted))
  {
    if sorted == [] || sorted[0].modified <= t.modified {
      SortedAfterNewest(t, sorted);
    } else {
      var rest := Insert(t, sorted[1..]);
      assert SortedByModifiedDesc(sorted[1..]);
      InsertKeepsOrder(t, sorted[1..]);
      assert sorted[1..] != [] ==> sorted[1..][0] == sorted[1];
      SortedAfterNewest(sorted[0], rest);
    }
  }

  /** A task put in front of a newest-first list no newer than it keeps the list newest first. */
  lemma SortedAfterNewest(newest: TaskModel, rest: seq<TaskModel>)
    requires SortedByModifiedDesc(rest)
    requires rest != [] ==> rest[0].modified <= newest.modified
    ensures SortedByModifiedDesc([newest] + rest)
  {
    var s := [newest] + rest;
    forall i, j | 0 <= i < j < |s|
      ensures s[i].modified >= s[j].modified
    {
      if i == 0 {
        assert s[j] == rest[j - 1];
        assert rest[0].modified >= rest[j - 1].modified;
      } else {
        assert s[i] == rest[i - 1] && s[j] == rest[j - 1];
      }
    }
  }

  /** Inserting the first task into the sorted rest sorts the whole. */
  lemma InsertFirst(projectTasks: seq<TaskModel>, rest: seq<TaskModel>)
    requires projectTasks != []
    requires |rest| == |projectTasks| - 1 && multiset(rest) == multiset(projectTasks[1..])
    requires SortedByModifiedDesc(rest)
    ensures |Insert(projectTasks[0], rest)| == |projectTasks|
    ensures multiset(Insert(projectTasks[0], rest)) == multiset(projectTasks)
    ensures SortedByModifiedDesc(Insert(projectTasks[0], rest))
  {
    InsertAddsTask(projectTasks[0], rest);
    InsertKeepsOrder(projectTasks[0], rest);
    assert projectTasks == [projectTasks[0]] + projectTasks[1..];
  }

  /** `ModifiedDescSorter.Sort`: the tasks, newest first, ties in input order. */
  function Sort(projectTasks: seq<TaskModel>): (r: seq<TaskModel>)
    ensures |r| == |projectTasks|
    ensures multiset(r) == multiset(projectTasks)
    ensures SortedByModifiedDesc(r)
  {
    if projectTasks == [] then []
    else
      var rest := Sort(projectTasks[1..]);
      InsertFirst(projectTasks, rest);
      Insert(projectTasks[0], rest)
  }

  lemma WithModifiedCons(x: TaskModel, s: seq<TaskModel>, m: int)
    ensures WithModified([x] + s, m) == (if x.modified == m then [x] else []) + WithModified(s, m)
  {
    assert ([x] + s)[0] == x;
    assert ([x] + s)[1..] == s;
  }

  lemma {:induction false} InsertWithModified(t: TaskModel, sorted: seq<TaskModel>, m: int)
    ensures WithModified(Insert(t, sorted), m)
            == (if t.modified == m then [t] else []) + WithModified(sorted, m)
  {
    if sorted == [] || sorted[0].modified <= t.modified {
      WithModifiedCons(t, sorted, m);
    } else {
      var rest := Insert(t, sorted[1..]);
      assert Insert(t, sorted) == [sorted[0]] + rest;
      WithModifiedCons(sorted[0], rest, m);
      InsertWithModified(t, sorted[1..], m);
      assert sorted == [sorted[0]] + sorted[1..];
      WithModifiedCons(sorted[0], sorted[1..], m);
    }
  }

  /** Stability: for every timestamp, the tasks carrying it appear in the output in their input order. */
  lemma {:induction false} SortKeepsTiesInInputOrder(projectTasks: seq<TaskModel>, m: int)
    ensures WithModified(Sort(projectTasks), m) == WithModified(projectTasks, m)
  {
    if projectTasks != [] {
      SortKeepsTiesInInputOrder(projectTasks[1..], m);
      InsertWithModified(projectTasks[0], Sort(projectTasks[1..]), m);
    }
  }

  /** Tasks already newest first come back unchanged. */
  lemma {:induction false} SortOfSorted(projectTasks: seq<TaskModel>)
    requires SortedByModifiedDesc(projectTasks)
    ensures Sort(projectTasks) == projectTasks
  {
    if projectTasks != [] {
      var rest := projectTasks[1..];
      assert SortedByModifiedDesc(rest);
      SortOfSorted(rest);
      assert rest != [] ==> rest[0] == projectTasks[1];
      assert projectTasks == [projectTasks[0]] + rest;
    }
  }

  /** Sorting twice is sorting once. */
  lemma SortIdempotent(projectTasks: seq<TaskModel>)
    ensures Sort(Sort(projectTasks)) == Sort(projectTasks)
  {
    SortOfSorted(Sort(projectTasks));
  }

  /** An empty task list sorts to an empty list. */
  lemma SortEmpty()
    ensures Sort([]) == []
  {
  }
}
