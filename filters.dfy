/**
 * The filters of the three queries (GetTaskByUser, GetIncompleteSubTasks,
 * GetTasksUntilDate) as predicates over a stored task, and the selection of the
 * matching tasks of a collection in the order its cursor yields them.
 */
module Filters {
  import opened Outcomes
  import opened Models

  datatype Filter =
    | ByUser(user: User)            // {assigned_to: {$all: [full name, email]}}
    | IncompleteFor(user: User)     // {$and: [{sub_tasks: {$elemMatch: {status: pending}}}, <ByUser>]}
    | UntilDate(date: DateTime)     // {$and: [{staus: {$in: [in-progress, pending]}}, {due_date: {$lte: date}}]}

  /** The field of the until-date filter, spelled as in the source. */
  const UntilDateStatusField: string := "staus"

  /**
   * A top-level text field of a stored task, looked up by name; None when the
   * task has no field of that name (or a null one).
   */
  function TextField(t: Task, name: string): (r: Option<string>)
    ensures name == "status" ==> r == Some(t.status)
    ensures name !in {"title", "description", "status"} ==> r == None
  {
    if name == "title" then t.title
    else if name == "description" then t.description
    else if name == "status" then Some(t.status)
    else None
  }

  /** $all: the assignee list holds both the user's full name and e-mail. */
  predicate AssignedTo(t: Task, u: User) {
    u.fullname in t.assignedTo && u.email in t.assignedTo
  }

  /** $elemMatch: some sub-task is pending. */
  predicate HasPendingSubTask(t: Task) {
    exists i :: 0 <= i < |t.subTasks| && t.subTasks[i].status == Pending
  }

  /** $in on a field: it is present and one of the given values; a missing field never matches. */
  predicate FieldIn(t: Task, name: string, values: seq<string>) {
    var v := TextField(t, name);
    v.Some? && v.value in values
  }

  predicate Matches(f: Filter, t: Task) {
    match f
    case ByUser(u) => AssignedTo(t, u)
    case IncompleteFor(u) => HasPendingSubTask(t) && AssignedTo(t, u)
    case UntilDate(d) => FieldIn(t, UntilDateStatusField, [InProgress, Pending]) && t.dueDate <= d
  }

  /** The tasks of docs that match f, in the order of docs. */
  function Select(docs: seq<Task>, f: Filter): (r: seq<Task>)
    ensures |r| <= |docs|
  {
    if docs == [] then []
    else
      var last := docs[|docs| - 1];
      Select(docs[..|docs| - 1], f) + (if Matches(f, last) then [last] else [])
  }

  /** A task is selected exactly when it is in the collection and matches. */
  lemma {:induction false} SelectMembership(docs: seq<Task>, f: Filter, t: Task)
    ensures t in Select(docs, f) <==> t in docs && Matches(f, t)
  {
    if docs != [] {
      var init := docs[..|docs| - 1];
      SelectMembership(init, f, t);
      assert docs == init + [docs[|docs| - 1]];
    }
  }

  /** Selection keeps cursor order: selecting from a concatenation concatenates the selections. */
  lemma {:induction false} SelectAppend(a: seq<Task>, b: seq<Task>, f: Filter)
    ensures Select(a + b, f) == Select(a, f) + Select(b, f)
  {
    if b == [] {
      assert a + b == a;
    } else {
      var init := b[..|b| - 1];
      SelectAppend(a, init, f);
      assert (a + b)[..|a + b| - 1] == a + init;
    }
  }

  /**
   * One step of a cursor over docs: selecting from the first i+1 documents
   * extends the selection from the first i by document i when it matches, and
   * stays a prefix of the selection from all of docs.
   */
  lemma SelectStep(docs: seq<Task>, i: nat, f: Filter)
    requires i < |docs|
    ensures Select(docs[..i + 1], f) == Select(docs[..i], f) + (if Matches(f, docs[i]) then [docs[i]] else [])
    ensures Select(docs[..i + 1], f) <= Select(docs, f)
  {
    assert docs[..i + 1][..i] == docs[..i];
    assert docs == docs[..i + 1] + docs[i + 1..];
    SelectAppend(docs[..i + 1], docs[i + 1..], f);
  }

  /** When every task of the collection matches, the selection is the whole collection, in order and with repeats kept. */
  lemma {:induction false} SelectAllMatch(docs: seq<Task>, f: Filter)
    requires forall i :: 0 <= i < |docs| ==> Matches(f, docs[i])
    ensures Select(docs, f) == docs
  {
    if docs != [] {
      SelectAllMatch(docs[..|docs| - 1], f);
    }
  }

  /** Every task with incomplete sub-tasks for a user is also a task of that user. */
  lemma IncompleteAreByUser(docs: seq<Task>, u: User, t: Task)
    ensures t in Select(docs, IncompleteFor(u)) ==> t in Select(docs, ByUser(u))
  {
    SelectMembership(docs, IncompleteFor(u), t);
    SelectMembership(docs, ByUser(u), t);
  }

  /** The until-date filter reads a field no task has, so it matches nothing. */
  lemma UntilDateNeverMatches(t: Task, d: DateTime)
    ensures !Matches(UntilDate(d), t)
  {
  }

  /** Hence the until-date query selects nothing, whatever the collection holds. */
  lemma {:induction false} UntilDateSelectsNothing(docs: seq<Task>, d: DateTime)
    ensures Select(docs, UntilDate(d)) == []
  {
    if docs != [] {
      UntilDateSelectsNothing(docs[..|docs| - 1], d);
    }
  }
}
