/**
 * Corrected versions of the steps of storage.go that do not do what the cache
 * protocol is meant to do, each correcting one defect, with the intended
 * property proved about it. The class in module Storage and the functions of
 * module Store keep the code as written; the lemmas there show each defect.
 */
module Intended {
  import opened Outcomes
  import opened ObjectIds
  import opened Models
  import opened Codec
  import opened Filters
  import opened Store

  // ---------------------------------------------------------------------------
  // One cache key form for create, read and update.

  /** The cache key of a task: the hex form that reads and updates are given. */
  function CacheKey(id: ObjectId): (key: string)
    ensures ParseObjectId(key) == Ok(id)
  {
    ParseHex(id);
    Hex(id)
  }

  /** Store.CreateTask with one step changed: the cache key is CacheKey(freshId), not the ObjectID("…") form. */
  function CreateTask(s: Stores, task: Task, freshId: ObjectId, insertOk: bool, setOk: bool): Step<Task> {
    var t := task.(id := freshId);
    if !insertOk || Lookup(s.collection, freshId).Some? then Step(s, Err(MongoError))
    else
      var inserted := s.(collection := s.collection + [t]);
      match Marshal(t)
      case None => Step(inserted, Err(JsonError))
      case Some(p) =>
        if !setOk then Step(inserted, Err(RedisError))
        else Step(inserted.(cache := inserted.cache[CacheKey(freshId) := Snapshot(p)]), Ok(t))
  }

  /** With one key form, reading a task just created hits the cache and returns it, without touching the collection. */
  lemma CreateThenReadHits(s: Stores, task: Task, freshId: ObjectId, o: ReadOracle)
    requires CreateTask(s, task, freshId, true, true).result.Ok? && o.getOk
    ensures var c := CreateTask(s, task, freshId, true, true).stores;
            Store.GetTaskById(c, Hex(freshId), o) == Step(c, Ok(task.(id := freshId)))
  {
    DecodeEncode(task.(id := freshId));
  }

  // ---------------------------------------------------------------------------
  // A read that misses returns the document it found.

  /** Store.GetTaskById with one step changed: a miss returns the fetched document instead of decoding the empty reply. */
  function GetTaskById(s: Stores, taskId: string, o: ReadOracle): Step<Task> {
    if !o.getOk then Step(s, Err(RedisError))
    else if taskId in s.cache then
      match Decode(s.cache[taskId].value)
      case Some(t) => Step(s, Ok(t))
      case None => Step(s, Err(JsonError))
    else
      match ParseObjectId(taskId)
      case Err(e) => Step(s, Err(e))
      case Ok(docId) =>
        if !o.findOk then Step(s, Err(MongoError))
        else
          match Lookup(s.collection, docId)
          case None => Step(s, Err(NoDocuments))
          case Some(doc) =>
            match Marshal(doc)
            case None => Step(s, Err(JsonError))
            case Some(p) =>
              if !o.setOk then Step(s, Err(RedisError))
              else Step(s.(cache := s.cache[taskId := Snapshot(p)]), Ok(doc))
  }

  /**
   * Read-through: a miss on an id whose document exists returns that document and
   * caches it, and the next read hits and returns the same document.
   */
  lemma {:induction false} ReadThrough(s: Stores, t: Task, o: ReadOracle)
    requires Hex(t.id) !in s.cache && Lookup(s.collection, t.id) == Some(t) && JsonDate(t.dueDate)
    requires o == ReadOracle(true, true, true)
    ensures var g := GetTaskById(s, Hex(t.id), o);
            && g.result == Ok(t)
            && g.stores.collection == s.collection
            && g.stores.cache.Keys == s.cache.Keys + {Hex(t.id)}
            && GetTaskById(g.stores, Hex(t.id), o) == Step(g.stores, Ok(t))
  {
    ParseHex(t.id);
    DecodeEncode(t);
  }

  /** Where the code as written differs: the same read fails, though it fills the cache just the same. */
  lemma ReadThroughDiffers(s: Stores, t: Task, o: ReadOracle)
    requires Hex(t.id) !in s.cache && Lookup(s.collection, t.id) == Some(t) && JsonDate(t.dueDate)
    requires o == ReadOracle(true, true, true)
    ensures Store.GetTaskById(s, Hex(t.id), o).result == Err(JsonError)
    ensures Store.GetTaskById(s, Hex(t.id), o).stores == GetTaskById(s, Hex(t.id), o).stores
  {
    ParseHex(t.id);
  }

  // ---------------------------------------------------------------------------
  // The due-date filter on the status field.

  /** The until-date filter reading `status`, the field tasks have. */
  predicate DueBy(t: Task, d: DateTime) {
    FieldIn(t, "status", [InProgress, Pending]) && t.dueDate <= d
  }

  const DayMillis: int := 24 * 60 * 60 * 1000

  /**
   * A pending task due on D is found by a query for D, not by one for the day
   * before, and no longer once it is completed; the filter as written finds it
   * in none of the three.
   */
  lemma DueByScenario(t: Task, d: DateTime)
    requires t.status == Pending && t.dueDate == d
    ensures DueBy(t, d) && !DueBy(t, d - DayMillis) && !DueBy(t.(status := Completed), d)
    ensures !Matches(UntilDate(d), t) && !Matches(UntilDate(d - DayMillis), t)
    ensures !Matches(UntilDate(d), t.(status := Completed))
  {
  }

  /** The corrected filter matches exactly the unfinished tasks due by the date, boundary included. */
  lemma DueByMeaning(t: Task, d: DateTime)
    ensures DueBy(t, d) <==> (t.status == InProgress || t.status == Pending) && t.dueDate <= d
  {
  }

  // ---------------------------------------------------------------------------
  // ChangeTaskUser caching the new assignees.

  /** Store.ChangeTaskUser with one step changed: the fetched task gets the new assignees before it is cached and returned. */
  function ChangeTaskUser(s: Stores, req: ChangeTaskUserRequest, ro: ReadOracle, upd: UpdateResult, setOk: bool): Step<Task> {
    var g := Store.GetTaskById(s, req.taskId, ro);
    if g.result.Err? then g
    else
      var task := g.result.value.(assignedTo := req.newTaskOwnerData);
      var sent := g.stores.(issued := g.stores.issued + [AssigneesCommand(req)]);
      match upd
      case UpdateFailed => Step(sent, Err(MongoError))
      case Updated(n) =>
        if n == 0 then Step(sent, Err(NoDocuments))
        else
          match Marshal(task)
          case None => Step(sent, Err(JsonError))
          case Some(p) =>
            if !setOk then Step(sent, Err(RedisError))
            else Step(sent.(cache := sent.cache[req.taskId := Snapshot(p)]), Ok(task))
  }

  /** After a successful change, the next read returns the new assignees, the value the collection update sets. */
  lemma ChangeThenReadSeesNewAssignees(s: Stores, req: ChangeTaskUserRequest, ro: ReadOracle, upd: UpdateResult, setOk: bool, o: ReadOracle)
    requires ChangeTaskUser(s, req, ro, upd, setOk).result.Ok? && o.getOk
    ensures var st := ChangeTaskUser(s, req, ro, upd, setOk);
            && st.stores.issued[|st.stores.issued| - 1].update == Set(Field("assigned_to"), Strs(req.newTaskOwnerData))
            && Store.GetTaskById(st.stores, req.taskId, o).result == st.result
            && st.result.value.assignedTo == req.newTaskOwnerData
  {
    var g := Store.GetTaskById(s, req.taskId, ro);
    DecodeEncode(g.result.value.(assignedTo := req.newTaskOwnerData));
  }

  // ---------------------------------------------------------------------------
  // $push into sub_tasks.

  /** The append command aimed at the sub-task list: {$push: {sub_tasks: <sub-task>}}. */
  function PushSubTaskCommand(req: AddNewSubTaskIntoTaskRequest): UpdateCommand {
    UpdateCommand(StringId(req.taskId), Push([("sub_tasks", Doc(req.subTask))]))
  }

  /** Store.AddNewSubTaskIntoTask with one step changed: the command sent is the PushSubTaskCommand above. */
  function AddNewSubTaskIntoTask(s: Stores, req: AddNewSubTaskIntoTaskRequest, ro: ReadOracle, upd: UpdateResult, setOk: bool): Step<Task> {
    var g := Store.GetTaskById(s, req.taskId, ro);
    if g.result.Err? then g
    else
      var task := AppendSubTask(g.result.value, req.subTask);
      var sent := g.stores.(issued := g.stores.issued + [PushSubTaskCommand(req)]);
      match upd
      case UpdateFailed => Step(sent, Err(MongoError))
      case Updated(n) =>
        if n == 0 then Step(sent, Err(NoDocuments))
        else
          match Marshal(task)
          case None => Step(sent, Err(JsonError))
          case Some(p) =>
            if !setOk then Step(sent, Err(RedisError))
            else Step(sent.(cache := sent.cache[req.taskId := Snapshot(p)]), Ok(task))
  }

  /**
   * The corrected command pushes, under sub_tasks and nowhere else, the very
   * sub-task that ends the task's list in the cache: collection and cache get
   * the same element. The command as written pushes to title and status instead.
   */
  lemma PushMatchesCache(s: Stores, req: AddNewSubTaskIntoTaskRequest, ro: ReadOracle, upd: UpdateResult, setOk: bool)
    requires AddNewSubTaskIntoTask(s, req, ro, upd, setOk).result.Ok?
    ensures var st := AddNewSubTaskIntoTask(s, req, ro, upd, setOk);
            var cached := Decode(st.stores.cache[req.taskId].value);
            && st.stores.issued[|st.stores.issued| - 1] == PushSubTaskCommand(req)
            && PushSubTaskCommand(req).update.fields == [("sub_tasks", Doc(req.subTask))]
            && cached.Some? && |cached.value.subTasks| > 0
            && cached.value.subTasks[|cached.value.subTasks| - 1] == req.subTask
    ensures Store.PushSubTaskCommand(req).update.fields[0].0 == "title"
    ensures Store.PushSubTaskCommand(req).update.fields[1].0 == "status"
  {
    var g := Store.GetTaskById(s, req.taskId, ro);
    DecodeEncode(AppendSubTask(g.result.value, req.subTask));
  }

  // ---------------------------------------------------------------------------
  // The sub-task index checked before anything is written.

  /** Store.UpdateSubTaskStatus with one step changed: an index outside the list is refused before the update is sent. */
  function UpdateSubTaskStatus(s: Stores, req: UpdateSubTaskStatusRequest, ro: ReadOracle, upd: UpdateResult, setOk: bool): Step<Task> {
    var g := Store.GetTaskById(s, req.taskId, ro);
    if g.result.Err? then g
    else if !(0 <= req.subTaskIndex < |g.result.value.subTasks|) then Step(g.stores, Err(InvalidIndex))
    else
      var sent := g.stores.(issued := g.stores.issued + [SubTaskStatusCommand(req)]);
      match upd
      case UpdateFailed => Step(sent, Err(MongoError))
      case Updated(n) =>
        if n == 0 then Step(sent, Err(NoDocuments))
        else
          var task := SetSubTaskStatus(g.result.value, req.subTaskIndex, req.newStatus);
          match Marshal(task)
          case None => Step(sent, Err(JsonError))
          case Some(p) =>
            if !setOk then Step(sent, Err(RedisError))
            else Step(sent.(cache := sent.cache[req.taskId := Snapshot(p)]), Ok(task))
  }

  /**
   * An out-of-range index is a client error and writes nothing: no command is
   * sent and the cache is unchanged. As written, the same request sends the
   * update and then panics.
   */
  lemma OutOfRangeWritesNothing(s: Stores, req: UpdateSubTaskStatusRequest, ro: ReadOracle, upd: UpdateResult, setOk: bool)
    requires Store.GetTaskById(s, req.taskId, ro).result.Ok?
    requires !(0 <= req.subTaskIndex < |Store.GetTaskById(s, req.taskId, ro).result.value.subTasks|)
    ensures UpdateSubTaskStatus(s, req, ro, upd, setOk) == Step(s, Err(InvalidIndex))
    ensures upd.Updated? && upd.matchedCount > 0 ==>
              Store.UpdateSubTaskStatus(s, req, ro, upd, setOk) ==
              Step(s.(issued := s.issued + [SubTaskStatusCommand(req)]), Err(IndexPanic))
  {
    GetOkIsHit(s, req.taskId, ro);
  }

  // ---------------------------------------------------------------------------
  // The update filter on the parsed ObjectID.

  /**
   * Whether an `_id` filter selects a stored task under BSON equality, where a
   * string never equals an ObjectID.
   */
  predicate FilterSelects(f: IdFilter, t: Task) {
    f == ObjectIdValue(t.id)
  }

  /** The filter on the parsed id, as GetTaskById builds it on a miss. */
  function UpdateFilter(taskId: string): (r: Result<IdFilter>)
    ensures r.Err? <==> ParseObjectId(taskId).Err?
  {
    match ParseObjectId(taskId)
    case Ok(id) => Ok(ObjectIdValue(id))
    case Err(e) => Err(e)
  }

  /** The raw-string `_id` filter every update sends selects no stored task. */
  lemma RawFilterSelectsNothing(taskId: string, t: Task)
    ensures !FilterSelects(StringId(taskId), t)
  {
  }

  /** The filter on the parsed id selects exactly the task whose id was given, in hex of either case. */
  lemma ParsedFilterSelects(taskId: string, t: Task)
    ensures UpdateFilter(Hex(t.id)) == Ok(ObjectIdValue(t.id)) && FilterSelects(UpdateFilter(Hex(t.id)).value, t)
    ensures UpdateFilter(taskId).Ok? ==> (FilterSelects(UpdateFilter(taskId).value, t) <==> ParseObjectId(taskId) == Ok(t.id))
  {
    ParseHex(t.id);
  }
}
