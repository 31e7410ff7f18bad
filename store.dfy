/**
 * What each operation of TasksStorage (internal/storage/storage.go) does to the
 * two stores, as functions from the stores before the call to the stores after
 * it and the call's result. The class in module Storage is proved to follow
 * these functions step by step; the lemmas here state what the operations do
 * on each branch and across calls.
 *
 * The stores are:
 *   - the tasks collection, as the documents in the order a cursor walks them;
 *   - the Redis cache, a map from key to the bytes stored and the expiry passed;
 *   - the UpdateOne commands sent to the collection, oldest first. Whether such a
 *     command changes a document is decided by the server's matching of the
 *     filter, which is not modelled: the matched count comes back as an input.
 *
 * Every outcome of an external call that the stores do not determine (a Redis
 * call failing, InsertOne or FindOne failing, UpdateOne's matched count, a
 * cursor breaking down) is an input.
 */
module Store {
  import opened Outcomes
  import opened ObjectIds
  import opened Models
  import opened Codec
  import opened Filters

  /** Every Redis Set in storage.go passes time.Hour*24. */
  const CacheTtlHours: nat := 24

  datatype CacheEntry = CacheEntry(value: Payload, ttlHours: nat)

  function Snapshot(p: Payload): CacheEntry {
    CacheEntry(p, CacheTtlHours)
  }

  /** The `_id` value of an update filter. */
  datatype IdFilter = StringId(s: string) | ObjectIdValue(id: ObjectId)

  /** A field path of an update: a top-level field, or a field of one array element ("sub_tasks.3.status"). */
  datatype FieldPath = Field(name: string) | Element(array: string, index: int, field: string)

  datatype Value = Str(s: string) | Strs(ss: seq<string>) | Doc(sub: SubTask)

  /** An update document: {$set: {path: value}} or {$push: {field: value, ...}}. */
  datatype UpdateDoc = Set(path: FieldPath, value: Value) | Push(fields: seq<(string, Value)>)

  datatype UpdateCommand = UpdateCommand(filter: IdFilter, update: UpdateDoc)

  /** What UpdateOne reports: an error, or the number of documents its filter matched. */
  datatype UpdateResult = UpdateFailed | Updated(matchedCount: nat)

  /** Outcomes of the external calls a GetTaskById may make: Redis Get, FindOne, Redis Set. */
  datatype ReadOracle = ReadOracle(getOk: bool, findOk: bool, setOk: bool)

  /**
   * Outcomes of a query: whether Find itself succeeds, which documents cannot be
   * decoded into a Task, and whether (and after how many documents) the cursor
   * breaks down, which cursor.Err() then reports.
   */
  datatype CursorOracle = CursorOracle(findOk: bool, undecodable: set<ObjectId>, failsAfter: Option<nat>)

  datatype Stores = Stores(collection: seq<Task>, cache: map<string, CacheEntry>, issued: seq<UpdateCommand>)

  /** The stores after a call, and what the call returned. */
  datatype Step<T> = Step(stores: Stores, result: Result<T>)

  /**
   * What every operation keeps: no two documents share an `_id`, every cache
   * entry was written with the 24-hour expiry and holds a task's JSON form, and
   * the key of every entry names the task it holds.
   */
  ghost predicate Valid(s: Stores) {
    UniqueIds(s.collection) && CacheHoldsTasks(s.cache) && KeysNameTasks(s.cache)
  }

  ghost predicate UniqueIds(docs: seq<Task>) {
    forall i, j :: 0 <= i < j < |docs| ==> docs[i].id != docs[j].id
  }

  ghost predicate CacheHoldsTasks(cache: map<string, CacheEntry>) {
    forall k :: k in cache ==> cache[k].ttlHours == CacheTtlHours && Decode(cache[k].value).Some?
  }

  /**
   * A cache key names a task's id in one of the two forms storage.go writes: the
   * hex string a read or update was given, which parses to the id, or the
   * ObjectID("…") form CreateTask uses.
   */
  predicate NamesId(key: string, id: ObjectId) {
    ParseObjectId(key) == Ok(id) || key == IdString(id)
  }

  ghost predicate KeysNameTasks(cache: map<string, CacheEntry>) {
    forall k :: k in cache && Decode(cache[k].value).Some? ==> NamesId(k, Decode(cache[k].value).value.id)
  }

  /** Caching the JSON form of a task under a key that names it keeps every entry a decodable snapshot of the task its key names. */
  lemma CacheTaskKeepsValid(cache: map<string, CacheEntry>, key: string, t: Task)
    requires CacheHoldsTasks(cache) && KeysNameTasks(cache) && NamesId(key, t.id)
    ensures CacheHoldsTasks(cache[key := Snapshot(Encode(t))])
    ensures KeysNameTasks(cache[key := Snapshot(Encode(t))])
  {
    DecodeEncode(t);
  }

  /** FindOne with filter {_id: id}: the first document with that id. */
  function Lookup(docs: seq<Task>, id: ObjectId): (r: Option<Task>)
    ensures r.Some? ==> r.value in docs && r.value.id == id
    ensures r.None? <==> forall i :: 0 <= i < |docs| ==> docs[i].id != id
  {
    if docs == [] then None
    else if docs[0].id == id then Some(docs[0])
    else Lookup(docs[1..], id)
  }

  lemma {:induction false} LookupAppend(docs: seq<Task>, t: Task)
    requires Lookup(docs, t.id).None?
    ensures Lookup(docs + [t], t.id) == Some(t)
  {
    if docs != [] {
      assert (docs + [t])[1..] == docs[1..] + [t];
      LookupAppend(docs[1..], t);
    }
  }

  /** storage.go:321: the task with one more sub-task, placed last. */
  function AppendSubTask(t: Task, st: SubTask): (r: Task)
    ensures |r.subTasks| == |t.subTasks| + 1
    ensures r.subTasks[..|t.subTasks|] == t.subTasks && r.subTasks[|t.subTasks|] == st
    ensures r.(subTasks := t.subTasks) == t
  {
    t.(subTasks := t.subTasks + [st])
  }

  /** storage.go:299: the task with the status of the sub-task at index i replaced. */
  function SetSubTaskStatus(t: Task, i: nat, status: Status): (r: Task)
    requires i < |t.subTasks|
    ensures |r.subTasks| == |t.subTasks|
    ensures r.subTasks[i] == SubTask(t.subTasks[i].title, status)
    ensures forall j :: 0 <= j < |t.subTasks| && j != i ==> r.subTasks[j] == t.subTasks[j]
    ensures r.(subTasks := t.subTasks) == t
  {
    t.(subTasks := t.subTasks[i := t.subTasks[i].(status := status)])
  }

  /** CreateTask, storage.go:41-62. */
  function CreateTask(s: Stores, task: Task, freshId: ObjectId, insertOk: bool, setOk: bool): Step<Task> {
    var t := task.(id := freshId);
    if !insertOk || Lookup(s.collection, freshId).Some? then Step(s, Err(MongoError))
    else
      var inserted := s.(collection := s.collection + [t]);
      match Marshal(t)
      case None => Step(inserted, Err(JsonError))
      case Some(p) =>
        if !setOk then Step(inserted, Err(RedisError))
        else Step(inserted.(cache := inserted.cache[IdString(freshId) := Snapshot(p)]), Ok(t))
  }

  /** GetTaskById, storage.go:66-108. On a miss the JSON decoded at the end is still the empty reply. */
  function GetTaskById(s: Stores, taskId: string, o: ReadOracle): Step<Task> {
    if !o.getOk then Step(s, Err(RedisError))
    else if taskId in s.cache then
      match Decode(s.cache[taskId].value)
      case Some(t) => Step(s, Ok(t))
      case None => Step(s, Err(JsonError))
    else
      match ParseObjectId(taskId)
      case Err(e) => Step(s, Err(e))
      case Ok(docId) =>
        if !o.findOk then Step(s, Err(MongoError))
        else
          match Lookup(s.collection, docId)
          case None => Step(s, Err(NoDocuments))
          case Some(doc) =>
            match Marshal(doc)
            case None => Step(s, Err(JsonError))
            case Some(p) =>
              if !o.setOk then Step(s, Err(RedisError))
              else
                var filled := s.(cache := s.cache[taskId := Snapshot(p)]);
                match Decode([])
                case Some(t) => Step(filled, Ok(t))
                case None => Step(filled, Err(JsonError))
  }

  /** UpdateTaskStatus, storage.go:142-181: the cache is written before the collection update is sent. */
  function UpdateTaskStatus(s: Stores, req: UpdateTaskStatusRequest, ro: ReadOracle, setOk: bool, upd: UpdateResult): Step<Task> {
    var g := GetTaskById(s, req.taskId, ro);
    if g.result.Err? then g
    else
      var task := g.result.value.(status := req.taskStatus);
      match Marshal(task)
      case None => Step(g.stores, Err(JsonError))
      case Some(p) =>
        if !setOk then Step(g.stores, Err(RedisError))
        else
          var cached := g.stores.(cache := g.stores.cache[req.taskId := Snapshot(p)]);
          var cmd := UpdateCommand(StringId(req.taskId), Set(Field("status"), Str(req.taskStatus)));
          var sent := cached.(issued := cached.issued + [cmd]);
          match upd
          case UpdateFailed => Step(sent, Err(MongoError))
          case Updated(n) => if n == 0 then Step(sent, Err(NoDocuments)) else Step(sent, Ok(task))
  }

  /** The command UpdateSubTaskStatus sends: {$set: {"sub_tasks.<index>.status": status}}. */
  function SubTaskStatusCommand(req: UpdateSubTaskStatusRequest): UpdateCommand {
    UpdateCommand(StringId(req.taskId), Set(Element("sub_tasks", req.subTaskIndex, "status"), Str(req.newStatus)))
  }

  /** UpdateSubTaskStatus, storage.go:273-313: no bounds check before the update is sent. */
  function UpdateSubTaskStatus(s: Stores, req: UpdateSubTaskStatusRequest, ro: ReadOracle, upd: UpdateResult, setOk: bool): Step<Task> {
    var g := GetTaskById(s, req.taskId, ro);
    if g.result.Err? then g
    else
      var sent := g.stores.(issued := g.stores.issued + [SubTaskStatusCommand(req)]);
      match upd
      case UpdateFailed => Step(sent, Err(MongoError))
      case Updated(n) =>
        if n == 0 then Step(sent, Err(NoDocuments))
        else if !(0 <= req.subTaskIndex < |g.result.value.subTasks|) then Step(sent, Err(IndexPanic))
        else
          var task := SetSubTaskStatus(g.result.value, req.subTaskIndex, req.newStatus);
          match Marshal(task)
          case None => Step(sent, Err(JsonError))
          case Some(p) =>
            if !setOk then Step(sent, Err(RedisError))
            else Step(sent.(cache := sent.cache[req.taskId := Snapshot(p)]), Ok(task))
  }

  /** The command AddNewSubTaskIntoTask sends: {$push: <the sub-task document>}, whose fields are title and status. */
  function PushSubTaskCommand(req: AddNewSubTaskIntoTaskRequest): UpdateCommand {
    UpdateCommand(StringId(req.taskId), Push([("title", Str(req.subTask.title)), ("status", Str(req.subTask.status))]))
  }

  /** AddNewSubTaskIntoTask, storage.go:315-352. */
  function AddNewSubTaskIntoTask(s: Stores, req: AddNewSubTaskIntoTaskRequest, ro: ReadOracle, upd: UpdateResult, setOk: bool): Step<Task> {
    var g := GetTaskById(s, req.taskId, ro);
    if g.result.Err? then g
    else
      var task := AppendSubTask(g.result.value, req.subTask);
      var sent := g.stores.(issued := g.stores.issued + [PushSubTaskCommand(req)]);
      match upd
      case UpdateFailed => Step(sent, Err(MongoError))
      case Updated(n) =>
        if n == 0 then Step(sent, Err(NoDocuments))
        else
          match Marshal(task)
          case None => Step(sent, Err(JsonError))
          case Some(p) =>
            if !setOk then Step(sent, Err(RedisError))
            else Step(sent.(cache := sent.cache[req.taskId := Snapshot(p)]), Ok(task))
  }

  /** The command ChangeTaskUser sends: {$set: {assigned_to: <new owners>}}. */
  function AssigneesCommand(req: ChangeTaskUserRequest): UpdateCommand {
    UpdateCommand(StringId(req.taskId), Set(Field("assigned_to"), Strs(req.newTaskOwnerData)))
  }

  /** ChangeTaskUser, storage.go:354-392: the task cached and returned is the one fetched before the change. */
  function ChangeTaskUser(s: Stores, req: ChangeTaskUserRequest, ro: ReadOracle, upd: UpdateResult, setOk: bool): Step<Task> {
    var g := GetTaskById(s, req.taskId, ro);
    if g.result.Err? then g
    else
      var task := g.result.value;
      var sent := g.stores.(issued := g.stores.issued + [AssigneesCommand(req)]);
      match upd
      case UpdateFailed => Step(sent, Err(MongoError))
      case Updated(n) =>
        if n == 0 then Step(sent, Err(NoDocuments))
        else
          match Marshal(task)
          case None => Step(sent, Err(JsonError))
          case Some(p) =>
            if !setOk then Step(sent, Err(RedisError))
            else Step(sent.(cache := sent.cache[req.taskId := Snapshot(p)]), Ok(task))
  }

  /**
   * The number of matched documents a cursor hands over before it breaks down
   * (all of them if it does not).
   */
  function Delivered(matched: seq<Task>, failsAfter: Option<nat>): (n: nat)
    ensures n <= |matched|
    ensures failsAfter.None? ==> n == |matched|
    ensures failsAfter.Some? ==> n <= failsAfter.value
  {
    match failsAfter
    case None => |matched|
    case Some(k) => if k < |matched| then k else |matched|
  }

  /**
   * The three queries (storage.go:110-140, 183-226, 228-271): Find with the
   * filter, decode each document the cursor hands over, then ask the cursor
   * for its error.
   */
  function Query(s: Stores, f: Filter, o: CursorOracle): Result<RepeatedModelsResponse> {
    var matched := Select(s.collection, f);
    if !o.findOk then Err(MongoError)
    else if exists j :: 0 <= j < Delivered(matched, o.failsAfter) && matched[j].id in o.undecodable then Err(DecodeError)
    else if o.failsAfter.Some? then Err(MongoError)
    else Ok(RepeatedModelsResponse(matched))
  }

  // ---------------------------------------------------------------------------
  // CreateTask

  /**
   * CreateTask gives the task a new id, then inserts, then marshals, then
   * writes the cache. A failed insert (an error, or an id already present)
   * writes nothing; a later failure leaves the inserted document in place and
   * the cache untouched; the cache key is the ObjectID("…") form, which never
   * parses back as an id.
   */
  lemma CreateTaskOrdering(s: Stores, task: Task, freshId: ObjectId, insertOk: bool, setOk: bool)
    ensures var st := CreateTask(s, task, freshId, insertOk, setOk);
            var t := task.(id := freshId);
            && st.stores.issued == s.issued
            && (st.result.Ok? <==> insertOk && Lookup(s.collection, freshId).None? && JsonDate(task.dueDate) && setOk)
            && (!insertOk || Lookup(s.collection, freshId).Some? ==> st == Step(s, Err(MongoError)))
            && (insertOk && Lookup(s.collection, freshId).None? ==> st.stores.collection == s.collection + [t])
            && (st.result.Err? ==> st.stores.cache == s.cache)
            && (st.result.Ok? ==>
                  && st.result.value == t
                  && st.stores.cache == s.cache[IdString(freshId) := Snapshot(Encode(t))]
                  && ParseObjectId(IdString(freshId)).Err?)
  {
    StringFormIsNotHex(freshId);
  }

  /** CreateTask never replaces a stored document: the collection only grows, by the new task at its end. */
  lemma CreateTaskKeepsDocuments(s: Stores, task: Task, freshId: ObjectId, insertOk: bool, setOk: bool)
    ensures var st := CreateTask(s, task, freshId, insertOk, setOk);
            && |s.collection| <= |st.stores.collection| <= |s.collection| + 1
            && st.stores.collection[..|s.collection|] == s.collection
  {
  }

  // ---------------------------------------------------------------------------
  // GetTaskById

  /** A Redis error other than a miss is returned as it is: no collection access, no cache write. */
  lemma GetRedisFailure(s: Stores, taskId: string, o: ReadOracle)
    requires !o.getOk
    ensures GetTaskById(s, taskId, o) == Step(s, Err(RedisError))
  {
  }

  /**
   * On a hit, the answer depends on the cache entry alone: neither the collection
   * nor the FindOne and Set outcomes matter, and nothing is written. When the
   * stores are valid the answer is the decoded entry.
   */
  lemma GetHitIgnoresCollection(s1: Stores, s2: Stores, taskId: string, o1: ReadOracle, o2: ReadOracle)
    requires s1.cache == s2.cache && taskId in s1.cache && o1.getOk && o2.getOk
    ensures GetTaskById(s1, taskId, o1).result == GetTaskById(s2, taskId, o2).result
    ensures GetTaskById(s1, taskId, o1).stores == s1 && GetTaskById(s2, taskId, o2).stores == s2
    ensures Valid(s1) ==> GetTaskById(s1, taskId, o1).result == Ok(Decode(s1.cache[taskId].value).value)
  {
  }

  /** A successful read always came from the cache and wrote nothing. */
  lemma GetOkIsHit(s: Stores, taskId: string, o: ReadOracle)
    ensures GetTaskById(s, taskId, o).result.Ok? ==> taskId in s.cache && GetTaskById(s, taskId, o).stores == s
  {
  }

  /**
   * A successful read on valid stores returns the task the id names: an id that
   * parses gives back the task with exactly that id.
   */
  lemma GetReturnsNamedTask(s: Stores, taskId: string, o: ReadOracle)
    requires Valid(s)
    ensures var g := GetTaskById(s, taskId, o);
            && (g.result.Ok? ==> NamesId(taskId, g.result.value.id))
            && (g.result.Ok? && ParseObjectId(taskId).Ok? ==> g.result.value.id == ParseObjectId(taskId).value)
  {
  }

  /**
   * On a miss the read always reports an error, even when it found the document
   * and cached it. A malformed id, a FindOne error or a missing document leave the
   * cache unchanged; otherwise the cache gains exactly the entry for this id.
   */
  lemma GetMissFails(s: Stores, taskId: string, o: ReadOracle)
    requires taskId !in s.cache
    ensures var g := GetTaskById(s, taskId, o);
            && g.result.Err?
            && g.stores.collection == s.collection && g.stores.issued == s.issued
            && (o.getOk && ParseObjectId(taskId).Err? ==> g == Step(s, Err(InvalidObjectId)))
            && ((o.getOk && o.findOk && ParseObjectId(taskId).Ok?
                 && Lookup(s.collection, ParseObjectId(taskId).value).None?) ==>
                  g == Step(s, Err(NoDocuments)))
            && (g.stores != s ==>
                  && o.getOk && o.findOk && o.setOk
                  && ParseObjectId(taskId).Ok?
                  && var doc := Lookup(s.collection, ParseObjectId(taskId).value);
                     doc.Some? && g.stores.cache == s.cache[taskId := Snapshot(Encode(doc.value))])
            && ((o.getOk && o.findOk && o.setOk && ParseObjectId(taskId).Ok?
                 && Lookup(s.collection, ParseObjectId(taskId).value).Some?
                 && JsonDate(Lookup(s.collection, ParseObjectId(taskId).value).value.dueDate)) ==>
                  g.stores != s && g.result == Err(JsonError))
  {
    var g := GetTaskById(s, taskId, o);
    if o.getOk && o.findOk && o.setOk && ParseObjectId(taskId).Ok? {
      var doc := Lookup(s.collection, ParseObjectId(taskId).value);
      if doc.Some? && JsonDate(doc.value.dueDate) {
        assert taskId in g.stores.cache;
      }
    }
  }

  /** After a miss that filled the cache, the next read with a working Redis hits and returns the stored document. */
  lemma {:induction false} GetMissThenHit(s: Stores, taskId: string, o1: ReadOracle, o2: ReadOracle)
    requires taskId !in s.cache && o2.getOk
    ensures var g := GetTaskById(s, taskId, o1);
            g.stores != s ==>
              && ParseObjectId(taskId).Ok?
              && Lookup(s.collection, ParseObjectId(taskId).value).Some?
              && GetTaskById(g.stores, taskId, o2) == Step(g.stores, Ok(Lookup(s.collection, ParseObjectId(taskId).value).value))
  {
    var g := GetTaskById(s, taskId, o1);
    if g.stores != s {
      GetMissFails(s, taskId, o1);
      var doc := Lookup(s.collection, ParseObjectId(taskId).value).value;
      DecodeEncode(doc);
    }
  }

  /**
   * Reading a task just created, by its hex id, fails the first time (the cache
   * entry CreateTask wrote is under another key, and the miss path errs), and
   * when Redis and the collection answer, fills the cache so that the second read
   * returns the created task.
   */
  lemma {:induction false} CreateThenRead(s: Stores, task: Task, freshId: ObjectId, setOk: bool, o: ReadOracle)
    requires CreateTask(s, task, freshId, true, setOk).result.Ok?
    requires Hex(freshId) !in s.cache
    ensures var c := CreateTask(s, task, freshId, true, setOk).stores;
            var g := GetTaskById(c, Hex(freshId), o);
            && g.result.Err?
            && (o == ReadOracle(true, true, true) ==>
                  GetTaskById(g.stores, Hex(freshId), o).result == Ok(task.(id := freshId)))
  {
    var t := task.(id := freshId);
    var c := CreateTask(s, task, freshId, true, setOk).stores;
    StringFormIsNotHex(freshId);
    assert Hex(freshId) !in c.cache;
    GetMissFails(c, Hex(freshId), o);
    if o == ReadOracle(true, true, true) {
      ParseHex(freshId);
      LookupAppend(s.collection, t);
      GetMissThenHit(c, Hex(freshId), o, o);
    }
  }

  // ---------------------------------------------------------------------------
  // Updates

  /**
   * UpdateTaskStatus passes a read error on with nothing more written. After a
   * read it writes the cache with the new status, whatever string that is, then
   * sends {$set: {status}} filtered by the raw id string; a failed or unmatched
   * update is reported but the cache keeps the new status.
   */
  lemma UpdateTaskStatusOrdering(s: Stores, req: UpdateTaskStatusRequest, ro: ReadOracle, setOk: bool, upd: UpdateResult)
    ensures var g := GetTaskById(s, req.taskId, ro);
            var st := UpdateTaskStatus(s, req, ro, setOk, upd);
            && (g.result.Err? ==> st == g)
            && (g.result.Ok? ==>
                  var t := g.result.value.(status := req.taskStatus);
                  && st.stores.collection == s.collection
                  && (st.result.Ok? <==> JsonDate(t.dueDate) && setOk && upd.Updated? && upd.matchedCount > 0)
                  && (st.result.Ok? ==> st.result.value == t)
                  && (JsonDate(t.dueDate) && setOk ==>
                        && st.stores.cache == s.cache[req.taskId := Snapshot(Encode(t))]
                        && st.stores.issued == s.issued + [UpdateCommand(StringId(req.taskId), Set(Field("status"), Str(req.taskStatus)))]
                        && (upd == Updated(0) ==> st.result == Err(NoDocuments)))
                  && (!(JsonDate(t.dueDate) && setOk) ==> st.stores == s))
  {
    GetOkIsHit(s, req.taskId, ro);
  }

  /**
   * An id with no cache entry and no document: UpdateTaskStatus reports
   * ErrNoDocuments and creates no cache entry for it.
   */
  lemma UpdateMissingTask(s: Stores, req: UpdateTaskStatusRequest, ro: ReadOracle, setOk: bool, upd: UpdateResult)
    requires req.taskId !in s.cache && ro.getOk && ro.findOk
    requires ParseObjectId(req.taskId).Ok? && Lookup(s.collection, ParseObjectId(req.taskId).value).None?
    ensures UpdateTaskStatus(s, req, ro, setOk, upd) == Step(s, Err(NoDocuments))
    ensures req.taskId !in UpdateTaskStatus(s, req, ro, setOk, upd).stores.cache
  {
    GetMissFails(s, req.taskId, ro);
  }

  /** Any status string is accepted and cached: the three named ones are not enforced. */
  lemma UpdateStoresAnyStatus(s: Stores, req: UpdateTaskStatusRequest, ro: ReadOracle, upd: UpdateResult)
    requires Valid(s) && ro.getOk && req.taskId in s.cache
    requires JsonDate(Decode(s.cache[req.taskId].value).value.dueDate)
    ensures var st := UpdateTaskStatus(s, req, ro, true, upd);
            && req.taskId in st.stores.cache
            && Decode(st.stores.cache[req.taskId].value).Some?
            && Decode(st.stores.cache[req.taskId].value).value.status == req.taskStatus
  {
    var t := Decode(s.cache[req.taskId].value).value.(status := req.taskStatus);
    DecodeEncode(t);
  }

  /**
   * UpdateSubTaskStatus sends the collection update first. A read error is passed
   * on with nothing more written; a failed or unmatched update, or an index
   * outside the sub-task list (a runtime panic, reached only after the update was
   * sent), leaves the cache untouched. On success exactly the sub-task at the
   * index has the new status, and that task is cached.
   */
  lemma UpdateSubTaskStatusOrdering(s: Stores, req: UpdateSubTaskStatusRequest, ro: ReadOracle, upd: UpdateResult, setOk: bool)
    ensures var g := GetTaskById(s, req.taskId, ro);
            var st := UpdateSubTaskStatus(s, req, ro, upd, setOk);
            && (g.result.Err? ==> st == g)
            && (g.result.Ok? ==>
                  && st.stores.collection == s.collection
                  && st.stores.issued == s.issued + [SubTaskStatusCommand(req)]
                  && (st.result.Err? ==> st.stores.cache == s.cache)
                  && (st.result.Ok? <==>
                        && upd.Updated? && upd.matchedCount > 0
                        && 0 <= req.subTaskIndex < |g.result.value.subTasks|
                        && JsonDate(g.result.value.dueDate) && setOk)
                  && (upd.UpdateFailed? ==> st.result == Err(MongoError))
                  && (upd == Updated(0) ==> st.result == Err(NoDocuments))
                  && ((upd.Updated? && upd.matchedCount > 0 && !(0 <= req.subTaskIndex < |g.result.value.subTasks|)) ==>
                        st.result == Err(IndexPanic))
                  && (st.result.Ok? ==>
                        && 0 <= req.subTaskIndex < |g.result.value.subTasks|
                        && st.result.value == SetSubTaskStatus(g.result.value, req.subTaskIndex, req.newStatus)
                        && st.stores.cache == s.cache[req.taskId := Snapshot(Encode(st.result.value))]))
  {
    GetOkIsHit(s, req.taskId, ro);
  }

  /**
   * AddNewSubTaskIntoTask appends in memory, then sends {$push: <sub-task>}, whose
   * fields are title and status (sub_tasks is not among them). A failed or
   * unmatched update leaves the cache untouched; on success the task returned and
   * cached has the new sub-task last and all earlier ones in place.
   */
  lemma AddNewSubTaskOrdering(s: Stores, req: AddNewSubTaskIntoTaskRequest, ro: ReadOracle, upd: UpdateResult, setOk: bool)
    ensures var g := GetTaskById(s, req.taskId, ro);
            var st := AddNewSubTaskIntoTask(s, req, ro, upd, setOk);
            && (g.result.Err? ==> st == g)
            && (g.result.Ok? ==>
                  && st.stores.collection == s.collection
                  && st.stores.issued == s.issued + [PushSubTaskCommand(req)]
                  && (st.result.Err? ==> st.stores.cache == s.cache)
                  && (st.result.Ok? <==> upd.Updated? && upd.matchedCount > 0 && JsonDate(g.result.value.dueDate) && setOk)
                  && (upd.UpdateFailed? ==> st.result == Err(MongoError))
                  && (upd == Updated(0) ==> st.result == Err(NoDocuments))
                  && (st.result.Ok? ==>
                        && st.result.value == AppendSubTask(g.result.value, req.subTask)
                        && st.stores.cache == s.cache[req.taskId := Snapshot(Encode(st.result.value))]))
    ensures forall i :: 0 <= i < |PushSubTaskCommand(req).update.fields| ==>
              PushSubTaskCommand(req).update.fields[i].0 != "sub_tasks"
  {
    GetOkIsHit(s, req.taskId, ro);
  }

  /**
   * ChangeTaskUser sends {$set: {assigned_to: <new owners>}} first; a failed or
   * unmatched update leaves the cache untouched. On success the task it caches
   * and returns is the one it read, old assignees included: the cached task is
   * the same as before the call.
   */
  lemma ChangeTaskUserCachesOldAssignees(s: Stores, req: ChangeTaskUserRequest, ro: ReadOracle, upd: UpdateResult, setOk: bool)
    ensures var g := GetTaskById(s, req.taskId, ro);
            var st := ChangeTaskUser(s, req, ro, upd, setOk);
            && (g.result.Err? ==> st == g)
            && (g.result.Ok? ==>
                  && st.stores.collection == s.collection
                  && st.stores.issued == s.issued + [AssigneesCommand(req)]
                  && (st.result.Err? ==> st.stores.cache == s.cache)
                  && (st.result.Ok? <==> upd.Updated? && upd.matchedCount > 0 && JsonDate(g.result.value.dueDate) && setOk)
                  && (upd.UpdateFailed? ==> st.result == Err(MongoError))
                  && (upd == Updated(0) ==> st.result == Err(NoDocuments))
                  && (st.result.Ok? ==>
                        && st.result.value == g.result.value
                        && st.stores.cache == s.cache[req.taskId := Snapshot(Encode(st.result.value))]
                        && st.result.value.assignedTo == Decode(s.cache[req.taskId].value).value.assignedTo
                        && Decode(st.stores.cache[req.taskId].value) == Decode(s.cache[req.taskId].value)))
  {
    var g := GetTaskById(s, req.taskId, ro);
    GetOkIsHit(s, req.taskId, ro);
    if g.result.Ok? {
      DecodeEncode(g.result.value);
    }
  }

  // ---------------------------------------------------------------------------
  // Queries

  /**
   * A query succeeds exactly when Find works, the cursor does not break down and
   * no delivered document fails to decode; it then returns the server's whole
   * selection, the matching tasks in cursor order, each exactly when it matches. No matches is a success with an
   * empty list.
   */
  lemma QueryOutcome(s: Stores, f: Filter, o: CursorOracle, t: Task)
    ensures var r := Query(s, f, o);
            && (r.Ok? <==> o.findOk && o.failsAfter.None?
                           && forall j :: 0 <= j < |Select(s.collection, f)| ==> Select(s.collection, f)[j].id !in o.undecodable)
            && (r.Ok? ==> r.value.tasks == Select(s.collection, f))
            && (r.Ok? ==> (t in r.value.tasks <==> t in s.collection && Matches(f, t)))
            && (r.Ok? && Select(s.collection, f) == [] ==> r == Ok(RepeatedModelsResponse([])))
  {
    SelectMembership(s.collection, f, t);
  }

  /** GetTasksUntilDate never returns a task: it succeeds with an empty list or fails. */
  lemma UntilDateQueryIsEmpty(s: Stores, d: DateTime, o: CursorOracle)
    ensures Query(s, UntilDate(d), o).Ok? ==> Query(s, UntilDate(d), o).value.tasks == []
    ensures o.findOk && o.failsAfter.None? ==> Query(s, UntilDate(d), o) == Ok(RepeatedModelsResponse([]))
  {
    UntilDateSelectsNothing(s.collection, d);
  }

  // ---------------------------------------------------------------------------
  // The invariant

  lemma CreateTaskKeepsValid(s: Stores, task: Task, freshId: ObjectId, insertOk: bool, setOk: bool)
    requires Valid(s)
    ensures Valid(CreateTask(s, task, freshId, insertOk, setOk).stores)
  {
    var t := task.(id := freshId);
    var st := CreateTask(s, task, freshId, insertOk, setOk);
    var c := st.stores.collection;
    if c != s.collection {
      forall i, j | 0 <= i < j < |c| ensures c[i].id != c[j].id {
        if j == |s.collection| {
          assert c[i] == s.collection[i];
        }
      }
    }
    CacheTaskKeepsValid(s.cache, IdString(freshId), t);
  }

  lemma GetTaskByIdKeepsValid(s: Stores, taskId: string, o: ReadOracle)
    requires Valid(s)
    ensures Valid(GetTaskById(s, taskId, o).stores)
  {
    var id := ParseObjectId(taskId);
    if id.Ok? && Lookup(s.collection, id.value).Some? {
      CacheTaskKeepsValid(s.cache, taskId, Lookup(s.collection, id.value).value);
    }
  }

  lemma UpdateTaskStatusKeepsValid(s: Stores, req: UpdateTaskStatusRequest, ro: ReadOracle, setOk: bool, upd: UpdateResult)
    requires Valid(s)
    ensures Valid(UpdateTaskStatus(s, req, ro, setOk, upd).stores)
  {
    UpdateTaskStatusOrdering(s, req, ro, setOk, upd);
    GetReturnsNamedTask(s, req.taskId, ro);
    GetTaskByIdKeepsValid(s, req.taskId, ro);
    var g := GetTaskById(s, req.taskId, ro);
    if g.result.Ok? {
      CacheTaskKeepsValid(s.cache, req.taskId, g.result.value.(status := req.taskStatus));
    }
  }

  lemma UpdateSubTaskStatusKeepsValid(s: Stores, req: UpdateSubTaskStatusRequest, ro: ReadOracle, upd: UpdateResult, setOk: bool)
    requires Valid(s)
    ensures Valid(UpdateSubTaskStatus(s, req, ro, upd, setOk).stores)
  {
    UpdateSubTaskStatusOrdering(s, req, ro, upd, setOk);
    GetReturnsNamedTask(s, req.taskId, ro);
    GetTaskByIdKeepsValid(s, req.taskId, ro);
    var st := UpdateSubTaskStatus(s, req, ro, upd, setOk);
    if st.result.Ok? {
      CacheTaskKeepsValid(s.cache, req.taskId, st.result.value);
    }
  }

  lemma AddNewSubTaskKeepsValid(s: Stores, req: AddNewSubTaskIntoTaskRequest, ro: ReadOracle, upd: UpdateResult, setOk: bool)
    requires Valid(s)
    ensures Valid(AddNewSubTaskIntoTask(s, req, ro, upd, setOk).stores)
  {
    AddNewSubTaskOrdering(s, req, ro, upd, setOk);
    GetReturnsNamedTask(s, req.taskId, ro);
    GetTaskByIdKeepsValid(s, req.taskId, ro);
    var st := AddNewSubTaskIntoTask(s, req, ro, upd, setOk);
    if st.result.Ok? {
      CacheTaskKeepsValid(s.cache, req.taskId, st.result.value);
    }
  }

  lemma ChangeTaskUserKeepsValid(s: Stores, req: ChangeTaskUserRequest, ro: ReadOracle, upd: UpdateResult, setOk: bool)
    requires Valid(s)
    ensures Valid(ChangeTaskUser(s, req, ro, upd, setOk).stores)
  {
    ChangeTaskUserCachesOldAssignees(s, req, ro, upd, setOk);
    GetReturnsNamedTask(s, req.taskId, ro);
    GetTaskByIdKeepsValid(s, req.taskId, ro);
    var st := ChangeTaskUser(s, req, ro, upd, setOk);
    if st.result.Ok? {
      CacheTaskKeepsValid(s.cache, req.taskId, st.result.value);
    }
  }
}
