/**
 * TasksStorage of internal/storage/storage.go as a class: the tasks collection,
 * the Redis cache and the UpdateOne commands sent so far are its fields, and
 * each method changes them in the order the Go code does. Every method is proved
 * to end in the state, and return the result, that the function of the same name
 * in module Store gives; the properties of those functions are proved there.
 */
module Storage {
  import opened Outcomes
  import opened ObjectIds
  import opened Models
  import opened Codec
  import opened Filters
  import opened Store

  /** The reply of a Redis Get: the stored value, a clean miss (redis.Nil), or a failure. */
  datatype GetReply = Hit(value: Payload) | Miss | GetFailed

  class TasksStorage {
    /** The tasks collection, in the order a cursor walks it. */
    var collection: seq<Task>
    /** The Redis cache. */
    var cache: map<string, CacheEntry>
    /** The UpdateOne commands sent to the collection, oldest first. */
    var issued: seq<UpdateCommand>

    function State(): Stores
      reads this
    {
      Stores(collection, cache, issued)
    }

    /** NewTasksStorage, storage.go:25-39: a store over an existing collection and cache. */
    constructor (collection: seq<Task>, cache: map<string, CacheEntry>)
      ensures State() == Stores(collection, cache, [])
    {
      this.collection := collection;
      this.cache := cache;
      this.issued := [];
    }

    // -------------------------------------------------------------------------
    // The external calls, one step each.

    /** InsertOne: fails on a driver error or when the id is already taken (the unique `_id` index). */
    method InsertOne(doc: Task, ok: bool) returns (failed: bool)
      modifies this
      ensures failed == (!ok || Lookup(old(collection), doc.id).Some?)
      ensures collection == if failed then old(collection) else old(collection) + [doc]
      ensures cache == old(cache) && issued == old(issued)
    {
      failed := !ok || Lookup(collection, doc.id).Some?;
      if !failed {
        collection := collection + [doc];
      }
    }

    /** Redis Get. */
    method RedisGet(key: string, ok: bool) returns (reply: GetReply)
      ensures reply == if !ok then GetFailed else if key in cache then Hit(cache[key].value) else Miss
    {
      if !ok {
        reply := GetFailed;
      } else if key in cache {
        reply := Hit(cache[key].value);
      } else {
        reply := Miss;
      }
    }

    /** Redis Set with the 24-hour expiry. */
    method RedisSet(key: string, value: Payload, ok: bool) returns (stored: bool)
      modifies this
      ensures stored == ok
      ensures cache == if ok then old(cache)[key := Snapshot(value)] else old(cache)
      ensures collection == old(collection) && issued == old(issued)
    {
      stored := ok;
      if ok {
        cache := cache[key := Snapshot(value)];
      }
    }

    /** FindOne with filter {_id: id}, decoded into a Task. */
    method FindOne(id: ObjectId, ok: bool) returns (r: Result<Task>)
      ensures !ok ==> r == Err(MongoError)
      ensures ok ==> r == match Lookup(collection, id) case Some(t) => Ok(t) case None => Err(NoDocuments)
    {
      if !ok {
        return Err(MongoError);
      }
      var found := Lookup(collection, id);
      if found.None? {
        return Err(NoDocuments);
      }
      return Ok(found.value);
    }

    /** UpdateOne: the command is sent; the reply is an error or the matched count. */
    method UpdateOne(cmd: UpdateCommand, outcome: UpdateResult) returns (matched: Result<nat>)
      modifies this
      ensures issued == old(issued) + [cmd]
      ensures collection == old(collection) && cache == old(cache)
      ensures matched == match outcome case UpdateFailed => Err(MongoError) case Updated(n) => Ok(n)
    {
      issued := issued + [cmd];
      match outcome {
        case UpdateFailed => matched := Err(MongoError);
        case Updated(n) => matched := Ok(n);
      }
    }

    // -------------------------------------------------------------------------
    // The operations.

    /** CreateTask, storage.go:41-62. */
    method CreateTask(task: Task, freshId: ObjectId, insertOk: bool, setOk: bool) returns (r: Result<Task>)
      modifies this
      ensures Step(State(), r) == Store.CreateTask(old(State()), task, freshId, insertOk, setOk)
      ensures r.Err? ==> cache == old(cache)
    {
      var t := task.(id := freshId);
      var failed := InsertOne(t, insertOk);
      if failed {
        return Err(MongoError);
      }
      var hashedTask := Marshal(t);
      if hashedTask.None? {
        return Err(JsonError);
      }
      var stored := RedisSet(IdString(t.id), hashedTask.value, setOk);
      if !stored {
        return Err(RedisError);
      }
      return Ok(t);
    }

    /** GetTaskById, storage.go:66-108. */
    method GetTaskById(taskId: string, o: ReadOracle) returns (r: Result<Task>)
      modifies this
      ensures Step(State(), r) == Store.GetTaskById(old(State()), taskId, o)
      ensures collection == old(collection) && issued == old(issued)
    {
      var result: Payload := [];
      var reply := RedisGet(taskId, o.getOk);
      match reply {
        case GetFailed =>
          return Err(RedisError);
        case Hit(v) =>
          result := v;
        case Miss =>
          var docId := ParseObjectId(taskId);
          if docId.Err? {
            return Err(docId.error);
          }
          var response := FindOne(docId.value, o.findOk);
          if response.Err? {
            return Err(response.error);
          }
          var hashedTask := Marshal(response.value);
          if hashedTask.None? {
            return Err(JsonError);
          }
          var stored := RedisSet(taskId, hashedTask.value, o.setOk);
          if !stored {
            return Err(RedisError);
          }
      }
      var response := Decode(result);
      if response.None? {
        return Err(JsonError);
      }
      return Ok(response.value);
    }

    /** UpdateTaskStatus, storage.go:142-181. */
    method UpdateTaskStatus(req: UpdateTaskStatusRequest, ro: ReadOracle, setOk: bool, upd: UpdateResult) returns (r: Result<Task>)
      modifies this
      ensures Step(State(), r) == Store.UpdateTaskStatus(old(State()), req, ro, setOk, upd)
    {
      var fetched := GetTaskById(req.taskId, ro);
      if fetched.Err? {
        return fetched;
      }
      var task := fetched.value.(status := req.taskStatus);
      var hashedTask := Marshal(task);
      if hashedTask.None? {
        return Err(JsonError);
      }
      var stored := RedisSet(req.taskId, hashedTask.value, setOk);
      if !stored {
        return Err(RedisError);
      }
      var matched := UpdateOne(UpdateCommand(StringId(req.taskId), Set(Field("status"), Str(req.taskStatus))), upd);
      if matched.Err? {
        return Err(matched.error);
      }
      if matched.value == 0 {
        return Err(NoDocuments);
      }
      return Ok(task);
    }

    /** UpdateSubTaskStatus, storage.go:273-313. */
    method UpdateSubTaskStatus(req: UpdateSubTaskStatusRequest, ro: ReadOracle, upd: UpdateResult, setOk: bool) returns (r: Result<Task>)
      modifies this
      ensures Step(State(), r) == Store.UpdateSubTaskStatus(old(State()), req, ro, upd, setOk)
    {
      var fetched := GetTaskById(req.taskId, ro);
      if fetched.Err? {
        return fetched;
      }
      var matched := UpdateOne(SubTaskStatusCommand(req), upd);
      if matched.Err? {
        return Err(matched.error);
      }
      if matched.value == 0 {
        return Err(NoDocuments);
      }
      if !(0 <= req.subTaskIndex < |fetched.value.subTasks|) {
        return Err(IndexPanic);
      }
      var task := SetSubTaskStatus(fetched.value, req.subTaskIndex, req.newStatus);
      var hashedTask := Marshal(task);
      if hashedTask.None? {
        return Err(JsonError);
      }
      var stored := RedisSet(req.taskId, hashedTask.value, setOk);
      if !stored {
        return Err(RedisError);
      }
      return Ok(task);
    }

    /** AddNewSubTaskIntoTask, storage.go:315-352. */
    method AddNewSubTaskIntoTask(req: AddNewSubTaskIntoTaskRequest, ro: ReadOracle, upd: UpdateResult, setOk: bool) returns (r: Result<Task>)
      modifies this
      ensures Step(State(), r) == Store.AddNewSubTaskIntoTask(old(State()), req, ro, upd, setOk)
    {
      var fetched := GetTaskById(req.taskId, ro);
      if fetched.Err? {
        return fetched;
      }
      var task := AppendSubTask(fetched.value, req.subTask);
      var matched := UpdateOne(PushSubTaskCommand(req), upd);
      if matched.Err? {
        return Err(matched.error);
      }
      if matched.value == 0 {
        return Err(NoDocuments);
      }
      var hashedTask := Marshal(task);
      if hashedTask.None? {
        return Err(JsonError);
      }
      var stored := RedisSet(req.taskId, hashedTask.value, setOk);
      if !stored {
        return Err(RedisError);
      }
      return Ok(task);
    }

    /** ChangeTaskUser, storage.go:354-392. */
    method ChangeTaskUser(req: ChangeTaskUserRequest, ro: ReadOracle, upd: UpdateResult, setOk: bool) returns (r: Result<Task>)
      modifies this
      ensures Step(State(), r) == Store.ChangeTaskUser(old(State()), req, ro, upd, setOk)
    {
      var fetched := GetTaskById(req.taskId, ro);
      if fetched.Err? {
        return fetched;
      }
      var task := fetched.value;
      var matched := UpdateOne(AssigneesCommand(req), upd);
      if matched.Err? {
        return Err(matched.error);
      }
      if matched.value == 0 {
        return Err(NoDocuments);
      }
      var hashedTask := Marshal(task);
      if hashedTask.None? {
        return Err(JsonError);
      }
      var stored := RedisSet(req.taskId, hashedTask.value, setOk);
      if !stored {
        return Err(RedisError);
      }
      return Ok(task);
    }

    /**
     * The loop the three queries share: Find with the filter (the server selects
     * the matching documents, in collection order), then take the documents the
     * cursor hands over one by one, decode each, and finally ask the cursor for
     * its error.
     */
    method Find(f: Filter, o: CursorOracle) returns (r: Result<RepeatedModelsResponse>)
      ensures r == Query(State(), f, o)
    {
      if !o.findOk {
        return Err(MongoError);
      }
      var matched := Select(collection, f);
      var tasks: seq<Task> := [];
      var k := 0;
      while k < |matched|
        invariant 0 <= k <= Delivered(matched, o.failsAfter)
        invariant tasks == matched[..k]
        invariant forall j :: 0 <= j < k ==> matched[j].id !in o.undecodable
      {
        if o.failsAfter == Some(k) {
          return Err(MongoError);
        }
        if matched[k].id in o.undecodable {
          return Err(DecodeError);
        }
        tasks := tasks + [matched[k]];
        k := k + 1;
      }
      if o.failsAfter.Some? {
        return Err(MongoError);
      }
      assert tasks == matched;
      return Ok(RepeatedModelsResponse(tasks));
    }

    /** GetTaskByUser, storage.go:110-140. */
    method GetTaskByUser(user: User, o: CursorOracle) returns (r: Result<RepeatedModelsResponse>)
      ensures r == Query(State(), ByUser(user), o)
    {
      r := Find(ByUser(user), o);
    }

    /** GetIncompleteSubTasks, storage.go:183-226. */
    method GetIncompleteSubTasks(req: User, o: CursorOracle) returns (r: Result<RepeatedModelsResponse>)
      ensures r == Query(State(), IncompleteFor(req), o)
    {
      r := Find(IncompleteFor(req), o);
    }

    /** GetTasksUntilDate, storage.go:228-271. */
    method GetTasksUntilDate(req: GetTasksUntilDateRequest, o: CursorOracle) returns (r: Result<RepeatedModelsResponse>)
      ensures r == Query(State(), UntilDate(req.date), o)
    {
      r := Find(UntilDate(req.date), o);
    }
  }
}
