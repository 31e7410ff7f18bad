# Tasks storage of to-do-with-mongo, modelled in Dafny

This project models the storage layer of the to-do service: `TasksStorage` in
`internal/storage/storage.go` and the records of `internal/models/models.go`. The storage
layer keeps tasks in a MongoDB collection. It puts a JSON snapshot of each task in Redis,
with a 24-hour expiry.

- `outcomes.dfy` (module `Outcomes`) holds `Option`, `Result` and the kinds of error the
  storage methods return.
- `object_ids.dfy` (module `ObjectIds`) models 12-byte ObjectIDs and three text forms:
  - `Hex`: the 24 lower-case hex digits, from `ObjectID.Hex`;
  - `IdString`: the `ObjectID("…")` form, from `ObjectID.String`;
  - `ParseObjectId`: `ObjectIDFromHex`, which accepts exactly 24 hex digits of either case.
- `models.dfy` (module `Models`) holds the task, sub-task, user and request records, the
  three named statuses, and the database and collection names.
- `codec.dfy` (module `Codec`) models the JSON snapshot as a token stream.
  - Decoding gives back what was encoded.
  - The empty input does not decode.
  - Marshalling fails exactly when the due date falls outside the years 0 to 9999.
- `filters.dfy` (module `Filters`) holds the three query filters, as the code writes them,
  and `Select`, the walk of a cursor over the collection.
- `store.dfy` (module `Store`) holds the stores as one value: the collection (a sequence in
  cursor order), the cache (a map from key to snapshot), and the log of update commands sent.
  - Each storage operation is a function from the old stores to the new stores and its
    result.
  - Lemmas state each operation's order of effects and error paths, and show that the
    invariant `Valid` is kept: ids are unique, every cache entry is a decodable snapshot
    with the 24-hour expiry, and every cache key names the id of the task it holds.
- `storage.dfy` (module `Storage`) holds the class `TasksStorage`. Its fields are the same
  three stores, and it has one method per operation.
  - The methods perform the external calls in the Go order.
  - Each method is proved to end in the state, and return the result, that the `Store`
    function gives.
  - The three queries share one cursor loop, `Find`, which is proved against `Store.Query`.
- `intended.dfy` (module `Intended`) holds one corrected definition for each defect listed
  under Findings, with the intended property proved about it.

Things outside the model are inputs to each operation:
- whether Redis, `FindOne`, `InsertOne` and `UpdateOne` succeed;
- the `MatchedCount` of an update;
- the id `NewObjectID` draws;
- which documents a cursor cannot decode, and when it breaks down.

An `UpdateOne` is recorded in the `issued` log exactly as it was built, filter included. Its
effect on documents is not applied. The code's filters hold the raw id string, and the lemma
`Intended.RawFilterSelectsNothing` shows that such a filter selects no stored task.

## Model

| member | source | states |
|---|---|---|
| ObjectIds.DigitValue | internal/storage/storage.go:71 | a character has a hex value exactly when it is 0-9, a-f or A-F; the value is below 16, is the inverse of the lower-case digit writer, and is the same for an upper-case letter as for its lower-case form |
| ObjectIds.UpperDigit | internal/storage/storage.go:71 | upper-casing a hex letter does not change its value |
| ObjectIds.BytesOfHexUpper | internal/storage/storage.go:71 | hex decoding gives the same bytes for a string and its upper-case form |
| ObjectIds.ParseUpperHex | internal/storage/storage.go:71-75 | an id sent in upper-case hex parses to the same id |
| ObjectIds.Hex | internal/models/models.go:16 | the hex form of an id is 24 characters long |
| ObjectIds.IdString | internal/storage/storage.go:56 | `Id.String()` is 36 characters and carries the hex form inside `ObjectID("…")` |
| ObjectIds.ParseObjectId | internal/storage/storage.go:71-75 | every rejection of `ObjectIDFromHex` is the invalid-id error |
| ObjectIds.BytesOfHexOf | internal/storage/storage.go:71 | hex decoding inverts hex encoding for every byte string |
| ObjectIds.ParseHex | internal/storage/storage.go:71 | parsing the hex form of an id gives back that id |
| ObjectIds.HexInjective | internal/models/models.go:16 | distinct ids have distinct hex forms, so hex cache keys do not collide |
| ObjectIds.BytesOfHexDefined | internal/storage/storage.go:71 | hex decoding succeeds exactly on an even number of hex digits |
| ObjectIds.ParseAccepts | internal/storage/storage.go:71-75 | an id string parses exactly when it is 24 hex digits |
| ObjectIds.StringFormIsNotHex | internal/storage/storage.go:56 | the key CreateTask writes differs from the hex form and is itself rejected as an id |
| Models.FixedNames | internal/models/models.go:71-77 | the database is "todo" and the collection "tasks" for every task |
| Models.NamedStatuses | internal/models/models.go:65-69 | the three statuses are "completed", "pending" and "in-progress", pairwise distinct; a string is a named status exactly when it is one of them, so "done", "Pending" and "" are not |
| Codec.DecodeOptional | internal/models/models.go:17-18 | a token that decodes as an optional text field is exactly the encoding of what it decodes to |
| Codec.DecodeEncodeOptional | internal/models/models.go:17-18 | an absent or present optional text field decodes back to what was encoded |
| Codec.EncodeStrings | internal/models/models.go:20 | one token per assignee |
| Codec.DecodeEncodeStrings | internal/models/models.go:20 | the assignee list decodes back from its encoding, and the rest of the input is untouched |
| Codec.DecodeEncodeSubTasks | internal/models/models.go:10-13 | the sub-task list decodes back from its encoding, with the rest of the input untouched |
| Codec.Encode | internal/models/models.go:15-23 | the snapshot of a task has seven fixed tokens plus one per assignee and two per sub-task |
| Codec.Decode | internal/storage/storage.go:103-106 | an input shorter than a snapshot (the empty reply included) does not decode |
| Codec.Marshal | internal/storage/storage.go:50-54 | marshalling fails exactly when the due date is outside years 0-9999; on success the snapshot decodes back to the task |
| Codec.DecodeEncode | internal/storage/storage.go:88-106 | unmarshalling a marshalled task gives the same task |
| Codec.EncodeInjective | internal/models/models.go:15-23 | distinct tasks have distinct snapshots |
| Filters.Select | internal/storage/storage.go:126-133 | a query returns no more tasks than the collection holds |
| Filters.SelectMembership | internal/storage/storage.go:110-133 | a task is returned exactly when it is in the collection and matches the filter |
| Filters.SelectAppend | internal/storage/storage.go:126-133 | results keep cursor order: the selection of a concatenation is the concatenation of the selections |
| Filters.SelectStep | internal/storage/storage.go:126-133 | one cursor step extends the selection by the document when it matches, and stays a prefix of the full result |
| Filters.SelectAllMatch | internal/storage/storage.go:126-133 | when every document matches, the result is the whole collection in order |
| Filters.IncompleteAreByUser | internal/storage/storage.go:184-197 | every task found by GetIncompleteSubTasks for a user is also found by GetTaskByUser for that user |
| Filters.UntilDateNeverMatches | internal/storage/storage.go:229-242 | the until-date filter tests the field "staus", which no task has, so it matches no task |
| Filters.UntilDateSelectsNothing | internal/storage/storage.go:228-260 | the until-date selection is empty for every collection |
| Store.Lookup | internal/storage/storage.go:77-86 | `FindOne` by id finds a document with that id, and finds none exactly when no document has it |
| Store.LookupAppend | internal/storage/storage.go:44 | after an insert, the new task is found by its id when no earlier document had it |
| Store.AppendSubTask | internal/storage/storage.go:321 | the new sub-task is last and the earlier ones are unchanged |
| Store.SetSubTaskStatus | internal/storage/storage.go:299 | only the sub-task at the index changes, and only its status |
| Store.Delivered | internal/storage/storage.go:126-138 | a cursor delivers at most the matching documents: all of them when it does not break down, and no more than it reaches before breaking down |
| Store.CreateTaskOrdering | internal/storage/storage.go:41-62 | insert, then marshal, then cache: a failed insert or a taken id writes nothing; later failures keep the insert but not the cache entry; success caches under the `ObjectID("…")` key, which is not an id |
| Store.CreateTaskKeepsDocuments | internal/storage/storage.go:44 | CreateTask never removes or replaces a stored document |
| Store.GetRedisFailure | internal/storage/storage.go:98-101 | a Redis error other than a miss is returned with nothing read or written |
| Store.GetHitIgnoresCollection | internal/storage/storage.go:68-107 | a cache hit's answer depends on the cache entry alone and writes nothing |
| Store.GetOkIsHit | internal/storage/storage.go:66-108 | every successful read came from the cache and wrote nothing |
| Store.GetReturnsNamedTask | internal/storage/storage.go:66-108 | on valid stores a successful read returns the task its id names: an id that parses gives back the task with exactly that id |
| Store.GetMissFails | internal/storage/storage.go:69-103 | a miss always ends in an error: a bad id, a missing document or a fetch error leaves the cache unchanged, and a found document is cached and then reported as a JSON error |
| Store.GetMissThenHit | internal/storage/storage.go:94-103 | after a miss that filled the cache, the next read returns the stored document |
| Store.CreateThenRead | internal/storage/storage.go:41-107 | reading a new task by its hex id fails the first time, and when every call succeeds, the second read returns the task |
| Store.UpdateTaskStatusOrdering | internal/storage/storage.go:142-181 | a read error is passed on; the cache is written with the new status before the update is sent with the raw id string; success needs a matched update |
| Store.UpdateMissingTask | internal/storage/storage.go:143-147 | updating an id with no cache entry and no document reports no documents and writes nothing |
| Store.UpdateStoresAnyStatus | internal/storage/storage.go:148-158 | any status string is accepted and cached; the named statuses are not enforced |
| Store.UpdateSubTaskStatusOrdering | internal/storage/storage.go:273-313 | the update is sent first; a failed or unmatched update, or an out-of-range index (a panic after the update), leaves the cache as it was; success happens exactly when the update matched, the index is in range, the due date has a JSON form and Set works, and then changes only that sub-task and caches the result |
| Store.AddNewSubTaskOrdering | internal/storage/storage.go:315-352 | the `$push` of the sub-task's own fields (never "sub_tasks") is sent; a failed or unmatched update leaves the cache; success happens exactly when the update matched, the due date has a JSON form and Set works, and then caches the task with the new sub-task last; an update error is a Mongo error and no match is "no documents" |
| Store.ChangeTaskUserCachesOldAssignees | internal/storage/storage.go:354-392 | the assignee update is sent; success happens exactly when it matched, the due date has a JSON form and Set works, and then the returned and cached task keeps the old assignees; an update error is a Mongo error and no match is "no documents"; this holds for any stores |
| Store.QueryOutcome | internal/storage/storage.go:117-139 | a query succeeds exactly when Find works, the cursor does not fail and every delivered document decodes; it then returns the server's whole selection, in cursor order and once each, so each task is returned exactly when it is stored and matches, and an empty list when none match |
| Store.UntilDateQueryIsEmpty | internal/storage/storage.go:228-271 | GetTasksUntilDate returns an empty list or an error, never a task |
| Store.CacheTaskKeepsValid | internal/storage/storage.go:94 | writing a task's JSON form with the 24-hour expiry, under a key that names the task's id, keeps every cache entry a decodable task whose id its key names |
| Store.CreateTaskKeepsValid | internal/storage/storage.go:41-62 | CreateTask keeps ids unique and every cache entry a decodable snapshot with the 24-hour expiry, keyed by its task's id (hex or `ObjectID("…")` form) |
| Store.GetTaskByIdKeepsValid | internal/storage/storage.go:66-108 | GetTaskById keeps the invariant |
| Store.UpdateTaskStatusKeepsValid | internal/storage/storage.go:142-181 | UpdateTaskStatus keeps the invariant |
| Store.UpdateSubTaskStatusKeepsValid | internal/storage/storage.go:273-313 | UpdateSubTaskStatus keeps the invariant |
| Store.AddNewSubTaskKeepsValid | internal/storage/storage.go:315-352 | AddNewSubTaskIntoTask keeps the invariant |
| Store.ChangeTaskUserKeepsValid | internal/storage/storage.go:354-392 | ChangeTaskUser keeps the invariant |
| Storage.TasksStorage.constructor | internal/storage/storage.go:25-39 | a new store over a collection and cache has sent no updates |
| Storage.TasksStorage.InsertOne | internal/storage/storage.go:44-48 | the insert fails on a driver error or a taken id, and otherwise appends the document |
| Storage.TasksStorage.RedisGet | internal/storage/storage.go:68-70 | the reply is the stored value, a miss, or a failure |
| Storage.TasksStorage.RedisSet | internal/storage/storage.go:94 | a successful Set stores the value with the 24-hour expiry and changes nothing else |
| Storage.TasksStorage.FindOne | internal/storage/storage.go:77-86 | the document with the id, no documents, or the driver error |
| Storage.TasksStorage.UpdateOne | internal/storage/storage.go:169-173 | the command is sent; the reply is an error or the matched count |
| Storage.TasksStorage.CreateTask | internal/storage/storage.go:41-62 | the new state and result are those of `Store.CreateTask`; on error the cache is unchanged |
| Storage.TasksStorage.GetTaskById | internal/storage/storage.go:66-108 | the new state and result are those of `Store.GetTaskById`; the collection and the command log are unchanged |
| Storage.TasksStorage.UpdateTaskStatus | internal/storage/storage.go:142-181 | the new state and result are those of `Store.UpdateTaskStatus` |
| Storage.TasksStorage.UpdateSubTaskStatus | internal/storage/storage.go:273-313 | the new state and result are those of `Store.UpdateSubTaskStatus` |
| Storage.TasksStorage.AddNewSubTaskIntoTask | internal/storage/storage.go:315-352 | the new state and result are those of `Store.AddNewSubTaskIntoTask` |
| Storage.TasksStorage.ChangeTaskUser | internal/storage/storage.go:354-392 | the new state and result are those of `Store.ChangeTaskUser` |
| Storage.TasksStorage.Find | internal/storage/storage.go:117-139 | the cursor loop returns what `Store.Query` gives: the matching tasks in order, or the first error met |
| Storage.TasksStorage.GetTaskByUser | internal/storage/storage.go:110-140 | the result is the query with the `$all` (full name, email) filter |
| Storage.TasksStorage.GetIncompleteSubTasks | internal/storage/storage.go:183-226 | the result is the query for the user's tasks that have a pending sub-task |
| Storage.TasksStorage.GetTasksUntilDate | internal/storage/storage.go:228-271 | the result is the query with the until-date filter as written |
| Intended.CacheKey | internal/storage/storage.go:56 | the corrected cache key parses back to the task's id |
| Intended.CreateThenReadHits | internal/storage/storage.go:41-68 | with the hex key, the first read of a created task hits and returns it |
| Intended.ReadThrough | internal/storage/storage.go:69-107 | with the corrected read, a miss on an existing task returns it and caches it, and the next read hits |
| Intended.ReadThroughDiffers | internal/storage/storage.go:103 | the code as written fails that same read while writing the same cache entry |
| Intended.DueByScenario | internal/storage/storage.go:229-242 | a pending task due on D is found on D, not the day before and not once completed; the filter as written finds it in none of these cases |
| Intended.DueByMeaning | internal/storage/storage.go:229-242 | the corrected filter holds exactly for in-progress or pending tasks due by the date, the boundary included |
| Intended.ChangeThenReadSeesNewAssignees | internal/storage/storage.go:365-385 | with the patch, the cached and returned task carry the owners the update sets, and the next read returns them |
| Intended.PushMatchesCache | internal/storage/storage.go:321-328 | the corrected `$push` targets "sub_tasks" with the very sub-task that ends the cached list; the code as written pushes to "title" and "status" |
| Intended.OutOfRangeWritesNothing | internal/storage/storage.go:279-299 | the corrected operation rejects an out-of-range index with nothing sent and nothing cached; as written the update is sent and then the method panics |
| Intended.UpdateFilter | internal/storage/storage.go:160-162 | the filter on the parsed id fails exactly when the id string does not parse |
| Intended.RawFilterSelectsNothing | internal/storage/storage.go:160-162 | a raw-string `_id` filter selects no stored task |
| Intended.ParsedFilterSelects | internal/storage/storage.go:71-77 | the filter on the parsed id selects exactly the task whose id the string names |

## Left out

- MongoDB and Redis themselves are not modelled: connections, contexts, cancellation, the
  driver's wire format, indexes other than the unique `_id`, and server-side evaluation of
  update operators. The success of each call, and an update's `MatchedCount`, are inputs.
- UpdateOne's effect on stored documents is not applied. The command is recorded instead.
  Because every update in the code filters on the raw id string, it would select no stored
  document (`Intended.RawFilterSelectsNothing`).
- BSON field naming is not modelled. In Go, the `Task` struct tags only `Id` (as `_id`) for
  BSON. Every other field keeps the driver's default name, its lower-cased Go name:
  `title`, `status`, `assignedto`, `duedate` and `subtasks`. The model has no tags at all.
  Its filters read the JSON names `assigned_to`, `sub_tasks`, `status` and `due_date`.
  - With the default names, the documents CreateTask inserts have no `assigned_to`,
    `sub_tasks` or `due_date` field.
  - So in the code as written, GetTaskByUser and GetIncompleteSubTasks would find nothing.
  - The `$set` updates on `assigned_to` and `sub_tasks.<i>.status` would address fields
    those documents lack.
  - The model's queries match on the JSON names instead. Only `status` has the same name
    both ways.
- Expiry of cache entries over time is not modelled. The 24-hour TTL is recorded in every
  entry, and no clock advances.
- JSON is a token stream, not bytes. The due-date range assumes UTC, and the range test stands
  in for the `time.Time` JSON error.
- The logger, the `db` and `usersCollection` fields, and the log lines the queries write when
  a result is empty are not modelled. None of them changes a result.
- The HTTP handlers, the service layer and `cmd/main.go` are not part of this model.
- Concurrent calls are not modelled. Each operation is one atomic step on the stores.
- Nil sub-task pointers are not modelled. A sub-task list holds values.
- `SubTaskIndex` is an unbounded integer. Go's `int` width plays no part, because any index
  outside the list panics.
- A cursor failure is modelled as striking after a given number of delivered matches. The
  model does not distinguish an error raised by `Next` from one raised by `Err`.
- `NewObjectID`'s timestamp and counter are not modelled. The new id is an input.

## Findings

| source | as written | input that shows it | evidently intended | confidence | as-written member | corrected member |
|---|---|---|---|---|---|---|
| internal/storage/storage.go:56 | CreateTask caches under `task.Id.String()`, the `ObjectID("…")` form | create a task, then read it by its hex id: the read misses | cache under `task.Id.Hex()`, the key readers and updaters use | not executed | Store.CreateThenRead | Intended.CreateThenReadHits |
| internal/storage/storage.go:103 | after a miss fills the cache, `result` is still empty and is unmarshalled | a read of an uncached, existing task whose every call succeeds returns a JSON error | return the fetched document | not executed | Intended.ReadThroughDiffers | Intended.ReadThrough |
| internal/storage/storage.go:232 | the until-date filter tests the field "staus" | a pending task due on D, queried for D, is not returned | test "status" | not executed | Filters.UntilDateNeverMatches | Intended.DueByScenario |
| internal/storage/storage.go:380 | ChangeTaskUser caches and returns the task without the new owners | a successful change followed by a read returns the old assignees; success needs a matched update, so this is reachable only once the `_id` filter matches (with the storage.go:161 fix, or for a document whose `_id` is the string itself) | set `task.AssignedTo` before caching | not executed | Store.ChangeTaskUserCachesOldAssignees | Intended.ChangeThenReadSeesNewAssignees |
| internal/storage/storage.go:327 | `$push` is given the sub-task itself, so it targets "title" and "status" | adding any sub-task | `$push` into "sub_tasks" | not executed | Store.AddNewSubTaskOrdering | Intended.PushMatchesCache |
| internal/storage/storage.go:299 | the index is used without a bounds check, after the update was sent | index 5 on a task with two sub-tasks and a matched update; as written the raw-string `_id` filter matches nothing and line 297 returns first, so the panic is reachable only once the filter matches (with the storage.go:161 fix, or for a document whose `_id` is the string itself) | reject the index before writing anything | not executed | Store.UpdateSubTaskStatusOrdering | Intended.OutOfRangeWritesNothing |
| internal/storage/storage.go:161 | updates filter `_id` by the raw string | any update of a stored task matches nothing, since a string never equals an ObjectID | filter on the parsed ObjectID | not executed | Intended.RawFilterSelectsNothing | Intended.ParsedFilterSelects |
