/** Optional values, the failure kinds the task store reports, and results that carry either. */
module Outcomes {

  datatype Option<+T> = None | Some(value: T)

  /** The errors storage.go hands back to its callers, grouped by where they come from. */
  datatype Error =
    | RedisError        // a Redis Get or Set failed for a reason other than a clean miss (redis.Nil)
    | InvalidObjectId   // primitive.ObjectIDFromHex rejected the id string
    | NoDocuments       // mongo.ErrNoDocuments: FindOne found nothing or UpdateOne matched nothing
    | MongoError        // InsertOne, FindOne, Find, UpdateOne or the cursor failed
    | DecodeError       // cursor.Decode could not turn a document into a Task
    | JsonError         // json.Marshal or json.Unmarshal failed
    | IndexPanic        // the Go runtime's "index out of range" panic
    | InvalidIndex      // a sub-task index outside the task's list, refused before any write

  datatype Result<+T> = Ok(value: T) | Err(error: Error)
}
