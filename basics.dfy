/** Small wrapper types shared by every module of the model. */
module Basics {

  datatype Option<+T> = None | Some(value: T)

  /** The programmer errors the emitter reports by throwing an assertion. */
  datatype Error =
    | UnknownEvent       // `Unknown event ...`
    | DuplicateEvent     // `Event ... exists`
    | MissingEventName   // `Missing event name`
    | InvalidListener    // `Listener must be a function ...`
    | InvalidCount       // `Invalid listener count option ...`
    | InvalidBlock       // `Invalid block option value ...`
    | NullSubscribers    // a TypeError: `filter` called on a `null` subscriber list

  datatype Result<+T> = Ok(value: T) | Err(error: Error)
}
