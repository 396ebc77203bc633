/** The ways an operation of the location model or of the registry can be refused,
    and the small result types that carry them instead of Java exceptions. */
module Failures {

  /** Failure reasons. The REST layer turns the first three into HTTP statuses;
      the last two are the exceptions thrown by add/remove on a location. */
  datatype Error =
    | NotFound          // no building, or no level in the building, carries the requested id
    | Conflict          // addBuilding: a building with the same id is already registered
    | BadRequest        // addLevel: a level with the same id already exists in the building
    | InvalidChildType  // add/remove on a level or a building given a child of the wrong kind
    | Unsupported       // add/remove on a room, which never has children

  datatype Option<T> = None | Some(value: T)

  /** A value, or the error that replaced it. */
  datatype Result<T> = Ok(value: T) | Err(error: Error)

  /** Success of an operation that returns nothing (Java `void`), or its error. */
  datatype Outcome = Pass | Fail(error: Error)
}
