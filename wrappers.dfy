/**
 * Option and Result, and the kinds of exception the modelled code can throw.
 * A JavaScript `throw` becomes an `Err`, a normal return an `Ok`.
 */
module Wrappers {

  datatype Option<T> = None | Some(value: T)

  /** The exceptions that the modelled code raises or lets propagate. */
  datatype Failure =
    | AppError(message: string)   // `throw new Error(message)` in the code itself
    | ZodError                    // a zod `parse` that rejected its input
    | SyntaxError                 // `JSON.parse` on text that is not JSON
    | TypeError                   // a property read on null, or `.map` on a non-array
    | NotFound                    // a Firestore `update` of a document that does not exist

  datatype Result<T> = Ok(value: T) | Err(error: Failure)

  /** Like Result, for operations that return nothing (`Promise<void>`). */
  datatype Outcome = Done | Failed(error: Failure)
}
