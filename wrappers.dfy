/** Option and Result, and the failures that abort a pipeline node. */
module Wrappers {

  datatype Option<+T> = None | Some(value: T)

  /** Why a node (or an oracle it calls) raised instead of returning. */
  datatype Failure =
    | ExtractionFailed      // the PDF could not be rasterised, or gave no page
    | ReviewCallFailed      // the review model call raised
    | JokeCallFailed        // the joke model call raised
    | MissingReviewClient   // provider["review"] raised KeyError
    | MissingJokeClient     // provider["joke"] raised KeyError
    | MissingImage          // the "document image is required" assertion failed
    | InvalidPayload        // the PR comment payload did not validate

  datatype Result<+T> = Ok(value: T) | Err(failure: Failure)
}
