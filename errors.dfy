/** The causes of the exceptions the pipeline raises. Every stage wraps the cause
    in the project exception; the model keeps the cause and, at the orchestrator,
    the stage it came from. */
module Errors {

  datatype Cause =
    | FileNotFound(path: string)          // opening a local path that holds no file
    | UnreadableFile(path: string)        // the file holds content of another format
    | KeyError(keys: seq<string>)         // column labels that the frame does not have
    | TypeError(subject: string)          // an operation the value does not support
    | IndexError                          // taking the last column of zero-width rows
    | ShapeMismatch                       // joining feature rows and labels of different counts
    | ValidationFailed(message: string)   // transformation invoked after a failed validation
    | NoBestModel                         // the best score is below the expected accuracy
    | MalformedDriftReport                // the drift report lacks the dataset-drift entry
    | NoSuchBucket(bucket: string)        // the object store has no bucket of that name
    | NotASingleObject(prefix: string)    // a listing where one object was expected
    | UnpicklingError(key: string)        // the stored object is not a pickle
    | AttributeError                      // `predict` on an object that is not a model
    | IngestionFailed                     // the abstract ingestion stage failed
}
