/** Option and Result, the two failure-carrying shapes used throughout the model. */
module Wrappers {

  datatype Option<+T> = None | Some(value: T)

  datatype Result<+T, +E> = Ok(value: T) | Err(error: E)
}

/** The exceptions the syncer raises or catches, named after the Python exception each stands for. */
module Errors {

  datatype Error =
    | IntegrityError      // a UNIQUE constraint of the files table rejected the commit
    | IsADirectoryError   // a directory was opened as a file
    | FileExistsError     // mkdir(exist_ok=True) found a regular file in the way
    | TypeError           // an ordering comparison with None
    | AttributeError      // `.tzinfo` read on a missing timestamp
    | HttpError           // a Drive request failed or answered with the wrong shape
}
