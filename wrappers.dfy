/** Optional values, results, and the exceptions the services raise. */
module Wrappers {

  datatype Option<+T> = None | Some(value: T)

  datatype Result<+T, +E> = Ok(value: T) | Err(error: E)

  /** An exception as it leaves a service: FastAPI's HTTPException, or any
      other Python exception, identified by its class name and message. */
  datatype Raised =
    | HttpException(status: nat, detail: string)
    | PyException(kind: string, message: string)
}
