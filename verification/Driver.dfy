/** The neutral error codes of the driver and results that carry one. */
module Driver {

  datatype Code =
    | CodeUnknown
    | CodeInvalidArgument
    | CodeNotFound
    | CodeAlreadyExists
    | CodeFailedPrecondition
    | CodeOutOfRange
    | CodeResourceExhausted
    | CodeAborted
    | CodeUnimplemented
    | CodeInternal
    | CodeUnavailable

  datatype Result<+T> = Ok(value: T) | Err(code: Code)
}
