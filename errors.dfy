/** The exceptions the core raises, one constructor per kind of failure. */
module Errors {

  datatype Error =
    /** A symbol string that does not split into exactly two parts on '/'. */
    | FormatError(message: string)
    /** A `unit` other than "minute", "hour" or "day". */
    | UnitError(message: string)
    /** A transport-level failure reported by `raise_for_status`. */
    | HttpError(status: int)
    /** A reply whose "Response" field is not "Success". */
    | ApiError(message: string)
    /** A missing JSON key or DataFrame column. */
    | KeyError(key: string)
    /** `symbol[0]` on an empty list of symbols. */
    | IndexError
    /** Calling something that is not callable. */
    | TypeError(message: string)
}
