/** Value wrappers shared by the model: optional values, results of calls that
    may fail, and the three-way "absent / null / present" state of an optional
    JSON field. */
module Wrappers {

  datatype Option<+T> = None | Some(value: T)

  /** Outcome of an awaited call: the resolved value or the rejection's message. */
  datatype Result<+R> = Success(value: R) | Failure(message: string)

  /** An optional field of a record that came from JSON: the key may be missing
      (`undefined`), present with `null`, or present with a value. */
  datatype Nullable<+T> = Undefined | Null | Defined(value: T)
  {
    /** `x ?? fallback` */
    function OrDefault(fallback: T): T
    {
      if Defined? then value else fallback
    }
  }
}
