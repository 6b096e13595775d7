/** The ways a translation can fail, one per Python exception family the
    service lets escape. */
module Errors {

  datatype Error =
    | Upstream      // the completion service raised (network, quota, ...)
    | ParseError    // json.JSONDecodeError after the single repair attempt
    | TypeMismatch  // AttributeError / TypeError from `.get` or iteration on the wrong kind of value
    | Invalid       // pydantic.ValidationError while building a schema object
}
