/** Values shared by the adapters and the processor record: what a promise
    settles with, what the payment gateway answers, and the error objects the
    code rejects with (the `storj-service-error-types` classes, plain strings,
    plain objects, and the TypeError JavaScript raises on a property read of
    `undefined` or `null`, or a property write to `undefined`). */
module Errors {

  datatype Option<+T> = None | Some(value: T)

  /** An error reported by the Stripe gateway in its callback's `err`. A
      missing `statusCode` behaves like any code other than 404. */
  datatype GatewayError = GatewayError(statusCode: int, message: string)

  /** The answer of one gateway call: `err` null with a payload, or `err` set. */
  datatype Reply<+T> = Ok(payload: T) | Err(error: GatewayError)

  /** What a rejected promise carries, or what a call throws. */
  datatype Failure =
    | BadRequestError(message: string)
    | InternalError(message: string)
      /** `new InternalError(err)` given the whole gateway error object */
    | InternalErrorOf(cause: GatewayError)
      /** the gateway's own error, passed on unchanged */
    | Gateway(cause: GatewayError)
      /** a bare string passed to `reject` */
    | Reason(text: string)
      /** a plain `{status, message}` object passed to `reject` */
    | StatusMessage(status: string, message: string)
      /** `new Error(message)` */
    | PlainError(message: string)
      /** a property read on `undefined` or `null` */
    | TypeError(message: string)
      /** the mongoose enum validator refusing a value */
    | EnumValidationError(path: string, value: string)
      /** the document store refusing a write */
    | StoreError(message: string)

  /** How a promise-returning operation ends.  `Pending` is the case where an
      exception is thrown inside a gateway callback: no handler of the returned
      promise sees it, so the promise never settles. */
  datatype Outcome<+T> =
    | Resolved(value: T)
    | Rejected(reason: Failure)
    | Pending(escaped: Failure)

  /** How a synchronous call ends: with a value, or by throwing. */
  datatype Call<+T> = Returned(value: T) | Threw(error: Failure)

  const CannotReadOfUndefined := "Cannot read properties of undefined"
  const CannotReadOfNull := "Cannot read properties of null"
  const CannotSetOfUndefined := "Cannot set properties of undefined"
}
