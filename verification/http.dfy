/** Vocabulary shared by every request handler: request-body fields with their
    JavaScript truthiness, the status codes the handlers answer with, and the
    abstract outcomes of the document store. */
module Http {

  const OK: nat := 200
  const CREATED: nat := 201
  const BAD_REQUEST: nat := 400
  const SERVER_ERROR: nat := 500

  datatype Option<+T> = None | Some(value: T)

  /** A field of a JSON request body: absent, or present with a value. */
  datatype Field<+T> = Missing | Present(value: T)

  /** `!text` in the handlers: an absent field or the empty string. */
  predicate FalsyText(f: Field<string>) {
    f.Missing? || f.value == ""
  }

  /** `!value` in the handlers, for a numeric field: absent, or zero. */
  predicate FalsyNumber(f: Field<int>) {
    f.Missing? || f.value == 0
  }

  /** How a failure is classified; every error body is `{ error: string }`,
      whose wording is not modelled. */
  datatype ErrorKind = ValidationError | StorageError | GatewayError

  /** What a handler sends back: a status with a JSON body, or an error. */
  datatype Reply<+T> = Success(status: nat, body: T) | Failure(status: nat, error: ErrorKind)

  /** A handler's reply together with the collection it leaves behind. */
  datatype Handled<+T, +S> = Handled(reply: Reply<T>, store: S)

  /** Outcome of a `find()` on the document store. */
  datatype ReadOutcome = ReadOk | ReadFail

  /** Outcome of a `save()` on the document store. */
  datatype SaveOutcome = SaveOk | SaveFail
}
