/** Responses of the REST endpoints: a status code and what the body carries. */
module Http {

  const OK: nat := 200
  const CREATED: nat := 201
  const NO_CONTENT: nat := 204
  const BAD_REQUEST: nat := 400
  const UNAUTHORIZED: nat := 401
  const FORBIDDEN: nat := 403
  const NOT_FOUND: nat := 404
  const INTERNAL_SERVER_ERROR: nat := 500

  /** A serializer validation error: attached to one input field, or to the
      input as a whole (reported under `non_field_errors`). */
  datatype ValidationError =
    | FieldError(field: string, message: string)
    | NonFieldError(message: string)

  datatype Body<+T> =
    | Empty
    | Detail(message: string)
    | Invalid(errors: seq<ValidationError>)
    | Data(value: T)

  datatype Response<+T> = Response(status: nat, body: Body<T>)
}
