/** The JSON error responses the routes send. */
module Http {

  /** The request-body fields the validators check. */
  datatype BodyField =
    | NameField | EmailField | PasswordField | JobTitleField
    | SubscriptionTypeField | PaymentIntentIdField

  /** One failed check of a request field: the field and the message of the check. */
  datatype FieldError = FieldError(field: BodyField, msg: string)

  /** An error response: its status code, its `message` and, for a failed
      validation, its `errors` array (empty otherwise). */
  datatype HttpError = HttpError(status: nat, message: string, errors: seq<FieldError>)

  /** An error response without an `errors` array. */
  function Error(status: nat, message: string): HttpError {
    HttpError(status, message, [])
  }
}
