/** What the client pages report back to the user and how a call to the server ended. */
module UiFeedback {
  import opened Wrappers

  /** A `toast.success` or `toast.error` notification and its text. */
  datatype Toast = ToastSuccess(message: string) | ToastError(message: string)

  /** How a request sent through the API client ended: success, or a thrown error whose `message` may be empty or missing. */
  datatype ApiResult = ApiOk | ApiFailed(message: Option<string>)
}
