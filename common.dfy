/** Types shared by the contexts and pages of the client: optional values,
    the signed-in user, the shape of an API answer, toast notices, and the
    JavaScript truthiness rules the handlers branch on. */
module Common {

  datatype Option<T> = None | Some(value: T)

  datatype UserType = Client | Admin

  /** The profile returned by `/users/me` and listed by `/users`. */
  datatype User = User(id: string, name: string, email: string, userType: UserType, phone: string)

  /** A delivery address, as listed by `/addresses`. */
  datatype Address = Address(id: string, street: string, number: string, district: string,
                             city: string, state: string, zipCode: string)

  datatype Category = Category(id: string, description: string)

  /** A catalogue item as the server sends it: the price is decimal text. */
  datatype MenuItem = MenuItem(id: string, description: string, unitPrice: string, categoryId: string)

  /** How a request failed. An HTTP error carries the status and the two
      texts the pages read from its body: `message` and `errors[0].message`
      (each "" when the body lacks it). `NoResponse` is every other failure:
      a network error, or an exception that is not an HTTP error. */
  datatype ApiError =
    | HttpError(status: int, message: string, firstError: string)
    | NoResponse

  /** The settled outcome of one request. */
  datatype Response<T> = Ok(data: T) | Failed(error: ApiError)

  /** The notice a handler pops up, if any. */
  datatype Toast = NoToast | SuccessToast(text: string) | ErrorToast(text: string)

  /** A request a handler sends, by method, path and body. */
  datatype Request<B> =
    | Post(path: string, body: B)
    | Put(path: string, body: B)
    | Patch(path: string, body: B)
    | Delete(path: string)

  /** JavaScript `a || b` on two strings: the empty string is the only falsy one. */
  function Or(a: string, b: string): (r: string)
    ensures r == a || r == b
    ensures r == "" ==> a == "" && b == ""
    ensures a != "" ==> r == a
  {
    if a != "" then a else b
  }

  /** JavaScript `if (id)` on a `string | null`: null and "" are both falsy. */
  predicate Editing(id: Option<string>) {
    id.Some? && id.value != ""
  }

  /** The shared error mapping of the login, register and password pages:
      an HTTP error shows the server's `message`, or `fallback` when there
      is none; any other failure shows `unexpected`. */
  function ServerMessageOr(e: ApiError, fallback: string, unexpected: string): (r: string)
    ensures e.HttpError? && e.message != "" ==> r == e.message
    ensures e.HttpError? && e.message == "" ==> r == fallback
    ensures e.NoResponse? ==> r == unexpected
  {
    match e
    case HttpError(_, message, _) => Or(message, fallback)
    case NoResponse => unexpected
  }

  /** The shared error mapping of the item, category and address forms: an
      HTTP error shows the first validation message of its body, or
      `fallback` when there is none; any other failure shows `unexpected`. */
  function FirstErrorOr(e: ApiError, fallback: string, unexpected: string): (r: string)
    ensures e.HttpError? && e.firstError != "" ==> r == e.firstError
    ensures e.HttpError? && e.firstError == "" ==> r == fallback
    ensures e.NoResponse? ==> r == unexpected
  {
    match e
    case HttpError(_, _, firstError) => Or(firstError, fallback)
    case NoResponse => unexpected
  }

  /** The status of a failure, when it has a response (`err.response?.status`). */
  predicate HasStatus(e: ApiError, status: int) {
    e.HttpError? && e.status == status
  }
}
