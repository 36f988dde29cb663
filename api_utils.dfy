/** The helpers every API route shares: the authentication guard, the
    mapping of a thrown value to an error response, and response creation. */
module ApiUtils {
  import opened Wrappers

  /** A value a handler throws: an `Error` instance with its message, or any
      other value. */
  datatype Thrown = ErrorValue(message: string) | NonError

  const NotAuthenticated: string := "User not authenticated"
  const UnexpectedError: string := "An unexpected error occurred."

  /** A JSON response body: a payload, `{ error }` or `{ message }`. */
  datatype Body<+T> = Data(data: T) | ErrorBody(error: string) | MessageBody(message: string)

  /** The `{ id, message }` payload of a handler that stored a document. */
  datatype Created = Created(id: string, message: string)

  /** An HTTP response: a status code and a JSON body. */
  datatype Response<+T> = Response(status: int, body: Body<T>)

  /** The authentication guard. `userId` is what the identity provider
      reports for the request (`None` when nobody is signed in). It succeeds
      with the id when that is present and non-empty, and throws the
      "User not authenticated" error otherwise. */
  function AuthenticateUser(userId: Option<string>): (r: Result<string, Thrown>)
    ensures r.Ok? <==> Truthy(userId)
    ensures r.Ok? ==> r.value == userId.value && r.value != ""
    ensures r.Err? ==> r.error == ErrorValue(NotAuthenticated)
  {
    if Truthy(userId) then Ok(userId.value) else Err(ErrorValue(NotAuthenticated))
  }

  /** The structured error of `handleErrorResponse`. */
  datatype ErrorInfo = ErrorInfo(error: string, status: int)

  /** Maps a thrown value to an error message and a status. The status is
      400 whatever was thrown; the message is the error's own message for an
      `Error`, and a fixed text otherwise. */
  function HandleErrorResponse(e: Thrown): (r: ErrorInfo)
    ensures r.status == 400
    ensures e.ErrorValue? ==> r.error == e.message
    ensures e.NonError? ==> r.error == UnexpectedError
  {
    ErrorInfo(if e.ErrorValue? then e.message else UnexpectedError, 400)
  }

  /** Builds a response: the data and status are passed through unchanged. */
  function CreateResponse<T>(data: Body<T>, status: int): (r: Response<T>)
    ensures r.status == status && r.body == data
  {
    Response(status, data)
  }

  /** The catch-all of every handler: `{ error: message }` with the status of
      `HandleErrorResponse`, which is always 400. */
  function HandleErrorAndRespond<T>(e: Thrown): (r: Response<T>)
    ensures r.status == 400
    ensures r.body.ErrorBody?
    ensures r.body.error == (if e.ErrorValue? then e.message else UnexpectedError)
  {
    var info := HandleErrorResponse(e);
    CreateResponse(ErrorBody(info.error), info.status)
  }

  /** What a handler that begins with the guard answers to a caller who is
      not signed in: a 400 response carrying the guard's message. */
  lemma UnauthenticatedResponse<T>(userId: Option<string>)
    requires !Truthy(userId)
    ensures AuthenticateUser(userId).Err?
    ensures HandleErrorAndRespond<T>(AuthenticateUser(userId).error) ==
            Response(400, ErrorBody(NotAuthenticated))
  {
  }
}
