/**
 * Handler results as (status, body) pairs, with the defaults of
 * `jsonResponse` (200) and `errorResponse` (400).
 */
module Http {

  /** The JSON bodies the handlers send back. */
  datatype Body<T> =
    | Data(data: T)                // { data }
    | Page(data: T, total: nat)    // { data, total }
    | Done                         // { success: true }
    | Error(error: string)         // { error }
    | Crash(message: string)       // an exception the handler does not catch

  datatype Response<T> = Response(status: nat, body: Body<T>)

  function JsonResponse<T>(body: Body<T>, status: nat := 200): Response<T> {
    Response(status, body)
  }

  function ErrorResponse<T>(error: string, status: nat := 400): Response<T> {
    Response(status, Error(error))
  }

  /** What every session-authenticated handler answers when there is no session. */
  function Unauthorized<T>(): Response<T> {
    ErrorResponse("Unauthorized", 401)
  }

  /** An uncaught exception: the server answers 500. */
  function Uncaught<T>(message: string): Response<T> {
    Response(500, Crash(message))
  }
}
