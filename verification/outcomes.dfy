/** Values shared by every component: an optional value, and the outcome of one
    backend request as the component's handler sees it once the request settles. */
module Outcomes {

  datatype Option<+T> = None | Some(value: T)

  /** The settled outcome of one request.
      - `Ok(payload)`: a 2xx reply whose body was read as `payload`;
      - `HttpError(status, statusText, body)`: a non-2xx reply; `body` is what the
        handler reads from it, `()` when it reads nothing;
      - `Thrown(message)`: the request, or reading its body, raised an error. */
  datatype Reply<+P, +E> =
    | Ok(payload: P)
    | HttpError(status: int, statusText: string, body: E)
    | Thrown(message: string)
}
