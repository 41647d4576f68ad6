/** The network boundary of the screens. No request is performed here: every
    handler that issues a request receives, as a parameter, what that request
    settled to, and handles it the way the component's `try`/`catch` does. */
module Http {

  datatype Option<+T> = None | Some(value: T)

  /** A status for which axios resolves its promise (its default `validateStatus`). */
  type SuccessStatus = s: int | 200 <= s <= 299 witness 200

  /** What an axios request settles to. axios resolves with the status and the
      decoded `response.data` for a 2xx status and rejects for every other one.
      A rejection carries `error.response.data.message` when the server answered,
      and nothing when no response arrived at all (network failure, timeout). */
  datatype AxiosResult<+T> =
    | Resolved(status: SuccessStatus, data: T)
    | Rejected(serverMessage: Option<string>)

  /** What `await fetch(...)` followed by `await response.json()` settles to.
      fetch resolves for every status; `response.json()` throws when the body is
      not JSON; fetch itself rejects when no response arrives. */
  datatype FetchResult =
    | Parsed(status: int, message: string)  // the body parsed; `message` is its `message` field
    | UnparsableBody(status: int)
    | NetworkFailure

  /** `response.ok` of the Fetch standard. */
  predicate ResponseOk(status: int) {
    200 <= status <= 299
  }
}

/** Notification and chart shapes shared by several screens. */
module Widgets {

  /** The `{ show, message, type }` popup of the nutrition screens
      (`type` is a reserved word here, so the field is called `kind`). */
  datatype Popup = Popup(show: bool, message: string, kind: string)

  /** What the popup's Close button sets. */
  const ClosedPopup := Popup(false, "", "")

  /** One chart data series, aligned position by position with its labels. */
  datatype Series = Series(labels: seq<string>, values: seq<int>)
}
