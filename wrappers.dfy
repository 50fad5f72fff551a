/** Values shared by every slice: optional values, thunk results, and the
    shape of a failed network call as the store code sees it. */
module Wrappers {

  datatype Option<+T> = None | Some(value: T) {
    function GetOr(default: T): T {
      match this
      case Some(v) => v
      case None => default
    }
  }

  /** JavaScript truthiness of an optional string: `null`, `undefined` and
      the empty string are falsy. */
  predicate Truthy(s: Option<string>) {
    s.Some? && s.value != ""
  }

  /** `a || b` on strings: the first operand unless it is empty. */
  function OrElse(a: string, b: string): (r: string)
    ensures a != "" ==> r == a
    ensures a == "" ==> r == b
    ensures r != "" <== b != ""
  {
    if a != "" then a else b
  }

  /** The settled outcome of an async thunk: its `fulfilled` payload, or the
      value it passed to `rejectWithValue` (always a message here). */
  datatype Result<+T> = Ok(value: T) | Err(message: string)

  /** What a thrown error exposes to the catch blocks: Apollo's
      `graphQLErrors` messages, whether it carries a `networkError`, and its
      `message` ("" when absent). A plain `new Error(m)` has no GraphQL
      errors and no network error. */
  datatype Fault = Fault(graphQLErrors: seq<string>, networkError: bool, message: string)

  function PlainError(message: string): Fault {
    Fault([], false, message)
  }

  /** The outcome of one request to the GraphQL backend: it threw, or it
      produced the field the code reads from `result.data`. */
  datatype Reply<+T> = Failed(fault: Fault) | Replied(value: T)

  /** A thunk's settled result together with the requests it sent, in order. */
  datatype Run<+T, +Q> = Run(result: Result<T>, sent: seq<Q>)

  /** The message every token-guarded thunk rejects with when `auth.token`
      is falsy (cartSlice.js `getCartClientOrThrow`, dataSlice.js
      `getDataClientOrThrow`). */
  const NoTokenMessage: string := "No authentication token available"

  /** The body shared by every single-request thunk: guard on the token,
      send one request, and reject a thrown error with its message, or with
      the fallback when that message is empty. */
  function GuardedRequest<T, Q>(token: Option<string>, request: Q, reply: Reply<T>, fallback: string): (run: Run<T, Q>)
    requires fallback != ""
    ensures !Truthy(token) <==> run.sent == []
    ensures !Truthy(token) ==> run.result == Err(NoTokenMessage)
    ensures Truthy(token) ==> run.sent == [request]
    ensures Truthy(token) && reply.Replied? ==> run.result == Ok(reply.value)
    ensures Truthy(token) && reply.Failed? ==>
              run.result == Err(OrElse(reply.fault.message, fallback)) && run.result.message != ""
  {
    if !Truthy(token) then Run(Err(NoTokenMessage), [])
    else match reply
      case Failed(f) => Run(Err(OrElse(f.message, fallback)), [request])
      case Replied(v) => Run(Ok(v), [request])
  }
}
