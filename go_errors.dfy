/**
 * Go error values as requests.go builds them.
 *
 * `fmt.Errorf` with the `%w` verb keeps its cause reachable through
 * `errors.Unwrap` (and so through `errors.Is`); with the `%v` verb it only
 * copies the cause's text. The model keeps the two apart because the request
 * builders and `handleRequestError` use `%w` while `handleGetRequest` uses `%v`.
 */
module GoErrors {
  import opened Wrappers

  /** The decoded body of a non-200 server answer. Its fields are declared
      outside the modelled file; `text` is what its `Error` method returns. */
  datatype ResponseError = ResponseError(text: string)

  datatype Error =
    /** An error returned by net/http, io or encoding/json; opaque here. */
    | Foreign(text: string)
    /** `fmt.Errorf(prefix + "%w", inner)`: the cause stays reachable. */
    | Wrapped(prefix: string, inner: Error)
    /** `fmt.Errorf(prefix + "%v", cause)`: only the cause's text is kept. */
    | Formatted(text: string)
    /** A `ResponseError` value returned as the error itself. */
    | Server(response: ResponseError)

  /** The string `err.Error()` returns. */
  function Message(e: Error): string
  {
    match e
    case Foreign(t) => t
    case Wrapped(p, inner) => p + Message(inner)
    case Formatted(t) => t
    case Server(r) => r.text
  }

  /** `errors.Unwrap`: the wrapped cause, if the error has one. */
  function Unwrap(e: Error): Option<Error>
  {
    if e.Wrapped? then Some(e.inner) else None
  }

  /** `errors.Is(e, target)`: `target` is `e` or lies on its unwrap chain. */
  predicate Is(e: Error, target: Error)
  {
    e == target || (e.Wrapped? && Is(e.inner, target))
  }

  /** The end of the unwrap chain: the first error that wraps nothing. */
  function Root(e: Error): Error
  {
    if e.Wrapped? then Root(e.inner) else e
  }

  predicate IsSuffix(s: string, t: string)
  {
    |s| <= |t| && t[|t| - |s|..] == s
  }

  /** `fmt.Errorf(prefix + "%w", cause)`. */
  function WrapError(prefix: string, cause: Error): (e: Error)
    ensures Unwrap(e) == Some(cause)
    ensures Is(e, cause)
    ensures Message(e) == prefix + Message(cause)
  {
    Wrapped(prefix, cause)
  }

  /** `fmt.Errorf(prefix + "%v", cause)`: same text as WrapError, but the
      cause can no longer be reached from the new error. */
  function FormatError(prefix: string, cause: Error): (e: Error)
    ensures Unwrap(e) == None
    ensures Message(e) == prefix + Message(cause)
    ensures Is(e, cause) <==> e == cause
  {
    Formatted(prefix + Message(cause))
  }

  /** Wrapping is transitive: a cause of a cause is a cause. */
  lemma {:induction false} IsTransitive(a: Error, b: Error, c: Error)
    requires Is(a, b) && Is(b, c)
    ensures Is(a, c)
  {
    if a != b {
      IsTransitive(a.inner, b, c);
    }
  }

  /** However many `%w` layers are added, the root cause is still reachable
      with `errors.Is` and its text still ends the message. */
  lemma {:induction false} RootCauseSurvives(e: Error)
    ensures Is(e, Root(e))
    ensures Unwrap(Root(e)) == None
    ensures IsSuffix(Message(Root(e)), Message(e))
  {
    if e.Wrapped? {
      RootCauseSurvives(e.inner);
      var m := Message(e.inner);
      var r := Message(Root(e));
      assert Message(e) == e.prefix + m;
      assert (e.prefix + m)[|e.prefix + m| - |r|..] == m[|m| - |r|..];
    }
  }
}
