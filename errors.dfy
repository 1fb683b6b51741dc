/**
 * Go error values as the core uses them: an error is either nil (None) or a
 * chain of context messages around one innermost value, as built by
 * github.com/pkg/errors. `errors.Cause` returns the innermost value; its kind
 * is what the page loop matches on (a ChangedURLError or anything else).
 */
module Errors {

  datatype Option<T> = None | Some(value: T)

  /** A Go `(value, err)` pair where the value is meaningless once err is set. */
  datatype Result<T> = Ok(value: T) | Err(error: Error)

  /** The innermost error value, the one `errors.Cause` returns. */
  datatype Kind =
    | ChangedURL(text: string)   // webdriver.go's ChangedURLError, a string type
    | Driver(text: string)       // an error returned by the browser driver
    | Plain(text: string)        // fmt.Errorf / errors.New

  /** An error value: the innermost cause and the context messages wrapped around it, outermost first. */
  datatype Error = Error(cause: Kind, context: seq<string>)

  /** `err.Error()` of the innermost value; for ChangedURLError it is the underlying string. */
  function KindText(k: Kind): (r: string)
    ensures k.ChangedURL? ==> r == k.text
  {
    match k
    case ChangedURL(t) => t
    case Driver(t) => t
    case Plain(t) => t
  }

  /**
   * `err.Error()` of a wrapped error: pkg/errors prints each context message
   * followed by ": " and then the message of what it wraps.
   */
  function Message(e: Error): (r: string)
    ensures |KindText(e.cause)| <= |r|
    ensures r[|r| - |KindText(e.cause)|..] == KindText(e.cause)
    ensures e.context == [] ==> r == KindText(e.cause)
    decreases |e.context|
  {
    if e.context == [] then KindText(e.cause)
    else
      var inner := Message(Error(e.cause, e.context[1..]));
      e.context[0] + ": " + inner
  }

  /** A fresh error from fmt.Errorf, with no context. */
  function Errorf(text: string): (e: Error)
    ensures Cause(e) == Plain(text)
  {
    Error(Plain(text), [])
  }

  /** `errors.Cause(err)` for a non-nil err. */
  function Cause(e: Error): Kind
  {
    e.cause
  }

  /** Adds one context message to a non-nil error. */
  function WrapError(e: Error, message: string): (r: Error)
    ensures Cause(r) == Cause(e)
  {
    Error(e.cause, [message] + e.context)
  }

  /** `errors.Wrap(err, message)` and `errors.Wrapf`: nil stays nil, anything else keeps its cause. */
  function Wrap(err: Option<Error>, message: string): (r: Option<Error>)
    ensures r.None? <==> err.None?
    ensures r.Some? ==> Cause(r.value) == Cause(err.value) && r.value.context == [message] + err.value.context
  {
    match err
    case None => None
    case Some(e) => Some(WrapError(e, message))
  }
}
