/**
 * How a request ends when it does not produce a response: `handle_request` turns a
 * `KeyError` into HTTP 500 with a fixed detail, and any other exception into HTTP 500
 * whose detail carries the exception's text.
 */
module Errors {

  datatype Failure =
    | ParseFailure              // a `KeyError` while reading a completion out of a reply
    | InternalError(message: string)   // any other exception, with `str(e)`

  const ParseFailureDetail: string := "Error parsing Yandex GPT response"
  const InternalPrefix: string := "Internal server error: "

  /** Python's texts for the exceptions the handler can meet. */
  const IndexOutOfRange: string := "list index out of range"
  const UnpackTooFew: string := "not enough values to unpack (expected 2, got 1)"
  const NotSubscriptable: string := "'NoneType' object is not subscriptable"

  /** The `detail` of the HTTP 500 reply. */
  function Detail(f: Failure): (d: string)
    ensures f.ParseFailure? ==> d == ParseFailureDetail
    ensures f.InternalError? ==> InternalPrefix <= d && d[|InternalPrefix|..] == f.message
  {
    match f
    case ParseFailure => ParseFailureDetail
    case InternalError(m) => InternalPrefix + m
  }

  /** The detail tells every failure apart: the two kinds, and the messages within a kind. */
  lemma DetailInjective(f: Failure, g: Failure)
    requires Detail(f) == Detail(g)
    ensures f == g
  {
    assert InternalPrefix[0] == 'I' && ParseFailureDetail[0] == 'E';
    match f
    case InternalError(m) =>
      if g.InternalError? {
        assert m == Detail(f)[|InternalPrefix|..] == Detail(g)[|InternalPrefix|..] == g.message;
      }
    case ParseFailure =>
  }
}
