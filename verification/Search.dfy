/**
 * `yandex_search` (main.py:27-54): one search request, whose XML reply is decoded into
 * (title, url) pairs, one per `doc` element in document order.
 */
module Search {
  import opened Wrappers
  import Text

  /** A `doc` element: the text of its `url` and `headline` children, when present. */
  datatype Doc = Doc(url: Option<string>, headline: Option<string>)

  /**
   * What the search request gives back: a status and, when the body is well-formed XML,
   * the `doc` elements found anywhere in it; or an exception from the request itself.
   */
  datatype SearchReply =
    | SearchReply(status: nat, docs: Option<seq<Doc>>)
    | SearchRaised

  /** A search hit as `yandex_search` builds it: (title, url). */
  type SearchHit = (string, string)

  /** The three shapes `yandex_search` can return: a list, an error string, or `None`. */
  datatype SearchOutcome =
    | Hits(hits: seq<SearchHit>)
    | ErrorText(text: string)
    | NoValue

  const MissingUrl: string := "Нет ссылки"
  const MissingHeadline: string := "Нет описания"
  const StatusPrefix: string := "Ошибка: "

  /** The pair appended for one `doc`, with the placeholders for absent children. */
  function HitOf(d: Doc): SearchHit
  {
    (if d.headline.Some? then d.headline.value else MissingHeadline,
     if d.url.Some? then d.url.value else MissingUrl)
  }

  /** The list the decoding loop builds: one pair per `doc`, in document order. */
  function DecodeDocs(docs: seq<Doc>): (hits: seq<SearchHit>)
    ensures |hits| == |docs|
    ensures forall i :: 0 <= i < |docs| ==> hits[i] == HitOf(docs[i])
  {
    if docs == [] then [] else DecodeDocs(docs[..|docs| - 1]) + [HitOf(docs[|docs| - 1])]
  }

  /**
   * The value `yandex_search` returns. An exception anywhere in its `try` (the request,
   * or parsing a body that is not XML) is swallowed and the function returns `None`.
   */
  function Outcome(reply: SearchReply): SearchOutcome
  {
    match reply
    case SearchRaised => NoValue
    case SearchReply(status, docs) =>
      if status != 200 then ErrorText(StatusPrefix + Text.Decimal(status))
      else if docs.None? then NoValue
      else Hits(DecodeDocs(docs.value))
  }

  /** The decoding of main.py:41-52, with its appending loop. */
  method YandexSearch(reply: SearchReply) returns (r: SearchOutcome)
    ensures r == Outcome(reply)
  {
    if reply.SearchRaised? {
      return NoValue;
    }
    if reply.status != 200 {
      return ErrorText(StatusPrefix + Text.Decimal(reply.status));
    }
    if reply.docs.None? {
      return NoValue;
    }
    var docs := reply.docs.value;
    var results: seq<SearchHit> := [];
    for i := 0 to |docs|
      invariant results == DecodeDocs(docs[..i])
    {
      var doc := docs[i];
      var url := if doc.url.Some? then doc.url.value else MissingUrl;
      var title := if doc.headline.Some? then doc.headline.value else MissingHeadline;
      assert docs[..i + 1][..i] == docs[..i];
      results := results + [(title, url)];
    }
    assert docs[..|docs|] == docs;
    return Hits(results);
  }

  /**
   * What a caller can read off the outcome: a 200 reply with an XML body gives one hit per
   * `doc` in order, with placeholders for missing children; any other status gives the
   * error text, from which the status can be read back; an exception, from the request or
   * from parsing a 200 body that is not XML, gives `None`.
   */
  lemma OutcomeCases(reply: SearchReply)
    ensures reply.SearchRaised? ==> Outcome(reply) == NoValue
    ensures reply.SearchReply? && reply.status == 200 && reply.docs.None? ==> Outcome(reply) == NoValue
    ensures reply.SearchReply? && reply.status == 200 && reply.docs.Some? ==>
      var ds := reply.docs.value;
      && Outcome(reply).Hits?
      && |Outcome(reply).hits| == |ds|
      && forall i :: 0 <= i < |ds| ==>
           && Outcome(reply).hits[i].1 == (if ds[i].url.Some? then ds[i].url.value else MissingUrl)
           && Outcome(reply).hits[i].0 == (if ds[i].headline.Some? then ds[i].headline.value else MissingHeadline)
    ensures reply.SearchReply? && reply.status != 200 ==>
      Outcome(reply).ErrorText? && Text.ParseCode(StatusPrefix, Outcome(reply).text) == Some(reply.status)
  {
    if reply.SearchReply? && reply.status != 200 {
      Text.CodeRoundTrip(StatusPrefix, reply.status);
    }
  }
}
