/**
 * `handle_request` (main.py:119-202): split the query, run both searches, select sources,
 * ask for the choice and its explanation, and reply; or fail with HTTP 500.
 *
 * The outside world is given as oracles: `search(query)` is the search request's reply,
 * `fetch(url)` the page request's, and `gpt(call, prompt)` the reply to completion request
 * number `call` (from 0, in the order the handler sends them).
 */
module Handler {
  import opened Wrappers
  import opened Errors
  import Text
  import opened QuestionSplit
  import opened Search
  import opened PageText
  import opened Gpt
  import opened SourceFilter

  /** The JSON body of the 200 reply. */
  datatype Response = Response(id: int, answer: string, reasoning: string, sources: seq<string>)

  /**
   * main.py:176-198, once the sources are selected. `ans` first holds the options block;
   * the choice overwrites it (181), so the explanation prompt carries the chosen numeral.
   */
  function Respond(
    id: int, question: string, options: string, sel: Selection,
    gpt: (nat, Prompt) -> GptReply): Result<Response, Failure>
  {
    match CompletionText(gpt(sel.calls, SelectionPrompt(question, options, sel.mainTexts)))
    case Failure(f) => Failure(f)
    case Success(ans) =>
      match CompletionText(gpt(sel.calls + 1, JustificationPrompt(question, ans, sel.mainTexts)))
      case Failure(f) => Failure(f)
      case Success(reason) => Success(Response(id, ans, reason, sel.sources))
  }

  /** What one request to `/api/request` ends in: a response, or HTTP 500 with a failure. */
  function RequestOutcome(
    id: int, query: string, search: string -> SearchReply,
    fetch: string -> FetchResult, gpt: (nat, Prompt) -> GptReply): Result<Response, Failure>
  {
    match SplitQuestion(query)
    case None => Failure(InternalError(IndexOutOfRange))
    case Some((question, options)) =>
      match SelectSources(question, Outcome(search(query)), Outcome(search(question)), fetch, gpt)
      case Failure(f) => Failure(f)
      case Success(sel) => Respond(id, question, options, sel, gpt)
  }

  /** One round of a pass's loop body for `sourceUrl` (main.py:134-147 and 155-169). */
  method CheckSite(
    question: string, fetch: string -> FetchResult, gpt: (nat, Prompt) -> GptReply,
    st: Selection, sourceUrl: string)
    returns (r: Result<Selection, Failure>)
    ensures r == Judge(question, fetch, gpt, st, sourceUrl)
  {
    var page := fetch(sourceUrl);
    if page.FetchRaised? {
      return Failure(InternalError(page.reason));
    }
    var mainText := MainTextOf(page);
    var answer := CompletionText(gpt(st.calls, RelevancePrompt(question, mainText)));
    if answer.Failure? {
      return Failure(answer.error);
    }
    var next := st.(checkedSites := st.checkedSites + [sourceUrl], calls := st.calls + 1);
    if answer.value == Useful {
      next := next.(sources := st.sources + [sourceUrl], mainTexts := st.mainTexts + [mainText],
                    counter := st.counter + 1);
    }
    return Success(next);
  }

  /**
   * One of the two `for` loops of main.py:131-174 over `hits` (already cut to two), run from
   * the selection `st`. `stopAfter` is the second loop's trailing quota check (173-174).
   */
  method FilterPass(
    question: string, fetch: string -> FetchResult, gpt: (nat, Prompt) -> GptReply,
    st: Selection, hits: seq<SearchHit>, stopAfter: bool)
    returns (r: Result<Selection, Failure>)
    ensures r == Pass(question, fetch, gpt, st, hits)
  {
    var cur := st;
    var i := 0;
    while i < |hits|
      invariant 0 <= i <= |hits|
      invariant Pass(question, fetch, gpt, cur, hits[i..]) == Pass(question, fetch, gpt, st, hits)
    {
      var sourceUrl := hits[i].1;
      if cur.counter == Quota || sourceUrl in cur.checkedSites {
        break;
      }
      var round := CheckSite(question, fetch, gpt, cur, sourceUrl);
      if round.Failure? {
        return Failure(round.error);
      }
      assert hits[i..][1..] == hits[i + 1..];
      cur := round.value;
      i := i + 1;
      if stopAfter && cur.counter == Quota {
        break;
      }
    }
    return Success(cur);
  }

  /** The handler: split, both searches, both filter passes, choice and explanation. */
  method HandleRequest(
    id: int, query: string, search: string -> SearchReply,
    fetch: string -> FetchResult, gpt: (nat, Prompt) -> GptReply)
    returns (r: Result<Response, Failure>)
    ensures r == RequestOutcome(id, query, search, fetch, gpt)
  {
    var split := SplitQuestion(query);
    if split.None? {
      return Failure(InternalError(IndexOutOfRange));
    }
    var question, options := split.value.0, split.value.1;

    var res1 := YandexSearch(search(query));
    var res2 := YandexSearch(search(question));
    ghost var selected := SelectSources(question, res1, res2, fetch, gpt);
    assert RequestOutcome(id, query, search, fetch, gpt)
           == if selected.Failure? then Failure(selected.error)
              else Respond(id, question, options, selected.value, gpt);

    if !res1.Hits? {
      return Failure(InternalError(NotIterable(res1)));
    }
    var first := FilterPass(question, fetch, gpt, Start, Text.Take(res1.hits, PerPass), false);
    if first.Failure? {
      return Failure(first.error);
    }
    if !res2.Hits? {
      return Failure(InternalError(NotIterable(res2)));
    }
    var second := FilterPass(question, fetch, gpt, first.value, Text.Take(res2.hits, PerPass), true);
    if second.Failure? {
      return Failure(second.error);
    }
    var sel := second.value;
    assert selected == Success(sel);
    r := Answer(id, question, options, sel, gpt);
  }

  /** The choice, its explanation and the reply (main.py:176-198), once sources are selected. */
  method Answer(id: int, question: string, options: string, sel: Selection, gpt: (nat, Prompt) -> GptReply)
    returns (r: Result<Response, Failure>)
    ensures r == Respond(id, question, options, sel, gpt)
  {
    var ans := options;
    var chosen := CompletionText(gpt(sel.calls, SelectionPrompt(question, ans, sel.mainTexts)));
    if chosen.Failure? {
      return Failure(chosen.error);
    }
    ans := chosen.value;
    var reason := CompletionText(gpt(sel.calls + 1, JustificationPrompt(question, ans, sel.mainTexts)));
    if reason.Failure? {
      return Failure(reason.error);
    }
    return Success(Response(id, ans, reason.value, sel.sources));
  }

  // ---------------------------------------------------------------------------------
  // What a request ends in

  /**
   * A 200 reply echoes the request's id; its sources are at most three distinct URLs,
   * taken in order from the URLs that were judged, which are a prefix of the first two hits
   * of the search for the whole query followed by a prefix of the first two hits of the
   * search for the question; a judged URL is a source exactly when its relevance request
   * answered "Да, полезна". The answer is the reply to the selection request and the
   * reasoning the reply to the explanation request, whose prompt carries that answer.
   */
  lemma ResponseFacts(
    id: int, query: string, search: string -> SearchReply,
    fetch: string -> FetchResult, gpt: (nat, Prompt) -> GptReply)
    requires RequestOutcome(id, query, search, fetch, gpt).Success?
    ensures SplitQuestion(query).Some?
    ensures var question, options := SplitQuestion(query).value.0, SplitQuestion(query).value.1;
      var res1, res2 := Outcome(search(query)), Outcome(search(question));
      && res1.Hits? && res2.Hits?
      && SelectSources(question, res1, res2, fetch, gpt).Success?
      && var sel := SelectSources(question, res1, res2, fetch, gpt).value;
         var resp := RequestOutcome(id, query, search, fetch, gpt).value;
         && resp.id == id
         && resp.sources == sel.sources
         && |resp.sources| <= Quota && Distinct(resp.sources)
         && IsSubsequence(resp.sources, sel.checkedSites)
         && (exists k1, k2 ::
               && 0 <= k1 <= |Text.Take(res1.hits, PerPass)| && 0 <= k2 <= |Text.Take(res2.hits, PerPass)|
               && sel.checkedSites == Urls(Text.Take(res1.hits, PerPass))[..k1] + Urls(Text.Take(res2.hits, PerPass))[..k2])
         && (forall c :: 0 <= c < |sel.checkedSites| ==>
               (Verdict(question, fetch, gpt, sel.checkedSites[c], c) == Success(Useful)
                <==> sel.checkedSites[c] in resp.sources))
         && sel.calls == |sel.checkedSites| <= 2 * PerPass
         && CompletionText(gpt(sel.calls, SelectionPrompt(question, options, sel.mainTexts)))
            == Success(resp.answer)
         && CompletionText(gpt(sel.calls + 1, JustificationPrompt(question, resp.answer, sel.mainTexts)))
            == Success(resp.reasoning)
  {
    var question, options := SplitQuestion(query).value.0, SplitQuestion(query).value.1;
    var res1, res2 := Outcome(search(query)), Outcome(search(question));
    var selected := SelectSources(question, res1, res2, fetch, gpt);
    assert selected.Success?;
    SelectSourcesFacts(question, res1, res2, fetch, gpt);
    ConsistentMeaning(question, fetch, gpt, selected.value);
  }

  /**
   * A query in which the pattern of main.py:127 finds no match makes the handler index an
   * empty list: HTTP 500 with "Internal server error: list index out of range".
   */
  lemma NoMatchIsInternalError(
    id: int, query: string, search: string -> SearchReply,
    fetch: string -> FetchResult, gpt: (nat, Prompt) -> GptReply)
    requires forall p, e, q :: !IsMatch(query, p, e, q)
    ensures RequestOutcome(id, query, search, fetch, gpt) == Failure(InternalError(IndexOutOfRange))
    ensures Detail(RequestOutcome(id, query, search, fetch, gpt).error) == InternalPrefix + IndexOutOfRange
  {
    SplitQuestionIsFirstMatch(query);
  }

  /** The sample request at main.py:209 ends in HTTP 500. */
  lemma SampleRequestIsInternalError(
    id: int, search: string -> SearchReply,
    fetch: string -> FetchResult, gpt: (nat, Prompt) -> GptReply)
    ensures RequestOutcome(id, "Привет! Как тебя зовут?", search, fetch, gpt)
            == Failure(InternalError(IndexOutOfRange))
  {
    var query := "Привет! Как тебя зовут?";
    assert forall m :: 0 <= m < |query| ==> query[m] != '\n';
    OneLineNoMatch(query);
  }

  /**
   * A search that fails ends the request with HTTP 500 once the pass over its results
   * begins: a raised request, or a 200 body that is not XML, leaves `None`, which cannot
   * be sliced; a non-200 status
   * leaves the string "Ошибка: <status>", whose one-character pieces cannot be unpacked.
   * The second search only matters when the first pass succeeded.
   */
  lemma FailedSearchIsInternalError(
    id: int, query: string, search: string -> SearchReply,
    fetch: string -> FetchResult, gpt: (nat, Prompt) -> GptReply)
    requires SplitQuestion(query).Some?
    ensures var r := RequestOutcome(id, query, search, fetch, gpt);
      && (Outcome(search(query)).NoValue? ==> r == Failure(InternalError(NotSubscriptable)))
      && (search(query).SearchReply? && search(query).status != 200 ==>
            r == Failure(InternalError(UnpackTooFew)))
    ensures var question := SplitQuestion(query).value.0;
      var r := RequestOutcome(id, query, search, fetch, gpt);
      var res1 := Outcome(search(query));
      res1.Hits? && Pass(question, fetch, gpt, Start, Text.Take(res1.hits, PerPass)).Success? ==>
        && (Outcome(search(question)).NoValue? ==> r == Failure(InternalError(NotSubscriptable)))
        && (search(question).SearchReply? && search(question).status != 200 ==>
              r == Failure(InternalError(UnpackTooFew)))
  {
  }

  /**
   * A relevance check that fails at a hit the first pass reaches ends the request with
   * that failure. The pass reaches hit `k` when it judged each of the hits before it and
   * then neither the quota nor a repeated URL stops it (main.py:131-140).
   */
  lemma FailedRelevanceInFirstPass(
    id: int, query: string, search: string -> SearchReply,
    fetch: string -> FetchResult, gpt: (nat, Prompt) -> GptReply, k: nat)
    requires SplitQuestion(query).Some? && Outcome(search(query)).Hits?
    requires var question := SplitQuestion(query).value.0;
      var hits := Text.Take(Outcome(search(query)).hits, PerPass);
      && k < |hits|
      && Pass(question, fetch, gpt, Start, hits[..k]).Success?
      && var mid := Pass(question, fetch, gpt, Start, hits[..k]).value;
         && |mid.checkedSites| == k && mid.counter != Quota && hits[k].1 !in mid.checkedSites
         && Verdict(question, fetch, gpt, hits[k].1, mid.calls).Failure?
    ensures var question := SplitQuestion(query).value.0;
      var hits := Text.Take(Outcome(search(query)).hits, PerPass);
      var mid := Pass(question, fetch, gpt, Start, hits[..k]).value;
      RequestOutcome(id, query, search, fetch, gpt)
      == Failure(Verdict(question, fetch, gpt, hits[k].1, mid.calls).error)
  {
    var question := SplitQuestion(query).value.0;
    var res1 := Outcome(search(query));
    var hits := Text.Take(res1.hits, PerPass);
    var mid := Pass(question, fetch, gpt, Start, hits[..k]).value;
    var f := Verdict(question, fetch, gpt, hits[k].1, mid.calls).error;
    PassAfterPrefix(question, fetch, gpt, Start, hits, k);
    assert hits[k..][0] == hits[k];
    FailedVerdictFailsPass(question, fetch, gpt, mid, hits[k..]);
    assert SelectSources(question, res1, Outcome(search(question)), fetch, gpt) == Failure(f);
  }

  /** The same for a hit the second pass reaches, after a first pass that succeeded (152-161). */
  lemma FailedRelevanceInSecondPass(
    id: int, query: string, search: string -> SearchReply,
    fetch: string -> FetchResult, gpt: (nat, Prompt) -> GptReply, k: nat)
    requires SplitQuestion(query).Some? && Outcome(search(query)).Hits?
    requires var question := SplitQuestion(query).value.0;
      Pass(question, fetch, gpt, Start, Text.Take(Outcome(search(query)).hits, PerPass)).Success?
    requires Outcome(search(SplitQuestion(query).value.0)).Hits?
    requires var question := SplitQuestion(query).value.0;
      var afterFirst := Pass(question, fetch, gpt, Start, Text.Take(Outcome(search(query)).hits, PerPass)).value;
      var hits := Text.Take(Outcome(search(question)).hits, PerPass);
      && k < |hits|
      && Pass(question, fetch, gpt, afterFirst, hits[..k]).Success?
      && var mid := Pass(question, fetch, gpt, afterFirst, hits[..k]).value;
         && |mid.checkedSites| == |afterFirst.checkedSites| + k
         && mid.counter != Quota && hits[k].1 !in mid.checkedSites
         && Verdict(question, fetch, gpt, hits[k].1, mid.calls).Failure?
    ensures var question := SplitQuestion(query).value.0;
      var afterFirst := Pass(question, fetch, gpt, Start, Text.Take(Outcome(search(query)).hits, PerPass)).value;
      var hits := Text.Take(Outcome(search(question)).hits, PerPass);
      var mid := Pass(question, fetch, gpt, afterFirst, hits[..k]).value;
      RequestOutcome(id, query, search, fetch, gpt)
      == Failure(Verdict(question, fetch, gpt, hits[k].1, mid.calls).error)
  {
    var question := SplitQuestion(query).value.0;
    var res1, res2 := Outcome(search(query)), Outcome(search(question));
    var afterFirst := Pass(question, fetch, gpt, Start, Text.Take(res1.hits, PerPass)).value;
    var hits := Text.Take(res2.hits, PerPass);
    var mid := Pass(question, fetch, gpt, afterFirst, hits[..k]).value;
    var f := Verdict(question, fetch, gpt, hits[k].1, mid.calls).error;
    PassAfterPrefix(question, fetch, gpt, afterFirst, hits, k);
    assert hits[k..][0] == hits[k];
    FailedVerdictFailsPass(question, fetch, gpt, mid, hits[k..]);
    assert SelectSources(question, res1, res2, fetch, gpt) == Failure(f);
  }

  /**
   * A relevance reply without `result` (a status other than 200 becomes `{"error": ...}`)
   * ends the request with HTTP 500 "Error parsing Yandex GPT response". Here for the first
   * hit of the first search; `FailedRelevanceInFirstPass`, `FailedRelevanceInSecondPass`
   * and `VerdictCases` give it for every hit a pass reaches.
   */
  lemma NonOkRelevanceIsParseFailure(
    id: int, query: string, search: string -> SearchReply,
    fetch: string -> FetchResult, gpt: (nat, Prompt) -> GptReply)
    requires SplitQuestion(query).Some?
    requires Outcome(search(query)).Hits? && Outcome(search(query)).hits != []
    requires fetch(Outcome(search(query)).hits[0].1).Fetched?
    requires var page := fetch(Outcome(search(query)).hits[0].1);
      var reply := gpt(0, RelevancePrompt(SplitQuestion(query).value.0, MainTextOf(page)));
      reply.GptReply? && (reply.status != 200 || reply.body.MissingKey?)
    ensures RequestOutcome(id, query, search, fetch, gpt) == Failure(ParseFailure)
  {
    var question := SplitQuestion(query).value.0;
    var hits := Text.Take(Outcome(search(query)).hits, PerPass);
    assert hits[0] == Outcome(search(query)).hits[0];
    assert hits[..0] == [];
    VerdictCases(question, fetch, gpt, hits[0].1, 0);
    FailedRelevanceInFirstPass(id, query, search, fetch, gpt, 0);
  }

  /** Once the sources are selected, the request ends as the two answer requests make it. */
  lemma RequestAfterSelection(
    id: int, query: string, search: string -> SearchReply,
    fetch: string -> FetchResult, gpt: (nat, Prompt) -> GptReply)
    requires SplitQuestion(query).Some?
    requires var question := SplitQuestion(query).value.0;
      SelectSources(question, Outcome(search(query)), Outcome(search(question)), fetch, gpt).Success?
    ensures var question, options := SplitQuestion(query).value.0, SplitQuestion(query).value.1;
      var sel := SelectSources(question, Outcome(search(query)), Outcome(search(question)), fetch, gpt).value;
      RequestOutcome(id, query, search, fetch, gpt) == Respond(id, question, options, sel, gpt)
  {
  }

  /**
   * Once the sources are selected, a failing selection request, or a failing explanation
   * request after a successful selection, ends the request with its failure (main.py:181,
   * 189); `Gpt.CompletionText` says which failure each reply gives.
   */
  lemma FailedAnswerEndsRequest(
    id: int, query: string, search: string -> SearchReply,
    fetch: string -> FetchResult, gpt: (nat, Prompt) -> GptReply)
    requires SplitQuestion(query).Some?
    requires var question := SplitQuestion(query).value.0;
      SelectSources(question, Outcome(search(query)), Outcome(search(question)), fetch, gpt).Success?
    ensures var question, options := SplitQuestion(query).value.0, SplitQuestion(query).value.1;
      var sel := SelectSources(question, Outcome(search(query)), Outcome(search(question)), fetch, gpt).value;
      var chosen := CompletionText(gpt(sel.calls, SelectionPrompt(question, options, sel.mainTexts)));
      chosen.Failure? ==> RequestOutcome(id, query, search, fetch, gpt) == Failure(chosen.error)
    ensures var question, options := SplitQuestion(query).value.0, SplitQuestion(query).value.1;
      var sel := SelectSources(question, Outcome(search(query)), Outcome(search(question)), fetch, gpt).value;
      var chosen := CompletionText(gpt(sel.calls, SelectionPrompt(question, options, sel.mainTexts)));
      var reason := CompletionText(gpt(sel.calls + 1,
                      JustificationPrompt(question, if chosen.Success? then chosen.value else "", sel.mainTexts)));
      chosen.Success? && reason.Failure? ==>
        RequestOutcome(id, query, search, fetch, gpt) == Failure(reason.error)
  {
    RequestAfterSelection(id, query, search, fetch, gpt);
  }

  /**
   * In particular a reply without `result` to either request ends the request with HTTP 500
   * "Error parsing Yandex GPT response".
   */
  lemma NonOkAnswerIsParseFailure(
    id: int, query: string, search: string -> SearchReply,
    fetch: string -> FetchResult, gpt: (nat, Prompt) -> GptReply)
    requires SplitQuestion(query).Some?
    requires var question := SplitQuestion(query).value.0;
      SelectSources(question, Outcome(search(query)), Outcome(search(question)), fetch, gpt).Success?
    ensures var question, options := SplitQuestion(query).value.0, SplitQuestion(query).value.1;
      var sel := SelectSources(question, Outcome(search(query)), Outcome(search(question)), fetch, gpt).value;
      var reply := gpt(sel.calls, SelectionPrompt(question, options, sel.mainTexts));
      reply.GptReply? && (reply.status != 200 || reply.body.MissingKey?) ==>
        RequestOutcome(id, query, search, fetch, gpt) == Failure(ParseFailure)
    ensures var question, options := SplitQuestion(query).value.0, SplitQuestion(query).value.1;
      var sel := SelectSources(question, Outcome(search(query)), Outcome(search(question)), fetch, gpt).value;
      var chosen := CompletionText(gpt(sel.calls, SelectionPrompt(question, options, sel.mainTexts)));
      var reply := gpt(sel.calls + 1, JustificationPrompt(question, if chosen.Success? then chosen.value else "", sel.mainTexts));
      chosen.Success? && reply.GptReply? && (reply.status != 200 || reply.body.MissingKey?) ==>
        RequestOutcome(id, query, search, fetch, gpt) == Failure(ParseFailure)
  {
    FailedAnswerEndsRequest(id, query, search, fetch, gpt);
  }
}
