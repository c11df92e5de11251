/**
 * The source selection of `handle_request` (main.py:122-174): two passes, over the first
 * two hits of each search, that fetch each URL, cut its text to 500 characters, ask the
 * model whether it is useful, and keep it when the answer is exactly "Да, полезна".
 * A pass ends at the third kept source, and ends (it does not skip) at a URL already checked.
 *
 * The model's replies are an oracle `gpt(call, prompt)`: the reply to the completion
 * request numbered `call` (from 0, in the order the handler sends them) with that prompt.
 * Page requests are an oracle `fetch(url)`.
 */
module SourceFilter {
  import opened Wrappers
  import opened Errors
  import Text
  import opened Search
  import opened PageText
  import opened Gpt

  const Quota: nat := 3
  const PerPass: nat := 2
  const Useful: string := "Да, полезна"

  /** The handler's accumulators, and the number of completion requests sent so far. */
  datatype Selection = Selection(
    sources: seq<string>,
    mainTexts: seq<string>,
    checkedSites: seq<string>,
    counter: nat,
    calls: nat)

  const Start: Selection := Selection([], [], [], 0, 0)

  /** The URLs of `hits`, in order. */
  function Urls(hits: seq<SearchHit>): (urls: seq<string>)
    ensures |urls| == |hits| && forall i :: 0 <= i < |hits| ==> urls[i] == hits[i].1
  {
    if hits == [] then [] else [hits[0].1] + Urls(hits[1..])
  }

  /** `extract_main_text(url)[:500]` for a page request that answered. */
  function MainTextOf(fetched: FetchResult): string
    requires fetched.Fetched?
  {
    Excerpt(fetched.status, fetched.page)
  }

  /** The model's answer about `url`, asked as completion request number `call`. */
  function Verdict(
    question: string, fetch: string -> FetchResult, gpt: (nat, Prompt) -> GptReply,
    url: string, call: nat): Result<string, Failure>
  {
    match fetch(url)
    case FetchRaised(reason) => Failure(InternalError(reason))
    case Fetched(_, _) => CompletionText(gpt(call, RelevancePrompt(question, MainTextOf(fetch(url)))))
  }

  /** One round of a pass's loop body for `url` (main.py:134-147 and 155-169). */
  function Judge(
    question: string, fetch: string -> FetchResult, gpt: (nat, Prompt) -> GptReply,
    st: Selection, url: string): Result<Selection, Failure>
  {
    match Verdict(question, fetch, gpt, url, st.calls)
    case Failure(f) => Failure(f)
    case Success(answer) =>
      var checked := st.checkedSites + [url];
      if answer == Useful then
        Success(Selection(st.sources + [url], st.mainTexts + [MainTextOf(fetch(url))],
                          checked, st.counter + 1, st.calls + 1))
      else
        Success(st.(checkedSites := checked, calls := st.calls + 1))
  }

  /** One pass over `hits`, from the state `st`: what the `for` loop leaves behind. */
  function Pass(
    question: string, fetch: string -> FetchResult, gpt: (nat, Prompt) -> GptReply,
    st: Selection, hits: seq<SearchHit>): Result<Selection, Failure>
    decreases |hits|
  {
    if hits == [] || st.counter == Quota || hits[0].1 in st.checkedSites then Success(st)
    else match Judge(question, fetch, gpt, st, hits[0].1)
      case Failure(f) => Failure(f)
      case Success(next) => Pass(question, fetch, gpt, next, hits[1..])
  }

  /**
   * Python's message when a pass iterates over what `yandex_search` returned and that is
   * not a list: the slice of the error string yields a 1-character string that cannot be
   * unpacked into two names, and `None` cannot be sliced.
   */
  function NotIterable(res: SearchOutcome): string
    requires !res.Hits?
  {
    if res.ErrorText? then UnpackTooFew else NotSubscriptable
  }

  /** Both passes: the first over `res1[:2]`, the second over `res2[:2]`. */
  function SelectSources(
    question: string, res1: SearchOutcome, res2: SearchOutcome,
    fetch: string -> FetchResult, gpt: (nat, Prompt) -> GptReply): Result<Selection, Failure>
  {
    if !res1.Hits? then Failure(InternalError(NotIterable(res1)))
    else match Pass(question, fetch, gpt, Start, Text.Take(res1.hits, PerPass))
      case Failure(f) => Failure(f)
      case Success(afterFirst) =>
        if !res2.Hits? then Failure(InternalError(NotIterable(res2)))
        else Pass(question, fetch, gpt, afterFirst, Text.Take(res2.hits, PerPass))
  }

  // ---------------------------------------------------------------------------------
  // What the accumulators mean

  ghost predicate Distinct(s: seq<string>)
  {
    forall i, j :: 0 <= i < j < |s| ==> s[i] != s[j]
  }

  /** `a` is `b` with some elements left out, in the same order. */
  ghost predicate IsSubsequence(a: seq<string>, b: seq<string>)
    decreases |b|
  {
    || a == []
    || (b != [] && (|| IsSubsequence(a, b[..|b| - 1])
                    || (a[|a| - 1] == b[|b| - 1] && IsSubsequence(a[..|a| - 1], b[..|b| - 1]))))
  }

  /** The URLs of `checked` that `accepts` keeps, given each URL and its position. */
  ghost function AcceptedOf(accepts: (string, nat) -> bool, checked: seq<string>): seq<string>
  {
    if checked == [] then []
    else
      var n := |checked| - 1;
      AcceptedOf(accepts, checked[..n]) + (if accepts(checked[n], n) then [checked[n]] else [])
  }

  /**
   * Whether the URL checked at position `c` is kept: the URL at position `c` among the
   * checked ones was judged by completion request number `c`, and kept when the answer
   * is exactly `Useful`.
   */
  ghost function JudgedUseful(
    question: string, fetch: string -> FetchResult, gpt: (nat, Prompt) -> GptReply): (string, nat) -> bool
  {
    (url: string, c: nat) => Verdict(question, fetch, gpt, url, c) == Success(Useful)
  }

  /**
   * The invariant of the accumulators: one completion request per checked URL, the counter
   * equal to the number of sources and excerpts and at most the quota, no URL checked
   * twice, the sources exactly the checked URLs judged useful, and each excerpt the cut
   * text of its source's page.
   */
  ghost predicate Consistent(
    question: string, fetch: string -> FetchResult, gpt: (nat, Prompt) -> GptReply, st: Selection)
  {
    && st.calls == |st.checkedSites|
    && st.counter == |st.sources| == |st.mainTexts| <= Quota
    && Distinct(st.checkedSites)
    && (forall c :: 0 <= c < |st.checkedSites| ==> Verdict(question, fetch, gpt, st.checkedSites[c], c).Success?)
    && st.sources == AcceptedOf(JudgedUseful(question, fetch, gpt), st.checkedSites)
    && (forall k :: 0 <= k < |st.sources| ==>
          fetch(st.sources[k]).Fetched? && st.mainTexts[k] == MainTextOf(fetch(st.sources[k])))
  }

  lemma DistinctAppend(s: seq<string>, x: string)
    requires Distinct(s) && x !in s
    ensures Distinct(s + [x])
  {
    forall i, j | 0 <= i < j < |s + [x]| ensures (s + [x])[i] != (s + [x])[j] {
      assert (s + [x])[i] == s[i];
      if j < |s| {
        assert (s + [x])[j] == s[j];
      }
    }
  }

  lemma EveryAppend(ok: (string, nat) -> bool, s: seq<string>, x: string)
    requires forall c :: 0 <= c < |s| ==> ok(s[c], c)
    requires ok(x, |s|)
    ensures forall c :: 0 <= c < |s + [x]| ==> ok((s + [x])[c], c)
  {
    forall c | 0 <= c < |s + [x]| ensures ok((s + [x])[c], c) {
      if c < |s| {
        assert (s + [x])[c] == s[c];
      }
    }
  }

  lemma AcceptedAppend(accepts: (string, nat) -> bool, checked: seq<string>, url: string)
    ensures AcceptedOf(accepts, checked + [url])
            == AcceptedOf(accepts, checked) + (if accepts(url, |checked|) then [url] else [])
  {
    assert (checked + [url])[..|checked|] == checked;
  }

  /** What one round does to the accumulators, read off `Judge`. */
  lemma JudgeEffect(
    question: string, fetch: string -> FetchResult, gpt: (nat, Prompt) -> GptReply,
    st: Selection, url: string)
    requires Judge(question, fetch, gpt, st, url).Success?
    ensures var verdict := Verdict(question, fetch, gpt, url, st.calls);
      var next := Judge(question, fetch, gpt, st, url).value;
      && verdict.Success? && fetch(url).Fetched?
      && next.checkedSites == st.checkedSites + [url] && next.calls == st.calls + 1
      && (verdict.value == Useful ==>
            && next.sources == st.sources + [url]
            && next.mainTexts == st.mainTexts + [MainTextOf(fetch(url))]
            && next.counter == st.counter + 1)
      && (verdict.value != Useful ==>
            next.sources == st.sources && next.mainTexts == st.mainTexts && next.counter == st.counter)
  {
  }

  lemma JudgeKeepsConsistent(
    question: string, fetch: string -> FetchResult, gpt: (nat, Prompt) -> GptReply,
    st: Selection, url: string)
    requires Consistent(question, fetch, gpt, st)
    requires st.counter < Quota && url !in st.checkedSites
    requires Judge(question, fetch, gpt, st, url).Success?
    ensures var next := Judge(question, fetch, gpt, st, url).value;
      && Consistent(question, fetch, gpt, next)
      && next.checkedSites == st.checkedSites + [url]
      && st.sources <= next.sources && st.mainTexts <= next.mainTexts
  {
    JudgeEffect(question, fetch, gpt, st, url);
    var verdict := Verdict(question, fetch, gpt, url, st.calls);
    var accepts := JudgedUseful(question, fetch, gpt);
    var next := Judge(question, fetch, gpt, st, url).value;
    var n := |st.checkedSites|;
    assert next.checkedSites[..n] == st.checkedSites;
    assert next.checkedSites[n] == url;
    DistinctAppend(st.checkedSites, url);
    var answered := (u: string, c: nat) => Verdict(question, fetch, gpt, u, c).Success?;
    EveryAppend(answered, st.checkedSites, url);
    AcceptedAppend(accepts, st.checkedSites, url);
    assert accepts(url, n) <==> verdict == Success(Useful);
    assert forall k :: 0 <= k < |next.sources| ==>
      fetch(next.sources[k]).Fetched? && next.mainTexts[k] == MainTextOf(fetch(next.sources[k]))
    by {
      forall k | 0 <= k < |next.sources|
        ensures fetch(next.sources[k]).Fetched? && next.mainTexts[k] == MainTextOf(fetch(next.sources[k]))
      {
        if k < |st.sources| {
          assert next.sources[k] == st.sources[k] && next.mainTexts[k] == st.mainTexts[k];
        }
      }
    }
  }

  /** A pass keeps the invariant and only appends to the accumulators. */
  lemma {:induction false} PassKeepsConsistent(
    question: string, fetch: string -> FetchResult, gpt: (nat, Prompt) -> GptReply,
    st: Selection, hits: seq<SearchHit>)
    requires Consistent(question, fetch, gpt, st)
    ensures Pass(question, fetch, gpt, st, hits).Success? ==>
      var after := Pass(question, fetch, gpt, st, hits).value;
      && Consistent(question, fetch, gpt, after)
      && st.sources <= after.sources && st.mainTexts <= after.mainTexts
    decreases |hits|
  {
    if hits != [] && st.counter != Quota && hits[0].1 !in st.checkedSites
      && Judge(question, fetch, gpt, st, hits[0].1).Success?
    {
      var next := Judge(question, fetch, gpt, st, hits[0].1).value;
      JudgeKeepsConsistent(question, fetch, gpt, st, hits[0].1);
      PassKeepsConsistent(question, fetch, gpt, next, hits[1..]);
    }
  }

  /**
   * A pass checks a prefix of its hits' URLs, in order; when it stops before the end, the
   * quota was met or the next URL had already been checked.
   */
  /** Checking the first hit's URL, then `k` of the rest, checks the first `k + 1` URLs. */
  lemma UrlsPrefixStep(checked: seq<string>, hits: seq<SearchHit>, k: nat)
    requires hits != [] && k < |hits|
    ensures (checked + [hits[0].1]) + Urls(hits[1..])[..k] == checked + Urls(hits)[..k + 1]
  {
    var head, tail := [hits[0].1], Urls(hits[1..]);
    assert Urls(hits) == head + tail;
    Text.PrefixOfAppend(head, tail, k);
    Text.AppendAssociative(checked, head, tail[..k]);
  }

  lemma {:induction false} PassChecksPrefix(
    question: string, fetch: string -> FetchResult, gpt: (nat, Prompt) -> GptReply,
    st: Selection, hits: seq<SearchHit>)
    requires Pass(question, fetch, gpt, st, hits).Success?
    ensures var after := Pass(question, fetch, gpt, st, hits).value;
      exists k :: 0 <= k <= |hits| && after.checkedSites == st.checkedSites + Urls(hits)[..k]
        && (k < |hits| ==> after.counter == Quota || hits[k].1 in after.checkedSites)
    decreases |hits|
  {
    var after := Pass(question, fetch, gpt, st, hits).value;
    if hits == [] || st.counter == Quota || hits[0].1 in st.checkedSites {
      assert after.checkedSites == st.checkedSites + Urls(hits)[..0];
    } else {
      JudgeEffect(question, fetch, gpt, st, hits[0].1);
      var next := Judge(question, fetch, gpt, st, hits[0].1).value;
      PassChecksPrefix(question, fetch, gpt, next, hits[1..]);
      var rest := hits[1..];
      var k :| 0 <= k <= |rest| && after.checkedSites == next.checkedSites + Urls(rest)[..k]
               && (k < |rest| ==> after.counter == Quota || rest[k].1 in after.checkedSites);
      UrlsPrefixStep(st.checkedSites, hits, k);
      assert k + 1 < |hits| ==> hits[k + 1] == rest[k];
    }
  }

  lemma {:induction false} AcceptedIsSubsequence(accepts: (string, nat) -> bool, checked: seq<string>)
    ensures IsSubsequence(AcceptedOf(accepts, checked), checked)
  {
    if checked != [] {
      var n := |checked| - 1;
      var accPrev := AcceptedOf(accepts, checked[..n]);
      AcceptedIsSubsequence(accepts, checked[..n]);
      var acc := AcceptedOf(accepts, checked);
      if acc != accPrev {
        assert acc[..|acc| - 1] == accPrev;
      }
    }
  }

  /** Only checked URLs are kept. */
  lemma {:induction false} AcceptedAreChecked(accepts: (string, nat) -> bool, checked: seq<string>)
    ensures forall u :: u in AcceptedOf(accepts, checked) ==> u in checked
  {
    if checked != [] {
      var n := |checked| - 1;
      AcceptedAreChecked(accepts, checked[..n]);
      assert forall u :: u in checked[..n] ==> u in checked;
    }
  }

  /**
   * Among URLs that are all different, a checked URL is kept exactly when `accepts` holds
   * of it at its position, and the kept URLs are all different too.
   */
  lemma {:induction false} AcceptedExactly(accepts: (string, nat) -> bool, checked: seq<string>)
    requires Distinct(checked)
    ensures forall c :: 0 <= c < |checked| ==> (checked[c] in AcceptedOf(accepts, checked) <==> accepts(checked[c], c))
    ensures Distinct(AcceptedOf(accepts, checked))
  {
    if checked != [] {
      var n := |checked| - 1;
      var prev := checked[..n];
      var accPrev := AcceptedOf(accepts, prev);
      var acc := AcceptedOf(accepts, checked);
      AcceptedExactly(accepts, prev);
      AcceptedAreChecked(accepts, prev);
      assert checked[n] !in prev by {
        forall c | 0 <= c < n ensures prev[c] != checked[n] {
          assert prev[c] == checked[c];
        }
      }
      forall c | 0 <= c < n
        ensures checked[c] in acc <==> accepts(checked[c], c)
      {
        assert prev[c] == checked[c];
      }
    }
  }

  /**
   * What the invariant promises a reader of the accumulators: at most three sources, no
   * duplicates, the sources an order-preserving subsequence of the checked URLs, each one
   * judged exactly `Useful` and every checked URL judged so kept, and each excerpt a prefix
   * of at most 500 characters of its page's extracted text.
   */
  lemma ConsistentMeaning(
    question: string, fetch: string -> FetchResult, gpt: (nat, Prompt) -> GptReply, st: Selection)
    requires Consistent(question, fetch, gpt, st)
    ensures |st.sources| == |st.mainTexts| == st.counter <= Quota
    ensures Distinct(st.checkedSites) && Distinct(st.sources)
    ensures IsSubsequence(st.sources, st.checkedSites)
    ensures forall c :: 0 <= c < |st.checkedSites| ==>
      (Verdict(question, fetch, gpt, st.checkedSites[c], c) == Success(Useful) <==> st.checkedSites[c] in st.sources)
    ensures forall k :: 0 <= k < |st.mainTexts| ==>
      && fetch(st.sources[k]).Fetched?
      && st.mainTexts[k] <= ExtractMainText(fetch(st.sources[k]).status, fetch(st.sources[k]).page)
      && |st.mainTexts[k]| <= ExcerptLength
  {
    var accepts := JudgedUseful(question, fetch, gpt);
    AcceptedIsSubsequence(accepts, st.checkedSites);
    AcceptedExactly(accepts, st.checkedSites);
    forall c | 0 <= c < |st.checkedSites|
      ensures Verdict(question, fetch, gpt, st.checkedSites[c], c) == Success(Useful) <==> st.checkedSites[c] in st.sources
    {
      assert accepts(st.checkedSites[c], c) <==> Verdict(question, fetch, gpt, st.checkedSites[c], c) == Success(Useful);
    }
  }

  /**
   * Once three sources are kept, no further URL is fetched or judged: the last URL checked
   * is the third source.
   */
  ghost predicate StoppedAtQuota(st: Selection)
  {
    st.counter == Quota ==>
      && |st.checkedSites| > 0 && |st.sources| == Quota
      && st.checkedSites[|st.checkedSites| - 1] == st.sources[Quota - 1]
  }

  /** A pass stops judging at the quota (main.py:132, 153 and 173-174 do not let it go on). */
  lemma {:induction false} PassStopsAtQuota(
    question: string, fetch: string -> FetchResult, gpt: (nat, Prompt) -> GptReply,
    st: Selection, hits: seq<SearchHit>)
    requires st.counter == |st.sources| && StoppedAtQuota(st)
    requires Pass(question, fetch, gpt, st, hits).Success?
    ensures var after := Pass(question, fetch, gpt, st, hits).value;
      after.counter == |after.sources| && StoppedAtQuota(after)
    decreases |hits|
  {
    if hits != [] && st.counter != Quota && hits[0].1 !in st.checkedSites {
      var url := hits[0].1;
      var next := Judge(question, fetch, gpt, st, url).value;
      assert next.checkedSites[|next.checkedSites| - 1] == url;
      if next.counter == Quota {
        assert next.sources == st.sources + [url];
      }
      PassStopsAtQuota(question, fetch, gpt, next, hits[1..]);
    }
  }

  /**
   * How the relevance check of one URL fails: a page request that raises, a completion
   * request that raises, a reply without `result` (non-200, or a missing key) and a reply
   * with no alternatives; and it succeeds exactly when the page request answered and the
   * reply carries a completion.
   */
  lemma VerdictCases(
    question: string, fetch: string -> FetchResult, gpt: (nat, Prompt) -> GptReply,
    url: string, call: nat)
    ensures fetch(url).FetchRaised? ==>
      Verdict(question, fetch, gpt, url, call) == Failure(InternalError(fetch(url).reason))
    ensures fetch(url).Fetched? ==>
      var reply := gpt(call, RelevancePrompt(question, MainTextOf(fetch(url))));
      && (reply.GptRaised? ==> Verdict(question, fetch, gpt, url, call) == Failure(InternalError(reply.reason)))
      && (reply.GptReply? && (reply.status != 200 || reply.body.MissingKey?) ==>
            Verdict(question, fetch, gpt, url, call) == Failure(ParseFailure))
      && (reply.GptReply? && reply.status == 200 && reply.body.NoAlternatives? ==>
            Verdict(question, fetch, gpt, url, call) == Failure(InternalError(IndexOutOfRange)))
      && (Verdict(question, fetch, gpt, url, call).Success? <==>
            reply.GptReply? && reply.status == 200 && reply.body.Completed?)
  {
  }

  /** A relevance check that fails at the next URL a pass judges ends the pass with it. */
  lemma FailedVerdictFailsPass(
    question: string, fetch: string -> FetchResult, gpt: (nat, Prompt) -> GptReply,
    st: Selection, hits: seq<SearchHit>)
    requires hits != [] && st.counter != Quota && hits[0].1 !in st.checkedSites
    requires Verdict(question, fetch, gpt, hits[0].1, st.calls).Failure?
    ensures Pass(question, fetch, gpt, st, hits) == Failure(Verdict(question, fetch, gpt, hits[0].1, st.calls).error)
  {
  }

  /**
   * A pass that judged each of its first `k` hits goes on from where those left it: the
   * pass over `hits` is the pass over `hits[k..]` from that state.
   */
  lemma {:induction false} PassAfterPrefix(
    question: string, fetch: string -> FetchResult, gpt: (nat, Prompt) -> GptReply,
    st: Selection, hits: seq<SearchHit>, k: nat)
    requires k <= |hits|
    requires Pass(question, fetch, gpt, st, hits[..k]).Success?
    requires |Pass(question, fetch, gpt, st, hits[..k]).value.checkedSites| == |st.checkedSites| + k
    ensures Pass(question, fetch, gpt, st, hits)
            == Pass(question, fetch, gpt, Pass(question, fetch, gpt, st, hits[..k]).value, hits[k..])
    decreases k
  {
    if k == 0 {
      assert hits[..0] == [] && hits[0..] == hits;
    } else {
      var mid := Pass(question, fetch, gpt, st, hits[..k]).value;
      assert hits[..k][0] == hits[0];
      assert hits[0].1 !in st.checkedSites && st.counter != Quota;
      var next := Judge(question, fetch, gpt, st, hits[0].1).value;
      assert hits[..k][1..] == hits[1..][..k - 1];
      PassAfterPrefix(question, fetch, gpt, next, hits[1..], k - 1);
      assert hits[1..][k - 1..] == hits[k..];
    }
  }

  /**
   * Both passes together: the state after them is consistent, its checked URLs are a
   * prefix of the first pass's URLs followed by a prefix of the second's, so at most four
   * URLs are fetched and judged, with one completion request each; and nothing is judged
   * after the third source is kept.
   */
  lemma SelectSourcesFacts(
    question: string, res1: SearchOutcome, res2: SearchOutcome,
    fetch: string -> FetchResult, gpt: (nat, Prompt) -> GptReply)
    requires SelectSources(question, res1, res2, fetch, gpt).Success?
    ensures res1.Hits? && res2.Hits?
    ensures var sel := SelectSources(question, res1, res2, fetch, gpt).value;
      && Consistent(question, fetch, gpt, sel)
      && |sel.checkedSites| == sel.calls <= 2 * PerPass
      && StoppedAtQuota(sel)
      && exists k1, k2 ::
           && 0 <= k1 <= |Text.Take(res1.hits, PerPass)| && 0 <= k2 <= |Text.Take(res2.hits, PerPass)|
           && sel.checkedSites == Urls(Text.Take(res1.hits, PerPass))[..k1] + Urls(Text.Take(res2.hits, PerPass))[..k2]
  {
    var hits1 := Text.Take(res1.hits, PerPass);
    var hits2 := Text.Take(res2.hits, PerPass);
    assert Pass(question, fetch, gpt, Start, hits1).Success?;
    TwoPassesConsistent(question, fetch, gpt, hits1, hits2);
    TwoPassesCheck(question, fetch, gpt, hits1, hits2);
  }

  /** Two passes from `Start` leave a consistent state that stopped at the quota. */
  lemma TwoPassesConsistent(
    question: string, fetch: string -> FetchResult, gpt: (nat, Prompt) -> GptReply,
    hits1: seq<SearchHit>, hits2: seq<SearchHit>)
    requires Pass(question, fetch, gpt, Start, hits1).Success?
    requires Pass(question, fetch, gpt, Pass(question, fetch, gpt, Start, hits1).value, hits2).Success?
    ensures var sel := Pass(question, fetch, gpt, Pass(question, fetch, gpt, Start, hits1).value, hits2).value;
      Consistent(question, fetch, gpt, sel) && StoppedAtQuota(sel)
  {
    var afterFirst := Pass(question, fetch, gpt, Start, hits1).value;
    PassKeepsConsistent(question, fetch, gpt, Start, hits1);
    PassKeepsConsistent(question, fetch, gpt, afterFirst, hits2);
    PassStopsAtQuota(question, fetch, gpt, Start, hits1);
    PassStopsAtQuota(question, fetch, gpt, afterFirst, hits2);
  }

  /** Two passes from `Start` check a prefix of each pass's URLs, one after the other. */
  lemma TwoPassesCheck(
    question: string, fetch: string -> FetchResult, gpt: (nat, Prompt) -> GptReply,
    hits1: seq<SearchHit>, hits2: seq<SearchHit>)
    requires Pass(question, fetch, gpt, Start, hits1).Success?
    requires Pass(question, fetch, gpt, Pass(question, fetch, gpt, Start, hits1).value, hits2).Success?
    ensures var sel := Pass(question, fetch, gpt, Pass(question, fetch, gpt, Start, hits1).value, hits2).value;
      exists k1, k2 ::
        && 0 <= k1 <= |hits1| && 0 <= k2 <= |hits2|
        && sel.checkedSites == Urls(hits1)[..k1] + Urls(hits2)[..k2]
  {
    var afterFirst := Pass(question, fetch, gpt, Start, hits1).value;
    var sel := Pass(question, fetch, gpt, afterFirst, hits2).value;
    PassChecksPrefix(question, fetch, gpt, Start, hits1);
    PassChecksPrefix(question, fetch, gpt, afterFirst, hits2);
    var k1 :| 0 <= k1 <= |hits1| && afterFirst.checkedSites == Start.checkedSites + Urls(hits1)[..k1];
    var k2 :| 0 <= k2 <= |hits2| && sel.checkedSites == afterFirst.checkedSites + Urls(hits2)[..k2];
    assert Start.checkedSites + Urls(hits1)[..k1] == Urls(hits1)[..k1];
    assert sel.checkedSites == Urls(hits1)[..k1] + Urls(hits2)[..k2];
  }
}
