# Question-answering request handler, modelled in Dafny

The service answers a multiple-choice question posted to `/api/request` as
`{id, query}`. The query holds a stem line followed by numbered options. The handler
(`handle_request`, main.py:119-202) works in six steps:

1. It splits the query with a regular expression.
2. It runs two web searches: one for the whole query, one for the stem.
3. It walks the first two hits of each search. For each hit it fetches the page and
   keeps the first 500 characters of the page's main text. It asks the language model
   whether that text is useful, and keeps the URL when the reply is exactly
   "Да, полезна". The walk stops after three kept sources.
4. It asks the model to choose an option.
5. It asks the model to explain that choice.
6. It replies `{id, answer, reasoning, sources}`, or HTTP 500 when anything on the way
   raises.

The model covers the following:

- **Question split** (`QuestionSplit`). The first match of the pattern at main.py:127 is
  computed by a line-by-line scan. That scan is proved to give the leftmost, shortest
  match of the pattern (the `IsMatch` predicate), or none when there is no match.
  Python reports this match for this pattern, for two reasons. `findall` scans starts
  from the left. At a given start, `[^\n]+` can only end at the next newline, and both
  `.+?` are lazy. This last step is argued in the comments, not proved. When there is no
  match, the handler's `[0]` raises `IndexError`.
- **Search decoding** (`Search`). `yandex_search` (main.py:27-54) returns one of three
  shapes:
  - the list of (title, url) pairs, with placeholders for absent children;
  - the string `"Ошибка: <status>"`;
  - `None`, when anything in its `try` raised.
- **Page text** (`PageText`). `extract_main_text` (main.py:87-114) has a fixed fallback
  order: article, then main, then the joined paragraphs, then a not-found message. A
  non-200 page gives a load-error message. The handler keeps only the first 500
  characters.
- **Completions** (`Gpt`). A reply to a completion request either yields its text or
  fails:
  - a non-200 reply, or a missing key, is a `KeyError`;
  - an empty `alternatives` list is an `IndexError`;
  - a request that raises fails with that exception's message.
- **Source filter** (`SourceFilter`). Two passes over at most two hits each, described by
  specification functions `Pass` and `SelectSources`. Proved about them:
  - the judged URLs are distinct, one completion request each;
  - they are a prefix of the first search's two URLs followed by a prefix of the second's;
  - the kept sources are exactly the judged URLs whose verdict was "Да, полезна", in
    order, at most three;
  - each kept text is a prefix of that page's extracted text, at most 500 characters.
- **Handler** (`Handler`). The method `HandleRequest` has the handler's loops and
  assignments. It is proved equal to the specification function `RequestOutcome`. Lemmas
  about `RequestOutcome` cover the 200 reply and each path to HTTP 500:
  - no match in the query;
  - a failed search;
  - a failing relevance check at any hit a pass reaches: a page request that raises, a
    completion request that raises, a reply without `result`, or empty alternatives;
  - a failing selection request or explanation request.

The outside world is passed in as functions:

- `search(query)`: the search request's reply;
- `fetch(url)`: the page request's reply;
- `gpt(call, prompt)`: the reply to completion request number `call`, counted from 0 in
  the order the handler sends them.

Indexing `gpt` by call number lets the model say which reply ends up where, without
assuming the model answers the same prompt the same way twice.

What main.py does, and the model keeps:

- A failed search ends the request with HTTP 500. A non-200 search returns the string
  `"Ошибка: <status>"`, and unpacking its one-character slices raises `ValueError`. A
  search that raised, or whose 200 body is not XML, returns `None`, and slicing it raises
  `TypeError`.
- The first two hits of the first search are walked, then the first two hits of the
  second.
- A URL already checked ends the pass.
- Three kept sources end the walk: nothing is fetched or judged after the third.
- A page answered with a status other than 200 does not stop the walk. Its load-error
  message is cut and judged like any other text. A page request that raises, for example
  on a connection error or on the placeholder URL "Нет ссылки", ends the request with
  HTTP 500.
- The excerpt is the first 500 characters of the page's text.
- Every completion reply is read at `['result']['alternatives'][0]['message']['text']`.
  A non-200 reply is `{"error": ...}`, so reading it raises `KeyError`. The request then
  ends with HTTP 500 "Error parsing Yandex GPT response".
- The answer is the selection request's text as returned.
- The explanation prompt is built after `ans` has been overwritten by the chosen option,
  so it carries the chosen answer, not the options block. `Handler.ResponseFacts`
  states this.
- A query that the pattern does not match ends in HTTP 500.

## Model

| member | source | states |
|---|---|---|
| Text.Take | main.py:131 | Python's `s[:n]`: a prefix of `s`, of length `min(n, len(s))` |
| Text.CodeRoundTrip | main.py:52 | a message `prefix + str(code)` gives back exactly its status code |
| Errors.Detail | main.py:199-202 | a `KeyError` becomes the fixed detail "Error parsing Yandex GPT response"; any other exception becomes "Internal server error: " followed by its message |
| Errors.DetailInjective | main.py:199-202 | two failures with the same HTTP 500 detail are the same failure |
| QuestionSplit.SplitQuestion | main.py:127 | on a match, the stem is one non-empty line, and the options block starts with "1." and holds a later "4." followed by a character; stem, newline and options occur in the query, ending at its end or at a newline |
| QuestionSplit.SplitFromIsFirstMatch | main.py:127 | scanning line by line from a line start finds the leftmost, shortest match, or proves there is none |
| QuestionSplit.SplitQuestionIsFirstMatch | main.py:127 | the split is None exactly when the pattern matches nowhere; otherwise its groups are those of the leftmost, shortest match |
| QuestionSplit.TrailingLineDropped | main.py:127 | on the example "Q\n1.a\n4.b\nc", the options block is "1.a\n4.b": it ends at the first line end after "4." and one character, and the later line is dropped (the general rule is `SplitQuestionIsFirstMatch`) |
| QuestionSplit.NoStemNoMatch | main.py:127 | options with no stem line before them do not match |
| QuestionSplit.OneLineNoMatch | main.py:127 | a query without a newline, such as the sample at main.py:209, has no match |
| Search.DecodeDocs | main.py:43-48 | one (title, url) pair per `doc`, in document order, with "Нет ссылки" and "Нет описания" for absent children |
| Search.YandexSearch | main.py:39-54 | the decoding loop builds exactly the search outcome: a list, the error string or None |
| Search.OutcomeCases | main.py:41-54 | a raised request, or a 200 reply whose body is not XML, gives None; a 200 reply gives one pair per doc with placeholders; a non-200 reply gives "Ошибка: " followed by its status |
| PageText.ExtractMainText | main.py:91-114 | a non-200 page gives the load-error message with its status; a 200 page gives the first present region in the order article, main, paragraphs, or the not-found message |
| PageText.EarlierRegionWins | main.py:99-111 | a present article hides the main region and the paragraphs; a present main region hides the paragraphs |
| PageText.Excerpt | main.py:134 | the kept text is a prefix of the extracted text, of length `min(500, len)` |
| Gpt.CompletionText | main.py:80-83 | a reply gives its text exactly when it is 200 and has the completion path; a non-200 reply or a missing key fails with the `KeyError` failure, and nothing else does; empty alternatives fail with "list index out of range"; a request that raises fails with its message |
| SourceFilter.JudgeKeepsConsistent | main.py:134-147 | one round of the loop body keeps the accumulators consistent and appends the URL to the checked sites |
| SourceFilter.PassKeepsConsistent | main.py:131-150 | a whole pass keeps the accumulators consistent and only extends the sources and texts |
| SourceFilter.PassChecksPrefix | main.py:131-133 | a pass checks a prefix of the hits' URLs; it stops early only at the quota or at a URL already checked |
| SourceFilter.PassStopsAtQuota | main.py:132-133 | once a pass keeps its third source it judges nothing more: the last URL checked is the third source (also at main.py:153-154 and 173-174) |
| SourceFilter.VerdictCases | main.py:134-140 | the relevance check of a URL fails with the page request's exception, the completion request's exception, the `KeyError` failure for a non-200 reply or a missing key, or `IndexError` for empty alternatives; it succeeds exactly when the page answered and the reply carries a completion |
| SourceFilter.FailedVerdictFailsPass | main.py:131-140 | a relevance check that fails at the next URL a pass judges ends the pass with that failure |
| SourceFilter.PassAfterPrefix | main.py:131-150 | a pass that judged each of its first k hits continues from the state they left, over the remaining hits |
| SourceFilter.AcceptedIsSubsequence | main.py:141-147 | the kept URLs are a subsequence of the checked ones |
| SourceFilter.AcceptedAreChecked | main.py:141-147 | every kept URL was checked |
| SourceFilter.AcceptedExactly | main.py:143-147 | with distinct checked URLs, a checked URL is kept exactly when its verdict accepts it, and the kept URLs are distinct |
| SourceFilter.ConsistentMeaning | main.py:122-174 | at most three sources, as many texts as sources, checked URLs and sources distinct, and a checked URL is a source exactly when its relevance reply was "Да, полезна"; each text is a prefix of its page's text, at most 500 characters |
| SourceFilter.SelectSourcesFacts | main.py:129-174 | after both passes, both searches gave lists. The checked URLs are a prefix of the first two URLs of the first search followed by a prefix of the first two of the second, with one completion request each (at most four). When three sources are kept, the last URL checked is the third source |
| Handler.CheckSite | main.py:134-147 | one round of the loop body computes exactly the round of the filter specification, including its failures |
| Handler.FilterPass | main.py:131-174 | the loop computes exactly one pass of the filter specification; the second loop's trailing quota check changes nothing |
| Handler.HandleRequest | main.py:119-202 | the handler's result is exactly `RequestOutcome` |
| Handler.Answer | main.py:176-198 | the selection request, the overwrite of `ans` and the explanation request compute exactly `Respond`, whose explanation prompt carries the chosen answer |
| Handler.ResponseFacts | main.py:176-198 | a 200 reply echoes the id; its sources are the selected ones (at most three, distinct, drawn in order from the first two hits of each search, exactly those judged useful); the answer is the selection reply, and the reasoning is the reply to an explanation prompt that carries that answer |
| Handler.NoMatchIsInternalError | main.py:127 | a query the pattern does not match ends in HTTP 500 "Internal server error: list index out of range" |
| Handler.SampleRequestIsInternalError | main.py:209 | the sample request ends in HTTP 500 with `IndexError` |
| Handler.FailedSearchIsInternalError | main.py:129-131 | a search that leaves `None` (a raised request, or a 200 body that is not XML) ends in HTTP 500 with the `TypeError` message, and a non-200 search with the `ValueError` message; for the second search, this holds once the first pass succeeded |
| Handler.FailedRelevanceInFirstPass | main.py:131-140 | a relevance check that fails at any hit the first pass reaches ends the request with that failure |
| Handler.FailedRelevanceInSecondPass | main.py:152-161 | after a successful first pass, a relevance check that fails at any hit the second pass reaches ends the request with that failure |
| Handler.NonOkRelevanceIsParseFailure | main.py:140 | a non-200 reply, or a reply missing a key, to the first relevance request ends in the `KeyError` failure |
| Handler.FailedAnswerEndsRequest | main.py:181-189 | once sources are selected, a failing selection request, or a failing explanation request after a successful selection, ends the request with that failure |
| Handler.NonOkAnswerIsParseFailure | main.py:181-189 | a non-200 reply to the selection request, or to the explanation request after a successful selection, ends in the `KeyError` failure |

## Left out

- HTTP and JSON (FastAPI routing, pydantic validation of `{id, query}`, `JSONResponse`,
  `HTTPException`): a request's end is a `Result` of a response or a failure.
- Configuration (`load_dotenv`, keys, folder id, endpoint URLs, request parameters and
  headers): these only shape the outgoing requests, which are oracles here.
- Prompt wording, including how `str(main_texts)` renders the list: a prompt is modelled
  by the values it carries.
- Model sampling (temperature 0.6): the model's replies are the `gpt` oracle.
- XML parsing (`ElementTree`): a reply's body is given as its `doc` elements, or as
  absent when it is not well-formed XML.
- A `url` or `headline` element without text, which yields `None`: a present child
  always has a string.
- HTML parsing and `get_text` (BeautifulSoup): a page is given as the texts of its first
  article, its first main region and its paragraphs.
- Exceptions raised while reading a 200 completion reply's JSON, other than a missing key
  or empty alternatives: these are folded into the raised request.
- `print(main_texts)` at main.py:190, and the module-level sample URL at main.py:117.
- async_request.py, test_request.py and test_yaml.py are not part of this model.
- Concurrency between requests: each request's state is private to the call.
