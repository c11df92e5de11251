/**
 * `extract_main_text` (main.py:87-114): the text taken from a fetched page, by a fixed
 * order of fallbacks over its regions.
 */
module PageText {
  import opened Wrappers
  import Text

  /**
   * A parsed page, reduced to what the extractor looks at: the text of the first
   * `article` element and of the first `main` element when there is one, and the text of
   * each `p` element in document order. (A found tag is always truthy, even when empty.)
   */
  datatype Page = Page(article: Option<string>, main: Option<string>, paragraphs: seq<string>)

  /** The page request: a status and the parsed body, or an exception from the request. */
  datatype FetchResult =
    | Fetched(status: nat, page: Page)
    | FetchRaised(reason: string)

  const LoadErrorPrefix: string := "Ошибка при загрузке страницы: "
  const NotFound: string := "Основной контент не найден"

  /** The texts of the present regions, in the order the extractor prefers them. */
  function Regions(page: Page): seq<string>
  {
    (if page.article.Some? then [page.article.value] else [])
    + (if page.main.Some? then [page.main.value] else [])
    + (if page.paragraphs != [] then [Text.Join(page.paragraphs, " ")] else [])
  }

  /** The value `extract_main_text` returns once the page request has answered. */
  function ExtractMainText(status: nat, page: Page): (r: string)
    ensures status != 200 ==> Text.ParseCode(LoadErrorPrefix, r) == Some(status)
    ensures status == 200 ==> r == if Regions(page) == [] then NotFound else Regions(page)[0]
  {
    if status != 200 then
      Text.CodeRoundTrip(LoadErrorPrefix, status);
      LoadErrorPrefix + Text.Decimal(status)
    else if page.article.Some? then page.article.value
    else if page.main.Some? then page.main.value
    else if page.paragraphs != [] then Text.Join(page.paragraphs, " ")
    else NotFound
  }

  /**
   * A present region hides every later one: with an article, neither the main region nor
   * the paragraphs matter; with a main region and no article, the paragraphs do not.
   */
  lemma EarlierRegionWins(page: Page, main: Option<string>, paragraphs: seq<string>)
    ensures page.article.Some? ==>
      ExtractMainText(200, page) == ExtractMainText(200, Page(page.article, main, paragraphs)) == page.article.value
    ensures page.article.None? && page.main.Some? ==>
      ExtractMainText(200, page) == ExtractMainText(200, Page(None, page.main, paragraphs)) == page.main.value
  {
  }

  /** The number of characters of the extracted text that are kept (main.py:134, 155). */
  const ExcerptLength: nat := 500

  /** `extract_main_text(url)[:500]` for a page request that answered. */
  function Excerpt(status: nat, page: Page): (r: string)
    ensures r <= ExtractMainText(status, page)
    ensures |r| == if |ExtractMainText(status, page)| < ExcerptLength then |ExtractMainText(status, page)| else ExcerptLength
  {
    Text.Take(ExtractMainText(status, page), ExcerptLength)
  }
}
