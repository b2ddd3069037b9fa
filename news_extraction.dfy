/** NewsExtractor.get_news: query Event Registry for the newest articles that mention any of
    the first five keywords and append them to the extractor's running list. The service is
    external: a function from the quoted keywords to the stream of articles it yields, newest
    first, and whether the stream breaks off with an error. */
module NewsExtraction {
  import opened PyValues

  /** Only this many keywords go into the query. */
  const MaxQueryKeywords := 5

  /** What iterating the query gives: the articles in date order, newest first, and whether
      an exception is raised once they are used up. */
  datatype Feed = Feed(articles: seq<Dict>, fails: bool)

  /** QueryArticlesIter(keywords = QueryItems.OR(quoted)).execQuery(..., sortBy = "date") */
  type NewsApi = seq<string> -> Feed

  /** f'"{keyword}"' */
  function Quote(keyword: Value): (q: string)
    ensures |q| == |StrOf(keyword)| + 2
    ensures q[0] == '"' && q[|q| - 1] == '"' && q[1..|q| - 1] == StrOf(keyword)
  {
    "\"" + StrOf(keyword) + "\""
  }

  /** The OR-query terms: keywords[:5], each in double quotes. */
  function QueryKeywords(keywords: seq<Value>): (q: seq<string>)
    ensures |q| == if |keywords| < MaxQueryKeywords then |keywords| else MaxQueryKeywords
    ensures forall k :: 0 <= k < |q| ==> q[k] == Quote(keywords[k])
  {
    var n := if |keywords| < MaxQueryKeywords then |keywords| else MaxQueryKeywords;
    seq(n, k requires 0 <= k < n => Quote(keywords[k]))
  }

  /** Removing the quotes gives back str() of each of the first five keywords. */
  lemma QueryKeywordsUnquote(keywords: seq<Value>)
    ensures var q := QueryKeywords(keywords);
            forall k :: 0 <= k < |q| ==> q[k][1..|q[k]| - 1] == StrOf(keywords[k])
  {
  }

  /** Keywords after the fifth never reach the service. */
  lemma LaterKeywordsIgnored(keywords: seq<Value>, extra: seq<Value>)
    requires |keywords| >= MaxQueryKeywords
    ensures QueryKeywords(keywords + extra) == QueryKeywords(keywords)
  {
  }

  /** The articles one query adds: at most `maxArticles` of the stream, newest first. */
  function Fetched(feed: Feed, maxArticles: nat): (a: seq<Dict>)
    ensures |a| <= maxArticles && a <= feed.articles
    ensures |feed.articles| >= maxArticles ==> |a| == maxArticles
    ensures |feed.articles| < maxArticles ==> a == feed.articles
  {
    if |feed.articles| < maxArticles then feed.articles else feed.articles[..maxArticles]
  }

  /** The stream breaks off before `maxArticles` articles were read. */
  predicate QueryFails(feed: Feed, maxArticles: nat) {
    feed.fails && |feed.articles| < maxArticles
  }

  /** `isinstance(keywords, List) and keywords` */
  predicate KeywordsOk(keywords: Value) {
    keywords.List? && |keywords.items| > 0
  }

  /** `isinstance(max_articles, int) and max_articles > 0`; True counts as 1. */
  predicate MaxArticlesOk(maxArticles: Value) {
    IsInt(maxArticles) && IntOf(maxArticles) > 0
  }

  class NewsExtractor {
    const api: NewsApi
    /** every article fetched so far, over all calls */
    var news: seq<Dict>

    constructor (api: NewsApi)
      ensures this.api == api && news == []
    {
      this.api := api;
      news := [];
    }

    /** Validates the arguments, appends the fetched articles to `news` one by one and returns
        the whole list; a failing query raises ValueError after the articles read before the
        failure were appended. */
    method GetNews(keywords: Value, maxArticles: Value) returns (r: Result<seq<Dict>>)
      modifies this
      ensures !KeywordsOk(keywords) || !MaxArticlesOk(maxArticles) ==> r == Err(ValueError) && news == old(news)
      ensures KeywordsOk(keywords) && MaxArticlesOk(maxArticles) ==>
                var feed := api(QueryKeywords(keywords.items));
                && news == old(news) + Fetched(feed, IntOf(maxArticles))
                && (if QueryFails(feed, IntOf(maxArticles)) then r == Err(ValueError) else r == Ok(news))
    {
      if !KeywordsOk(keywords) || !MaxArticlesOk(maxArticles) {
        return Err(ValueError);
      }
      var max := IntOf(maxArticles);
      var feed := api(QueryKeywords(keywords.items));
      var taken := Fetched(feed, max);
      for i := 0 to |taken|
        invariant news == old(news) + taken[..i]
      {
        news := news + [taken[i]];
      }
      assert taken[..|taken|] == taken;
      if QueryFails(feed, max) {
        return Err(ValueError);
      }
      r := Ok(news);
    }
  }
}
