/**
 The `/news` handler's merge (`fetch_news`): both providers are asked about
 the same query and the news list is followed by the overview list. The two
 requests run concurrently in the source; their results do not depend on
 which finishes first, so here they are evaluated one after the other.
 */
module Aggregator {
  import opened Wrappers
  import opened SerdeJson
  import opened Articles
  import opened Coins
  import NewsApi
  import CoinMarketCap

  /** `fetch_news`: the news articles, then the overview article if any. A
      panic in the market half unwinds the whole handler, so the news
      articles are lost with it. */
  function FetchNews(query: string, news: string -> Response, market: string -> Response, now: string): (r: Completion<seq<NewsArticle>>)
    ensures r.Panic? <==> CoinMarketCap.FetchCoinMarketCap(query, market, now).Panic?
    ensures r.Done? ==> |r.value| <= NewsApi.MaxNewsResults + 1
    ensures r.Done? ==> var n := NewsApi.FetchNewsapi(query, news);
      n <= r.value && r.value[|n|..] == CoinMarketCap.FetchCoinMarketCap(query, market, now).value
  {
    match CoinMarketCap.FetchCoinMarketCap(query, market, now)
    case Panic => Panic
    case Done(overview) => Done(NewsApi.FetchNewsapi(query, news) + overview)
  }

  /** Where the overview sits: if the market half produced one, it is the
      last element, titled after the raw query and credited to
      CoinMarketCap; every earlier element comes from the news half. */
  lemma OverviewIsLast(query: string, news: string -> Response, market: string -> Response, now: string)
    requires CoinMarketCap.FetchCoinMarketCap(query, market, now).Done?
    requires CoinMarketCap.FetchCoinMarketCap(query, market, now).value != []
    ensures FetchNews(query, news, market, now).Done?
    ensures var r := FetchNews(query, news, market, now).value;
      && |r| == |NewsApi.FetchNewsapi(query, news)| + 1
      && r[..|r| - 1] == NewsApi.FetchNewsapi(query, news)
      && r[|r| - 1].title == "Overview of " + query
      && r[|r| - 1].source == CoinMarketCap.ProviderName
      && r[|r| - 1].date == now
  {
    var ov := CoinMarketCap.FetchCoinMarketCap(query, market, now).value;
    var r := FetchNews(query, news, market, now).value;
    assert r[|r| - 1] == ov[0];
  }

  /** A failing request takes only its own half away: with the news request
      failed the answer is whatever the market half gives, with the market
      request failed it is the news alone, and with both failed it is empty. */
  lemma FailuresAreIndependent(query: string, news: string -> Response, market: string -> Response, now: string)
    ensures news(SearchTerm(query)).TransportError? ==>
      FetchNews(query, news, market, now) == CoinMarketCap.FetchCoinMarketCap(query, market, now)
    ensures market(query).TransportError? ==>
      FetchNews(query, news, market, now) == Done(NewsApi.FetchNewsapi(query, news))
    ensures news(SearchTerm(query)).TransportError? && market(query).TransportError? ==>
      FetchNews(query, news, market, now) == Done([])
  {
    if news(SearchTerm(query)).TransportError? {
      match CoinMarketCap.FetchCoinMarketCap(query, market, now)
      case Panic =>
      case Done(ov) => assert [] + ov == ov;
    }
    if market(query).TransportError? {
      assert NewsApi.FetchNewsapi(query, news) + [] == NewsApi.FetchNewsapi(query, news);
    }
  }

  /** A market reply whose entry for the query lacks `description` aborts the
      whole request, whatever the news provider answered. */
  lemma MissingDescriptionAbortsRequest(query: string, site: string, now: string,
                                        news: string -> Response, market: string -> Response)
    requires market(query) == Delivered(Some(
      Obj(map["data" := Obj(map[query := Obj(map["urls" := Obj(map["website" := Arr([Str(site)])])])])])))
    ensures FetchNews(query, news, market, now) == Panic
  {
    CoinMarketCap.MissingDescriptionPanics(query, site, now);
  }

  /** A news provider answering "ethereum" with `articles` (at most five) and
      a market provider listing `site` for "ETH": the query "ETH" yields the
      articles in order followed by the overview of ETH. */
  lemma EthScenario(articles: seq<NewsArticle>, site: string, description: string, now: string,
                    news: string -> Response, market: string -> Response)
    requires |articles| <= NewsApi.MaxNewsResults
    requires news("ethereum") == Delivered(Some(NewsApi.ReplyOf(articles)))
    requires market("ETH") == Delivered(Some(CoinMarketCap.ReplyOf("ETH", site, description)))
    ensures FetchNews("ETH", news, market, now)
         == Done(articles + [NewsArticle("Overview of ETH", site, "CoinMarketCap", now)])
  {
    EthNewsHalf(articles, news);
    EthMarketHalf(site, description, now, market);
  }

  /** The news half of the ETH scenario: the articles, in order. */
  lemma EthNewsHalf(articles: seq<NewsArticle>, news: string -> Response)
    requires |articles| <= NewsApi.MaxNewsResults
    requires news("ethereum") == Delivered(Some(NewsApi.ReplyOf(articles)))
    ensures NewsApi.FetchNewsapi("ETH", news) == articles
  {
    SearchTermEth("ETH");
    NewsApi.NewsRoundTrip(articles);
  }

  /** The market half of the ETH scenario: the one overview of ETH. */
  lemma EthMarketHalf(site: string, description: string, now: string, market: string -> Response)
    requires market("ETH") == Delivered(Some(CoinMarketCap.ReplyOf("ETH", site, description)))
    ensures CoinMarketCap.FetchCoinMarketCap("ETH", market, now)
         == Done([NewsArticle("Overview of ETH", site, "CoinMarketCap", now)])
  {
    CoinMarketCap.OverviewRoundTrip("ETH", site, description, now);
    assert "Overview of " + "ETH" == "Overview of ETH";
  }

  /** Both providers failing for "XYZ" gives the empty list, not an error. */
  lemma BothFailScenario(news: string -> Response, market: string -> Response, now: string)
    requires forall term :: news(term) == TransportError
    requires market("XYZ") == TransportError
    ensures FetchNews("XYZ", news, market, now) == Done([])
  {
    FailuresAreIndependent("XYZ", news, market, now);
  }
}
