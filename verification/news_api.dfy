/**
 The news-search half of the aggregator (`fetch_newsapi`): the search term it
 asks for, and how the parsed reply becomes at most five articles.
 */
module NewsApi {
  import opened Wrappers
  import opened SerdeJson
  import opened Articles
  import opened Coins

  /** The `take(5)` cap on provider results. */
  const MaxNewsResults: nat := 5

  /** The source name an entry without a usable `source_id` is credited to. */
  const DefaultSource: string := "NewsData.io"

  /** The article an entry with no usable fields at all becomes. */
  const BlankArticle: NewsArticle := NewsArticle("", "", DefaultSource, "")

  /** One provider entry as an article: `title`, `link`, `source_id` and
      `pubDate`, each read as text; a member that is absent or not a string
      falls back to "" (to "NewsData.io" for the source). */
  function ArticleOf(entry: Value): (r: NewsArticle)
    ensures r.title == (if Get(entry, "title").Str? then Get(entry, "title").s else "")
    ensures r.url == (if Get(entry, "link").Str? then Get(entry, "link").s else "")
    ensures r.source == (if Get(entry, "source_id").Str? then Get(entry, "source_id").s else DefaultSource)
    ensures r.date == (if Get(entry, "pubDate").Str? then Get(entry, "pubDate").s else "")
  {
    NewsArticle(
      StrField(entry, "title", ""),
      StrField(entry, "link", ""),
      StrField(entry, "source_id", DefaultSource),
      StrField(entry, "pubDate", ""))
  }

  /** The loop body over `results`: every entry projected, in provider order. */
  function ArticlesOf(entries: seq<Value>): (r: seq<NewsArticle>)
    ensures |r| == |entries|
    ensures forall i :: 0 <= i < |entries| ==> r[i] == ArticleOf(entries[i])
  {
    if entries == [] then [] else [ArticleOf(entries[0])] + ArticlesOf(entries[1..])
  }

  /** The first `n` elements of `s`, or all of them when there are fewer
      (`Iterator::take`). */
  function Take<T>(s: seq<T>, n: nat): (r: seq<T>)
    ensures |r| == if |s| < n then |s| else n
    ensures r <= s
  {
    if |s| < n then s else s[..n]
  }

  /** The parsed reply as articles: the first five entries of
      `json["results"]` when that is an array, and nothing otherwise. */
  function NewsFromJson(json: Value): (r: seq<NewsArticle>)
    ensures |r| <= MaxNewsResults
    ensures !Get(json, "results").Arr? ==> r == []
    ensures Get(json, "results").Arr? ==>
      var results := Get(json, "results").items;
      && |r| == (if |results| < MaxNewsResults then |results| else MaxNewsResults)
      && forall i :: 0 <= i < |r| ==> r[i] == ArticleOf(results[i])
  {
    match AsArray(Get(json, "results"))
    case Some(results) => ArticlesOf(Take(results, MaxNewsResults))
    case None => []
  }

  /** `fetch_newsapi`: ask `provider` for the search term of `query`; a failed
      request gives no articles, and a body that does not parse reads as
      `Null`, which gives none either. */
  function FetchNewsapi(query: string, provider: string -> Response): (r: seq<NewsArticle>)
    ensures |r| <= MaxNewsResults
    ensures provider(SearchTerm(query)).TransportError? ==> r == []
    ensures provider(SearchTerm(query)) == Delivered(None) ==> r == []
    ensures provider(SearchTerm(query)).Delivered? ==> r == NewsFromJson(BodyOf(provider(SearchTerm(query)).parsed))
  {
    match provider(SearchTerm(query))
    case TransportError => []
    case Delivered(parsed) => NewsFromJson(BodyOf(parsed))
  }

  // ----- The reply a provider would send for a given list of articles -----

  /** The entry object the provider would send for `a`. */
  function EntryOf(a: NewsArticle): (r: Value)
    ensures r.Obj?
    ensures r.fields.Keys == {"title", "link", "source_id", "pubDate"}
  {
    Obj(map[
      "title" := Str(a.title),
      "link" := Str(a.url),
      "source_id" := Str(a.source),
      "pubDate" := Str(a.date)])
  }

  function EntriesOf(articles: seq<NewsArticle>): (r: seq<Value>)
    ensures |r| == |articles|
    ensures forall i :: 0 <= i < |articles| ==> r[i] == EntryOf(articles[i])
  {
    if articles == [] then [] else [EntryOf(articles[0])] + EntriesOf(articles[1..])
  }

  /** A reply whose `results` array lists `articles` in order. */
  function ReplyOf(articles: seq<NewsArticle>): (r: Value)
    ensures Get(r, "results") == Arr(EntriesOf(articles))
  {
    Obj(map["results" := Arr(EntriesOf(articles))])
  }

  /** Reading back an entry gives the article it was made from. */
  lemma ArticleRoundTrip(a: NewsArticle)
    ensures ArticleOf(EntryOf(a)) == a
  {
  }

  /** Reading back a reply gives its first five articles, in order. */
  lemma {:induction false} NewsRoundTrip(articles: seq<NewsArticle>)
    ensures NewsFromJson(ReplyOf(articles)) == Take(articles, MaxNewsResults)
  {
    var r := NewsFromJson(ReplyOf(articles));
    var t := Take(articles, MaxNewsResults);
    forall i | 0 <= i < |r|
      ensures r[i] == t[i]
    {
      ArticleRoundTrip(articles[i]);
    }
  }

  /** An entry that is not an object, or is an object without any of the four
      members, becomes the blank article credited to "NewsData.io". */
  lemma MissingFieldsDefault(entry: Value)
    requires !entry.Obj? || entry.fields.Keys !! {"title", "link", "source_id", "pubDate"}
    ensures ArticleOf(entry) == BlankArticle
  {
  }

  /** Entries past the fifth never reach the output: the reply is decided by
      its first five entries alone. */
  lemma OnlyFirstFiveMatter(json1: Value, json2: Value)
    requires Get(json1, "results").Arr? && Get(json2, "results").Arr?
    requires Take(Get(json1, "results").items, MaxNewsResults) == Take(Get(json2, "results").items, MaxNewsResults)
    ensures NewsFromJson(json1) == NewsFromJson(json2)
  {
  }

  /** The news half ignores the case of the query: "eth", "ETH" and "Eth"
      send the same request and so read the same reply. */
  lemma FetchNewsapiIgnoresCase(q1: string, q2: string, provider: string -> Response)
    requires Ascii.ToUpper(q1) == Ascii.ToUpper(q2)
    ensures FetchNewsapi(q1, provider) == FetchNewsapi(q2, provider)
  {
    SearchTermIgnoresCase(q1, q2);
  }
}
