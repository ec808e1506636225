/**
 The market-data half of the aggregator (`fetch_coinmarketcap`): the entry
 for the raw query under `data`, turned into at most one overview article.
 The entry is read through `as_object()`, and indexing the resulting map
 panics on a missing member, so an entry without `description` or `urls`
 aborts the request.
 */
module CoinMarketCap {
  import opened Wrappers
  import opened SerdeJson
  import opened Articles

  /** The source name every overview article carries. */
  const ProviderName: string := "CoinMarketCap"

  /** The overview article for `query` linking to `site`, stamped `now`. */
  function OverviewArticle(query: string, site: string, now: string): (r: NewsArticle)
    ensures |r.title| == |"Overview of "| + |query|
    ensures r.title[..|"Overview of "|] == "Overview of "
    ensures r.title[|"Overview of "|..] == query
    ensures r.url == site && r.source == ProviderName && r.date == now
  {
    NewsArticle("Overview of " + query, site, ProviderName, now)
  }

  /** `json["data"][query]`: the entry for the query exactly as typed, or
      `Null` when the reply has no such entry. */
  function EntryFor(json: Value, query: string): (r: Value)
    ensures Get(json, "data").Obj? && query in Get(json, "data").fields ==>
      r == Get(json, "data").fields[query]
    ensures !(Get(json, "data").Obj? && query in Get(json, "data").fields) ==> r == Null
  {
    Get(Get(json, "data"), query)
  }

  /** `urls["website"][0]`: the first listed website, or `Null` when `urls`
      lists none. */
  function WebsiteOf(urls: Value): (r: Value)
    ensures Get(urls, "website").Arr? && |Get(urls, "website").items| > 0 ==>
      r == Get(urls, "website").items[0]
    ensures !(Get(urls, "website").Arr? && |Get(urls, "website").items| > 0) ==> r == Null
  {
    At(Get(urls, "website"), 0)
  }

  /** The query's entry is an object that lacks one of the two members the
      source indexes it by. */
  predicate EntryIncomplete(json: Value, query: string)
  {
    var entry := EntryFor(json, query);
    entry.Obj? && ("description" !in entry.fields || "urls" !in entry.fields)
  }

  /** The query's entry is a complete object whose first website is a string. */
  predicate HasWebsite(json: Value, query: string)
  {
    var entry := EntryFor(json, query);
    && entry.Obj?
    && "description" in entry.fields
    && "urls" in entry.fields
    && WebsiteOf(entry.fields["urls"]).Str?
  }

  /** The parsed reply as articles. A query entry that is an object missing
      `description` or `urls` panics; otherwise there is one overview when the
      first website is a string, and nothing else. The description's value
      is read but never used. */
  function OverviewFromJson(query: string, json: Value, now: string): (r: Completion<seq<NewsArticle>>)
    ensures r.Panic? <==> EntryIncomplete(json, query)
    ensures r.Done? ==> |r.value| <= 1
    ensures r.Done? ==> (|r.value| == 1 <==> HasWebsite(json, query))
    ensures r.Done? && |r.value| == 1 ==>
      r.value[0] == OverviewArticle(query, WebsiteOf(EntryFor(json, query).fields["urls"]).s, now)
  {
    match AsObject(EntryFor(json, query))
    case None => Done([])
    case Some(data) =>
      match MapIndex(data, "description")
      case None => Panic
      case Some(_) =>
        match MapIndex(data, "urls")
        case None => Panic
        case Some(urls) =>
          match AsStr(WebsiteOf(urls))
          case Some(site) => Done([OverviewArticle(query, site, now)])
          case None => Done([])
  }

  /** `fetch_coinmarketcap`: ask `provider` about the raw `query`; a failed
      request gives nothing and an unparseable body reads as `Null`, which
      has no entries. The clock reading `now` stands for
      `chrono::Utc::now().to_rfc3339()`. */
  function FetchCoinMarketCap(query: string, provider: string -> Response, now: string): (r: Completion<seq<NewsArticle>>)
    ensures r.Done? ==> |r.value| <= 1
    ensures provider(query).TransportError? ==> r == Done([])
    ensures provider(query) == Delivered(None) ==> r == Done([])
    ensures provider(query).Delivered? ==> r == OverviewFromJson(query, BodyOf(provider(query).parsed), now)
  {
    match provider(query)
    case TransportError => Done([])
    case Delivered(parsed) => OverviewFromJson(query, BodyOf(parsed), now)
  }

  // ----- The reply a provider would send -----

  /** A reply listing `site` as the first website of `query`'s entry, next to
      a description. */
  function ReplyOf(query: string, site: string, description: string): Value
  {
    Obj(map["data" := Obj(map[query := Obj(map[
      "description" := Str(description),
      "urls" := Obj(map["website" := Arr([Str(site)])])])])])
  }

  /** Reading back such a reply gives exactly its overview article, whatever
      the description says. */
  lemma OverviewRoundTrip(query: string, site: string, description: string, now: string)
    ensures OverviewFromJson(query, ReplyOf(query, site, description), now) == Done([OverviewArticle(query, site, now)])
  {
    var json := ReplyOf(query, site, description);
    var entry := EntryFor(json, query);
    assert entry.Obj? && "description" in entry.fields && "urls" in entry.fields;
    assert WebsiteOf(entry.fields["urls"]) == Str(site);
  }

  /** The reply with the `description` of `query`'s entry set to `v`
      (unchanged when there is no such entry object). */
  function WithDescription(json: Value, query: string, v: Value): (r: Value)
    ensures EntryFor(json, query).Obj? ==> EntryFor(r, query) == Obj(EntryFor(json, query).fields["description" := v])
    ensures !EntryFor(json, query).Obj? ==> r == json
  {
    var data := Get(json, "data");
    var entry := Get(data, query);
    if entry.Obj? then
      Obj(json.fields["data" := Obj(data.fields[query := Obj(entry.fields["description" := v])])])
    else
      json
  }

  /** The description's value never reaches the output: two replies that
      differ only in it give the same result. */
  lemma DescriptionValueIgnored(query: string, json: Value, v1: Value, v2: Value, now: string)
    ensures OverviewFromJson(query, WithDescription(json, query, v1), now)
         == OverviewFromJson(query, WithDescription(json, query, v2), now)
  {
    var entry := EntryFor(json, query);
    if entry.Obj? {
      var e1 := EntryFor(WithDescription(json, query, v1), query);
      var e2 := EntryFor(WithDescription(json, query, v2), query);
      assert "description" in e1.fields && "description" in e2.fields;
      assert ("urls" in e1.fields <==> "urls" in e2.fields);
      if "urls" in e1.fields {
        assert e1.fields["urls"] == e2.fields["urls"];
      }
    }
  }

  /** The entry is looked up under the query exactly as typed: a reply keyed
      by "ETH" gives no overview for the query "eth". */
  lemma OverviewKeyIsCaseSensitive(site: string, description: string, now: string)
    ensures OverviewFromJson("eth", ReplyOf("ETH", site, description), now) == Done([])
  {
    assert "eth" != "ETH";
    assert EntryFor(ReplyOf("ETH", site, description), "eth") == Null;
  }

  /** No overview when the entry lists no websites: an empty `website` array. */
  lemma NoWebsiteNoOverview(query: string, now: string)
    ensures OverviewFromJson(query,
      Obj(map["data" := Obj(map[query := Obj(map[
        "description" := Str(""),
        "urls" := Obj(map["website" := Arr([])])])])]), now) == Done([])
  {
    var json := Obj(map["data" := Obj(map[query := Obj(map[
      "description" := Str(""),
      "urls" := Obj(map["website" := Arr([])])])])]);
    var entry := EntryFor(json, query);
    assert "description" in entry.fields && "urls" in entry.fields;
    assert WebsiteOf(entry.fields["urls"]) == Null;
  }

  /** An entry without a description panics, even when it lists a website. */
  lemma MissingDescriptionPanics(query: string, site: string, now: string)
    ensures OverviewFromJson(query,
      Obj(map["data" := Obj(map[query := Obj(map["urls" := Obj(map["website" := Arr([Str(site)])])])])]), now) == Panic
  {
    var json := Obj(map["data" := Obj(map[query := Obj(map["urls" := Obj(map["website" := Arr([Str(site)])])])])]);
    assert "description" !in EntryFor(json, query).fields;
  }

  /** An empty entry object panics rather than giving no overview. */
  lemma EmptyEntryPanics(query: string, now: string)
    ensures OverviewFromJson(query, Obj(map["data" := Obj(map[query := Obj(map[])])]), now) == Panic
  {
    var json := Obj(map["data" := Obj(map[query := Obj(map[])])]);
    assert EntryFor(json, query) == Obj(map[]);
  }
}
