# Crypto news aggregator: the normalisation core in Dafny

The server answers `GET /news?query=...` by asking two providers about the
query. It asks a news-search API (NewsData.io) and a market-data API
(CoinMarketCap). It turns both replies into one list of `NewsArticle`
records: `{title, url, source, date}`. This project models the pure part of
that request:

- **Ticker resolver** (`Coins`). This is `resolve_coin_name`. Nine tickers,
  in any case, map to display names. Any other input comes back unchanged.
  The news search term is the resolved name, lower-cased.
- **News mapping** (`NewsApi`). This covers what `fetch_newsapi` does after
  the HTTP call. It takes at most the first five entries of `json["results"]`
  and projects each one to an article, with a default for every field.
- **Market overview** (`CoinMarketCap`). This covers what
  `fetch_coinmarketcap` does after the HTTP call. When `json["data"][query]`
  is an object, the code reads its `description` and `urls` members. Both
  reads panic if the member is missing. When both are present and
  `urls.website[0]` is a string, it yields exactly one article titled
  `Overview of <query>`.
- **Merge** (`Aggregator`). This is `fetch_news`: the news list, then the
  overview list. A panic in the market half aborts the whole request, so
  the news list is lost too.

JSON is the `SerdeJson.Value` datatype. `Get` and `At` follow the `Index`
of `serde_json::Value`: a missing key, a value that is not an object or
array, or an index out of range all give `Null`. `MapIndex` follows the
`Index` of `serde_json::Map`, the type `as_object()` returns. It panics on a
missing key, which the model writes as `None`. A computation that can panic
returns a `Completion`: `Done(value)` or `Panic`. Each provider is a
parameter `provider: string -> Response`. It maps the text sent in the
request to what came back:

- `TransportError`: the request failed.
- `Delivered(None)`: the body did not parse. `unwrap_or_default()` turns it
  into `Null`.
- `Delivered(Some(v))`: the body parsed to `v`.

The clock reading for the overview's date is a parameter `now`. Case mapping
is ASCII only (`Ascii`).

Four behaviours of the code worth noting:

- A news entry without a string `source_id` is credited to `"NewsData.io"`.
  The other three fields default to `""` instead.
- The HTTP status is never checked. A non-success reply is parsed like any
  other, and it yields articles if its body happens to have a `results`
  array.
- The market lookup and the overview title use the query exactly as typed.
  So a reply keyed `"ETH"` gives nothing for the query `"eth"`
  (`CoinMarketCap.OverviewKeyIsCaseSensitive`). The news half, in contrast,
  ignores case (`NewsApi.FetchNewsapiIgnoresCase`).
- A market entry that is an object without `description` or `urls` does
  not give an empty list. It panics, and the request produces no articles
  at all (`Aggregator.MissingDescriptionAbortsRequest`).

## Model

| member | source | states |
|---|---|---|
| Ascii.UpperChar | src/main.rs:22 | a lower-case ASCII letter becomes its upper-case letter (code point minus 32); every other character is unchanged |
| Ascii.LowerChar | src/main.rs:45 | an upper-case ASCII letter becomes its lower-case letter (code point plus 32); every other character is unchanged |
| Ascii.ToUpper | src/main.rs:22 | same length as the input; each character is upper-cased on its own |
| Ascii.ToLower | src/main.rs:45 | same length as the input; each character is lower-cased on its own |
| Ascii.UpperCharIffCasing | src/main.rs:22 | a character upper-cases to the letter `t` exactly when it is `t` or its lower-case form |
| Ascii.UpperIffCasing | src/main.rs:22-31 | for an upper-case word `t`, `ToUpper(s) == t` holds exactly when `s` spells `t` with each letter in either case |
| Ascii.LowerOfUpper | src/main.rs:22 | lower-casing after upper-casing is the same as lower-casing alone |
| Ascii.SameUpperSameLower | src/main.rs:45 | two strings that upper-case alike also lower-case alike |
| SerdeJson.Get | src/main.rs:55 | `v[key]` on a `Value` is the member when `v` is an object that has `key`, and `Null` in every other case |
| SerdeJson.At | src/main.rs:88 | `v[i]` is the element when `v` is an array and `i` is in range, and `Null` in every other case |
| SerdeJson.MapIndex | src/main.rs:87-88 | `m[key]` on a `Map` gives the member exactly when `key` is present; otherwise it is `None`, where the code panics |
| SerdeJson.AsStr | src/main.rs:88 | `as_str` is `Some` exactly for strings, and then holds the text |
| SerdeJson.AsArray | src/main.rs:55 | `as_array` is `Some` exactly for arrays, and then holds the elements |
| SerdeJson.AsObject | src/main.rs:86 | `as_object` is `Some` exactly for objects, and then holds the members |
| SerdeJson.StrField | src/main.rs:58-61 | `v[key].as_str().unwrap_or(d)` is the member's text when it is a string; it is `d` when the member is absent or is not a string |
| SerdeJson.BodyOf | src/main.rs:50 | a body that did not parse reads as `Null`; a parsed body reads as itself |
| Coins.TickerName | src/main.rs:22-32 | the nine match arms agree with the ticker table in both directions: an upper-cased input has a name exactly when it is a known ticker, and that name is the table's |
| Coins.ResolveCoinName | src/main.rs:21-34 | a known upper-cased input gives that ticker's name; any other input is returned unchanged, not upper-cased |
| Coins.ResolveAnyCasing | src/main.rs:21-31 | every ASCII casing of a known ticker, such as "eth" or "Eth", resolves to that ticker's name |
| Coins.SearchTerm | src/main.rs:40-45 | the search term is the lower-cased name for a known ticker, and the lower-cased input otherwise |
| Coins.SearchTermIgnoresCase | src/main.rs:40-45 | queries that upper-case alike get the same search term |
| Coins.SearchTermEth | src/main.rs:40-45 | "ETH" and "eth" are searched as "ethereum" |
| Coins.SearchTermFoo | src/main.rs:32-45 | the unknown "Foo" resolves to "Foo" and is searched as "foo" |
| NewsApi.ArticleOf | src/main.rs:57-62 | title, url and date are the `title`, `link` and `pubDate` strings, or "" when absent or not a string; source is `source_id`, or "NewsData.io" when absent or not a string |
| NewsApi.ArticlesOf | src/main.rs:56-63 | one article per entry, in provider order, the i-th made from the i-th entry |
| NewsApi.Take | src/main.rs:56 | `take(n)` is a prefix of length `min(n, len)` |
| NewsApi.NewsFromJson | src/main.rs:50-65 | at most 5 articles; exactly `min(5, len(results))` when `results` is an array, the i-th from `results[i]`; none when `results` is absent or not an array |
| NewsApi.FetchNewsapi | src/main.rs:37-69 | at most 5 articles; none when the request fails or the body does not parse; otherwise the mapping of the reply to the search term |
| NewsApi.ArticleRoundTrip | src/main.rs:57-62 | reading back the entry built from an article gives that article |
| NewsApi.NewsRoundTrip | src/main.rs:55-63 | reading back a reply that lists some articles gives the first five of them, in order |
| NewsApi.MissingFieldsDefault | src/main.rs:58-61 | an entry that is not an object, or that lacks all four members, becomes the article ("", "", "NewsData.io", "") |
| NewsApi.OnlyFirstFiveMatter | src/main.rs:55-56 | two replies whose first five results agree give the same articles |
| NewsApi.FetchNewsapiIgnoresCase | src/main.rs:40-48 | queries that upper-case alike give the same news articles from the same provider |
| CoinMarketCap.OverviewArticle | src/main.rs:89-94 | the title is "Overview of " followed by the raw query; url is the site; source is "CoinMarketCap"; date is the clock reading |
| CoinMarketCap.EntryFor | src/main.rs:86 | `json["data"][query]` is the entry stored under the query exactly as typed, and `Null` when there is none |
| CoinMarketCap.WebsiteOf | src/main.rs:88 | `urls["website"][0]` is the first element of a non-empty `website` array, and `Null` otherwise |
| CoinMarketCap.OverviewFromJson | src/main.rs:84-97 | panics exactly when `data[query]` is an object lacking `description` or `urls`; otherwise at most one article, exactly one when the entry has both members and `urls.website[0]` is a string, and then it is that site's overview |
| CoinMarketCap.FetchCoinMarketCap | src/main.rs:71-101 | at most one article when it completes; none when the request fails or the body does not parse; otherwise the overview extracted for the raw query, panic included |
| CoinMarketCap.OverviewRoundTrip | src/main.rs:86-94 | a reply listing a site for the query yields exactly that overview, whatever the description |
| CoinMarketCap.DescriptionValueIgnored | src/main.rs:87-95 | two replies that differ only in the value of the entry's `description` give the same result |
| CoinMarketCap.OverviewKeyIsCaseSensitive | src/main.rs:86 | a reply keyed "ETH" gives no overview for the query "eth" |
| CoinMarketCap.NoWebsiteNoOverview | src/main.rs:88 | an entry with a description and an empty website list gives no overview, without panicking |
| CoinMarketCap.MissingDescriptionPanics | src/main.rs:87 | an entry without `description` panics even when it lists a website |
| CoinMarketCap.EmptyEntryPanics | src/main.rs:86-87 | an empty entry object panics rather than giving no overview |
| Aggregator.FetchNews | src/main.rs:103-115 | panics exactly when the market half panics; otherwise at most 6 articles, the news list is a prefix, and the rest is the overview list |
| Aggregator.OverviewIsLast | src/main.rs:111-112 | when there is an overview, it is the last element and everything before it is the news list; it is titled after the raw query, credited to CoinMarketCap and dated with the clock reading |
| Aggregator.FailuresAreIndependent | src/main.rs:106-112 | a failed news request leaves only the market half's result; a failed market request leaves only the news; both failing give `[]` |
| Aggregator.MissingDescriptionAbortsRequest | src/main.rs:86-87 | a market reply whose entry lacks `description` aborts the whole request, whatever the news provider answered |
| Aggregator.EthScenario | src/main.rs:103-114 | a news reply of up to five articles for "ethereum" and a market reply for "ETH" give those articles in order, then "Overview of ETH" |
| Aggregator.BothFailScenario | src/main.rs:103-114 | both providers failing for "XYZ" give the empty list |

## Left out

- HTTP transport (`reqwest::get`, `Client::send`, `response.json()`) is left out; it is foreign I/O. Its outcome is the `Response` parameter.
- Building the request URL, query string and API-key header is left out; that is string I/O for the transport. Only the search term is modelled.
- Reading `NEWSAPI_KEY` and `COINMARKETCAP_API_KEY`, and the panic when either is missing, are left out; they are process configuration.
- `tokio::join!` concurrency is left out. The merged result does not depend on which call finishes first, so the calls are evaluated in sequence.
- `chrono::Utc::now().to_rfc3339()` is left out; it reads the wall clock. The date is the opaque `now` parameter.
- The unused `desc` read is left out as a value. Its value has no effect (`CoinMarketCap.DescriptionValueIgnored`); its absence aborts the request (`CoinMarketCap.MissingDescriptionPanics`).
- What axum and hyper do once a handler panics is left out; it is framework I/O. The model stops at `Panic`: the request yields no article list.
- Ascii.ToUpper: ASCII only. Rust's Unicode upper-casing also maps some non-ASCII letters to ASCII ones ('ſ' becomes 'S', so "ſol" would resolve to "Solana"); the model does not.
- Ascii.ToLower: ASCII only, for the same reason.
- JSON numbers are whole numbers here (`Num(int)`). The core only asks whether a value is a string, array or object, so floats make no difference.
- The axum routes, the static pages, their content types and the bind address are left out; they are I/O. The same goes for the browser script in `static/script.js`.
