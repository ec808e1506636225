/**
 The ticker resolver (`resolve_coin_name`) and the news search term built
 from it.
 */
module Coins {
  import opened Wrappers
  import opened Ascii

  /** The nine known tickers and the display names they resolve to, as a
      table. `TickerName` below is the source's `match`, and its contract
      ties the two together. */
  const CoinNames: map<string, string> := map[
    "BTC" := "Bitcoin",
    "ETH" := "Ethereum",
    "BNB" := "Binance Coin",
    "ADA" := "Cardano",
    "DOGE" := "Dogecoin",
    "XRP" := "Ripple",
    "SOL" := "Solana",
    "DOT" := "Polkadot",
    "AVAX" := "Avalanche"
  ]

  /** The arms of the source's `match` on the upper-cased symbol: a name for
      each of the nine tickers, none for anything else. */
  function TickerName(upper: string): (r: Option<string>)
    ensures r.Some? <==> upper in CoinNames
    ensures r.Some? ==> r.value == CoinNames[upper]
  {
    match upper
    case "BTC" => Some("Bitcoin")
    case "ETH" => Some("Ethereum")
    case "BNB" => Some("Binance Coin")
    case "ADA" => Some("Cardano")
    case "DOGE" => Some("Dogecoin")
    case "XRP" => Some("Ripple")
    case "SOL" => Some("Solana")
    case "DOT" => Some("Polkadot")
    case "AVAX" => Some("Avalanche")
    case _ => None
  }

  /** `resolve_coin_name`: the display name of a known ticker in any case,
      otherwise the input exactly as given (not upper-cased). */
  function ResolveCoinName(symbol: string): (r: string)
    ensures ToUpper(symbol) in CoinNames ==> r == CoinNames[ToUpper(symbol)]
    ensures ToUpper(symbol) !in CoinNames ==> r == symbol
  {
    match TickerName(ToUpper(symbol))
    case Some(name) => name
    case None => symbol
  }

  /** The term the news provider is asked for: the resolved name,
      lower-cased. That is the lower-cased name of a known ticker, and the
      lower-cased input itself otherwise. */
  function SearchTerm(query: string): (r: string)
    ensures ToUpper(query) in CoinNames ==> r == ToLower(CoinNames[ToUpper(query)])
    ensures ToUpper(query) !in CoinNames ==> r == ToLower(query)
  {
    ToLower(ResolveCoinName(query))
  }

  /** Every key of the table is an upper-case word. */
  lemma TickersAreUpperWords(t: string)
    requires t in CoinNames
    ensures IsUpperWord(t)
  {
  }

  /** Any ASCII casing of a known ticker ("eth", "Eth", "eTH", ...) resolves
      to that ticker's name. */
  lemma ResolveAnyCasing(symbol: string, ticker: string)
    requires ticker in CoinNames
    requires IsCasingOf(symbol, ticker)
    ensures ResolveCoinName(symbol) == CoinNames[ticker]
  {
    TickersAreUpperWords(ticker);
    UpperIffCasing(symbol, ticker);
  }

  /** The search term ignores the case of the query, for known and unknown
      inputs alike. */
  lemma SearchTermIgnoresCase(q1: string, q2: string)
    requires ToUpper(q1) == ToUpper(q2)
    ensures SearchTerm(q1) == SearchTerm(q2)
  {
    if ToUpper(q1) !in CoinNames {
      SameUpperSameLower(q1, q2);
    }
  }

  /** "ETH", in either of its two common spellings, is searched as "ethereum". */
  lemma SearchTermEth(query: string)
    requires query == "ETH" || query == "eth"
    ensures SearchTerm(query) == "ethereum"
  {
    EthUpperCases();
    EthereumLowerCase();
  }

  /** The unknown "Foo" resolves to itself and is searched as "foo". */
  lemma SearchTermFoo()
    ensures ResolveCoinName("Foo") == "Foo"
    ensures SearchTerm("Foo") == "foo"
  {
  }

  /** "ETH" and "eth" both upper-case to "ETH". */
  lemma EthUpperCases()
    ensures ToUpper("ETH") == "ETH"
    ensures ToUpper("eth") == "ETH"
  {
  }

  /** "Ethereum" lower-cases to "ethereum". */
  lemma EthereumLowerCase()
    ensures ToLower("Ethereum") == "ethereum"
  {
    var l := ToLower("Ethereum");
    assert l[0] == 'e';
    assert l == "ethereum";
  }
}
