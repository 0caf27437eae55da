/**
 * The inline-query classifier: the query is lower-cased and compared with
 * "btc" and "eth"; every answer holds exactly one article and asks the
 * client to cache it for one second.
 */
module Inline {

  /** What a query asks for. */
  datatype Query = Btc | Eth | Unknown

  /** One article of an inline answer, known by its id. */
  datatype Article = Article(id: string)

  /** The articles of an inline answer and its cache time in seconds. */
  datatype Answer = Answer(results: seq<Article>, cacheTime: int)

  /** The cache hint every inline answer carries. */
  const CacheTime: int := 1

  /** `str.lower` on one character; only A-Z are changed. */
  function LowerChar(c: char): char
  {
    if 'A' <= c <= 'Z' then (c as int - 'A' as int + 'a' as int) as char else c
  }

  /** `str.lower`, character by character. */
  function Lower(s: string): (r: string)
    ensures |r| == |s|
    ensures forall i :: 0 <= i < |s| ==> r[i] == LowerChar(s[i])
  {
    if s == [] then [] else [LowerChar(s[0])] + Lower(s[1..])
  }

  /** Lower-casing twice is lower-casing once. */
  lemma LowerIdempotent(s: string)
    ensures Lower(Lower(s)) == Lower(s)
  {
  }

  /** The branch `inline_mode_handler` takes for a query. */
  function Classify(query: string): (q: Query)
  {
    var lowered := Lower(query);
    if lowered == "btc" then Btc
    else if lowered == "eth" then Eth
    else Unknown
  }

  /** Upper and lower case are not told apart. */
  lemma {:induction false} ClassifyIgnoresCase(query: string)
    ensures Classify(Lower(query)) == Classify(query)
  {
    LowerIdempotent(query);
  }

  /** Exactly the eight spellings of "btc" in either case select BTC. */
  lemma {:induction false} BtcSpellings(query: string)
    ensures Classify(query) == Btc <==>
      |query| == 3 && query[0] in "bB" && query[1] in "tT" && query[2] in "cC"
  {
    var lowered := Lower(query);
    if |query| == 3 && query[0] in "bB" && query[1] in "tT" && query[2] in "cC" {
      assert lowered == "btc";
    }
  }

  /** Exactly the eight spellings of "eth" in either case select ETH. */
  lemma {:induction false} EthSpellings(query: string)
    ensures Classify(query) == Eth <==>
      |query| == 3 && query[0] in "eE" && query[1] in "tT" && query[2] in "hH"
  {
    var lowered := Lower(query);
    if |query| == 3 && query[0] in "eE" && query[1] in "tT" && query[2] in "hH" {
      assert lowered == "eth";
    }
  }

  /**
   * The answer to a query: article "1" for BTC and "2" for ETH when the
   * ticker was read, article "error" when reading it raised, and the single
   * "unknown" article for any other query.
   */
  function AnswerQuery(query: string, tickerRead: bool): (a: Answer)
    ensures a.cacheTime == CacheTime && |a.results| == 1
    ensures a.results[0].id == "1" <==> Classify(query) == Btc && tickerRead
    ensures a.results[0].id == "2" <==> Classify(query) == Eth && tickerRead
    ensures a.results[0].id == "unknown" <==> Classify(query) == Unknown
    ensures a.results[0].id == "error" <==> Classify(query) != Unknown && !tickerRead
  {
    var id := match Classify(query)
      case Btc => if tickerRead then "1" else "error"
      case Eth => if tickerRead then "2" else "error"
      case Unknown => "unknown";
    Answer([Article(id)], CacheTime)
  }

  /** The spot symbol whose ticker a recognised query reads. */
  function TickerSymbol(q: Query): string
    requires q != Unknown
  {
    if q == Btc then "BTCUSDT" else "ETHUSDT"
  }
}
