/**
 * The Huobi P2P quote: the `code == 200` check on the fetched reply and the
 * aggregation of the first ten offers into min, max and mean price and the
 * number of offers that accept Alipay and WeChat.
 */
module Huobi {
  import opened Wrappers
  import opened Builtins

  /** Only this many offers, from the front of the list, are aggregated. */
  const MaxOffers: nat := 10

  /** The reply code the venue uses for success. */
  const OkCode: int := 200

  /** The two payment methods that are tallied. */
  const Alipay: string := "Alipay"
  const WeChat: string := "WeChat"

  /** One P2P offer: its price and the names of the payment methods it accepts. */
  datatype Offer = Offer(price: real, payMethods: seq<string>)

  /** The trade side sent as `tradeType`. */
  datatype TradeType = Sell | Buy

  /** The decoded reply of the trade-market request, or what was raised on the way. */
  datatype Response =
    | Reply(code: int, message: string, offers: seq<Offer>)
    | RequestFailed(error: Raised)

  /** What `parse_huobi_p2p_data` returns when there is at least one offer. */
  datatype P2PSummary = P2PSummary(
    minPrice: real,
    maxPrice: real,
    avgPrice: real,
    alipayCount: nat,
    wechatCount: nat)

  /** The `tradeType` parameter of the request. */
  function TradeTypeName(t: TradeType): string
  {
    match t
    case Sell => "sell"
    case Buy => "buy"
  }

  /**
   * `get_huobi_p2p_data` after the request: the reply is handed on only when
   * its code is 200; any other code raises an error that carries the
   * venue's message.
   */
  function GetHuobiP2PData(response: Response): (r: Result<seq<Offer>, Raised>)
    ensures r.Ok? <==> response.Reply? && response.code == OkCode
    ensures r.Ok? ==> r.value == response.offers
    ensures response.Reply? && response.code != OkCode ==>
      r == Err(OtherError("Huobi API Error: " + response.message))
    ensures response.RequestFailed? ==> r == Err(response.error)
  {
    match response
    case RequestFailed(e) => Err(e)
    case Reply(code, message, offers) =>
      if code == OkCode then Ok(offers)
      else Err(OtherError("Huobi API Error: " + message))
  }

  /** `data["data"][:10]`. */
  function FirstOffers(offers: seq<Offer>): (first: seq<Offer>)
    ensures |first| <= MaxOffers && |first| <= |offers|
    ensures first == offers[..|first|]
    ensures |first| == MaxOffers || first == offers
  {
    offers[..if |offers| < MaxOffers then |offers| else MaxOffers]
  }

  /** The prices of a list of offers, in order. */
  function Prices(offers: seq<Offer>): (prices: seq<real>)
    ensures |prices| == |offers|
    ensures forall i :: 0 <= i < |offers| ==> prices[i] == offers[i].price
  {
    if offers == [] then []
    else Prices(offers[..|offers| - 1]) + [offers[|offers| - 1].price]
  }

  /** How many of the offers list the payment method, each offer at most once. */
  function CountAccepting(offers: seq<Offer>, payMethod: string): nat
  {
    if offers == [] then 0
    else
      CountAccepting(offers[..|offers| - 1], payMethod)
        + if payMethod in offers[|offers| - 1].payMethods then 1 else 0
  }

  /** The offers, by position, that list the payment method. */
  function Accepting(offers: seq<Offer>, payMethod: string): set<nat>
  {
    set i: nat | i < |offers| && payMethod in offers[i].payMethods
  }

  /** The tally is the number of offers that list the method. */
  lemma {:induction false} CountAcceptingIsSize(offers: seq<Offer>, payMethod: string)
    ensures CountAccepting(offers, payMethod) == |Accepting(offers, payMethod)|
  {
    if offers != [] {
      var n := |offers| - 1;
      var t := offers[..n];
      CountAcceptingIsSize(t, payMethod);
      if payMethod in offers[n].payMethods {
        assert Accepting(offers, payMethod) == Accepting(t, payMethod) + {n};
      } else {
        assert Accepting(offers, payMethod) == Accepting(t, payMethod);
      }
    }
  }

  /** A tally never exceeds the number of offers it counts over. */
  lemma {:induction false} CountAcceptingBounded(offers: seq<Offer>, payMethod: string)
    ensures CountAccepting(offers, payMethod) <= |offers|
  {
    if offers != [] {
      CountAcceptingBounded(offers[..|offers| - 1], payMethod);
    }
  }

  /** `parse_huobi_p2p_data` as a value: None when there is no offer at all. */
  function SummaryOf(offers: seq<Offer>): Option<P2PSummary>
  {
    var first := FirstOffers(offers);
    var prices := Prices(first);
    if prices == [] then None
    else Some(P2PSummary(
      Min(prices),
      Max(prices),
      Mean(prices),
      CountAccepting(first, Alipay),
      CountAccepting(first, WeChat)))
  }

  /** There is a summary exactly when the venue returned at least one offer. */
  lemma NoSummaryIffNoOffers(offers: seq<Offer>)
    ensures SummaryOf(offers).None? <==> offers == []
  {
  }

  /** Offers from the eleventh on never change the summary. */
  lemma {:induction false} LaterOffersIgnored(offers: seq<Offer>, more: seq<Offer>)
    requires |offers| >= MaxOffers
    ensures SummaryOf(offers + more) == SummaryOf(offers)
  {
    assert FirstOffers(offers + more) == FirstOffers(offers);
  }

  /** Each tally lies between 0 and the smaller of 10 and the number of offers. */
  lemma CountsBounded(offers: seq<Offer>)
    requires SummaryOf(offers).Some?
    ensures SummaryOf(offers).value.alipayCount <= |FirstOffers(offers)|
    ensures SummaryOf(offers).value.wechatCount <= |FirstOffers(offers)|
    ensures |FirstOffers(offers)| <= MaxOffers && |FirstOffers(offers)| <= |offers|
  {
    CountAcceptingBounded(FirstOffers(offers), Alipay);
    CountAcceptingBounded(FirstOffers(offers), WeChat);
  }

  /**
   * min <= mean <= max; the least and greatest are prices of actual offers
   * among the first ten, and every one of those offers lies between them.
   */
  lemma SummaryOrdered(offers: seq<Offer>)
    requires SummaryOf(offers).Some?
    ensures var s := SummaryOf(offers).value;
      && s.minPrice <= s.avgPrice <= s.maxPrice
      && (exists i :: 0 <= i < |FirstOffers(offers)| && offers[i].price == s.minPrice)
      && (exists i :: 0 <= i < |FirstOffers(offers)| && offers[i].price == s.maxPrice)
      && (forall i :: 0 <= i < |FirstOffers(offers)| ==>
            s.minPrice <= offers[i].price <= s.maxPrice)
  {
    var prices := Prices(FirstOffers(offers));
    MeanBetween(prices);
    MinIsLeast(prices);
    MaxIsGreatest(prices);
    var lo :| lo in prices && lo == Min(prices);
    var hi :| hi in prices && hi == Max(prices);
    var i :| 0 <= i < |prices| && prices[i] == lo;
    var j :| 0 <= j < |prices| && prices[j] == hi;
    assert offers[i].price == lo;
    assert offers[j].price == hi;
  }

  /**
   * `parse_huobi_p2p_data`: one pass over the first ten offers collects
   * their prices and tallies Alipay and WeChat; min, max and mean are taken
   * of the collected prices.
   */
  method ParseHuobiP2PData(offers: seq<Offer>) returns (r: Option<P2PSummary>)
    ensures r == SummaryOf(offers)
    ensures r.None? <==> offers == []
  {
    var first := offers[..if |offers| < MaxOffers then |offers| else MaxOffers];
    var prices: seq<real> := [];
    var alipayCount, wechatCount := 0, 0;
    for i := 0 to |first|
      invariant prices == Prices(first[..i])
      invariant alipayCount == CountAccepting(first[..i], Alipay)
      invariant wechatCount == CountAccepting(first[..i], WeChat)
    {
      var offer := first[i];
      assert first[..i + 1][..i] == first[..i];
      prices := prices + [offer.price];
      if Alipay in offer.payMethods {
        alipayCount := alipayCount + 1;
      }
      if WeChat in offer.payMethods {
        wechatCount := wechatCount + 1;
      }
    }
    assert first[..|first|] == first;
    if prices != [] {
      r := Some(P2PSummary(Min(prices), Max(prices), Mean(prices), alipayCount, wechatCount));
    } else {
      r := None;
    }
  }
}
