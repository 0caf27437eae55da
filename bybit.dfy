/**
 * The Bybit P2P quote inside `process_amount`: every returned item's price
 * is converted, in order, and the max, min and mean are taken of the lot.
 */
module Bybit {
  import opened Wrappers
  import opened Builtins

  /** The smallest amount, in roubles, that is sent to the venue. */
  const MinAmount: real := 1000.0

  /** What `float(item['price'])` meets in one item. */
  datatype ItemPrice =
    | Numeric(value: real)  // a string that converts
    | NotNumeric            // a string that does not: ValueError
    | Absent                // no `price` key: KeyError

  /** The decoded reply of the item listing, or what was raised on the way. */
  datatype Response =
    | Items(items: seq<ItemPrice>)  // `result.items` is present
    | NoItems                       // `result` or `result.items` is missing
    | RequestFailed(error: Raised)

  /** The three figures shown for a side. */
  datatype Rates = Rates(maxPrice: real, minPrice: real, avgPrice: real)

  /** The message `KeyError('price')` carries. */
  const MissingPriceKey: string := "'price'"

  /** The exception `float(item['price'])` raises on an item that does not convert. */
  function ConversionError(p: ItemPrice): Raised
    requires !p.Numeric?
  {
    if p.NotNumeric? then ValueError else OtherError(MissingPriceKey)
  }

  /** Item k is the first whose price does not convert. */
  predicate FirstFailure(items: seq<ItemPrice>, k: int)
  {
    0 <= k < |items| && !items[k].Numeric? && forall j :: 0 <= j < k ==> items[j].Numeric?
  }

  /**
   * The prices of all items, or the exception raised by the first item
   * whose price does not convert.
   */
  function ConvertedPrices(items: seq<ItemPrice>): (r: Result<seq<real>, Raised>)
    ensures r.Ok? <==> forall i :: 0 <= i < |items| ==> items[i].Numeric?
    ensures r.Ok? ==> |r.value| == |items|
    ensures r.Ok? ==> forall i :: 0 <= i < |items| ==> r.value[i] == items[i].value
    ensures r.Err? ==> exists k :: FirstFailure(items, k) && r.error == ConversionError(items[k])
  {
    if items == [] then Ok([])
    else if !items[0].Numeric? then Err(ConversionError(items[0]))
    else
      match ConvertedPrices(items[1..])
      case Ok(rest) => Ok([items[0].value] + rest)
      case Err(e) => Err(e)
  }

  /**
   * `max(prices)`, `min(prices)` and `sum(prices) / len(prices)`; on an
   * empty list `max` raises ValueError.
   */
  function RatesOf(prices: seq<real>): (r: Result<Rates, Raised>)
    ensures r.Err? <==> prices == []
    ensures r.Err? ==> r.error == ValueError
    ensures r.Ok? ==> r.value.minPrice <= r.value.avgPrice <= r.value.maxPrice
    ensures r.Ok? ==> r.value.minPrice in prices && r.value.maxPrice in prices
    ensures r.Ok? ==> forall i :: 0 <= i < |prices| ==>
      r.value.minPrice <= prices[i] <= r.value.maxPrice
  {
    if prices == [] then Err(ValueError)
    else
      MeanBetween(prices);
      MinIsLeast(prices);
      MaxIsGreatest(prices);
      Ok(Rates(Max(prices), Min(prices), Mean(prices)))
  }

  /** The rates of a listing: converted prices first, then the three figures. */
  function RatesOfItems(items: seq<ItemPrice>): Result<Rates, Raised>
  {
    match ConvertedPrices(items)
    case Err(e) => Err(e)
    case Ok(prices) => RatesOf(prices)
  }

  /** An empty listing raises ValueError from `max`, as a bad price does. */
  lemma EmptyListingIsValueError()
    ensures RatesOfItems([]) == Err(ValueError)
  {
  }

  /**
   * When the rates come out, every item was used: the mean is the sum of
   * all the prices over their number, and each price lies between min and max.
   */
  lemma {:induction false} RatesUseEveryItem(items: seq<ItemPrice>)
    requires RatesOfItems(items).Ok?
    ensures items != [] && forall i :: 0 <= i < |items| ==> items[i].Numeric?
    ensures var prices := ConvertedPrices(items).value;
      && prices == seq(|items|, i requires 0 <= i < |items| => items[i].value)
      && RatesOfItems(items).value.avgPrice == Sum(prices) / |items| as real
  {
  }

  /**
   * The loop of `process_amount`: one price per item, in order, stopping at
   * the first item whose price raises.
   */
  method CollectPrices(items: seq<ItemPrice>) returns (r: Result<seq<real>, Raised>)
    ensures r == ConvertedPrices(items)
  {
    var prices: seq<real> := [];
    for i := 0 to |items|
      invariant |prices| == i
      invariant forall j :: 0 <= j < i ==> items[j].Numeric? && prices[j] == items[j].value
    {
      match items[i]
      case NotNumeric =>
        return Err(ValueError);
      case Absent =>
        return Err(OtherError(MissingPriceKey));
      case Numeric(price) =>
        prices := prices + [price];
    }
    assert ConvertedPrices(items).value == prices;
    return Ok(prices);
  }
}
