/**
 * The star price calculator: the TON/RUB reference price built from two
 * exchange tickers, and the price of one star derived from it and a
 * user-chosen TON-per-100-stars ratio.
 */
module Stars {
  import opened Builtins

  /** The fixed price of one star the result is compared against. */
  const StandardPricePerStar: real := 1.65

  /** `calculate_star_price` prices this many stars unless told otherwise. */
  const DefaultStarsCount: int := 100

  /** Every error text of this module begins with this word ("Error"). */
  const ErrorWord: string := "Ошибка"

  /** The reasons given when a ticker has no price ("could not get the price of ..."). */
  const MissingTonUsdt: string := "Не удалось получить цену TON/USDT"
  const MissingUsdtRub: string := "Не удалось получить цену USDT/RUB"

  /** What one ticker request's `.json().get("price")` gives, and what `float` makes of it. */
  datatype TickerPrice =
    | Price(value: real)            // a field that converts to a float
    | Unconvertible(reason: string) // a non-empty field `float` refuses, with the ValueError's text
    | Missing                       // no price field, or an empty one
    | Failed(reason: string)        // the request itself raised

  /** `get_ton_rub_price` returns a float, or an error string in its place. */
  datatype TonRubPrice = TonRub(price: real) | TonRubError(text: string)

  /** The five figures `calculate_star_price` returns in its dictionary. */
  datatype StarPrice = StarPrice(
    starPrice: real,
    totalPrice: real,
    standardPrice: real,
    priceDifference: real,
    tonPrice: real)

  /** A dictionary of figures, or the error string returned in its place. */
  datatype Calculation = Calculated(figures: StarPrice) | CalculationError(text: string)

  /** a lies within half a hundredth of b. */
  predicate Near(a: real, b: real)
  {
    -0.005 <= a - b <= 0.005
  }

  /** a is a whole number of hundredths and no farther than half a hundredth from b. */
  predicate NearestHundredth(a: real, b: real)
  {
    Near(a, b) && (a * 100.0).Floor as real == a * 100.0
  }

  /** The text `get_ton_rub_price` returns for an exception. */
  function ErrorText(reason: string): (text: string)
    ensures StartsWith(text, ErrorWord)
  {
    ErrorWord + ": " + reason
  }

  /**
   * The TON/RUB price: TON/USDT times USDT/RUB, rounded to hundredths. The
   * USDT/RUB ticker is only asked for once TON/USDT has been read, and
   * both fields are converted only after both are read; any failure comes
   * back as a string that starts with the error word.
   */
  function GetTonRubPrice(tonUsdt: TickerPrice, usdtRub: TickerPrice): (r: TonRubPrice)
    ensures r.TonRub? <==> tonUsdt.Price? && usdtRub.Price?
    ensures r.TonRub? ==> NearestHundredth(r.price, tonUsdt.value * usdtRub.value)
    ensures r.TonRubError? ==> StartsWith(r.text, ErrorWord)
    ensures (tonUsdt.Price? || tonUsdt.Unconvertible?) && usdtRub.Missing? ==>
      r == TonRubError(ErrorText(MissingUsdtRub))
    ensures tonUsdt.Missing? ==> r == TonRubError(ErrorText(MissingTonUsdt))
  {
    if tonUsdt.Missing? then TonRubError(ErrorText(MissingTonUsdt))
    else if tonUsdt.Failed? then TonRubError(ErrorText(tonUsdt.reason))
    else if usdtRub.Missing? then TonRubError(ErrorText(MissingUsdtRub))
    else if usdtRub.Failed? then TonRubError(ErrorText(usdtRub.reason))
    else if tonUsdt.Unconvertible? then TonRubError(ErrorText(tonUsdt.reason))
    else if usdtRub.Unconvertible? then TonRubError(ErrorText(usdtRub.reason))
    else TonRub(Round2(tonUsdt.value * usdtRub.value))
  }

  /**
   * The figures before rounding: what all the stars cost, what one costs,
   * what they would cost at the standard price, and how far one star is
   * below the standard price.
   */
  function Unrounded(tonPrice: real, ratio: real, starsCount: int): (e: StarPrice)
    requires starsCount != 0
    ensures e.totalPrice == tonPrice * ratio
    ensures e.starPrice * starsCount as real == e.totalPrice
    ensures e.starPrice + e.priceDifference == StandardPricePerStar
    ensures e.standardPrice == StandardPricePerStar * starsCount as real
    ensures e.tonPrice == tonPrice
  {
    var total := tonPrice * ratio;
    var star := total / starsCount as real;
    StarPrice(star, total, StandardPricePerStar * starsCount as real, StandardPricePerStar - star, tonPrice)
  }

  /**
   * `calculate_star_price`: each figure is rounded once, on the way out,
   * from its exact value; a star count of zero makes the division raise,
   * and the error text is returned in place of the figures.
   */
  function CalculateStarPrice(tonPrice: real, ratio: real, starsCount: int): (r: Calculation)
    ensures r.CalculationError? <==> starsCount == 0
    ensures r.CalculationError? ==> StartsWith(r.text, ErrorWord)
    ensures r.Calculated? ==>
      && NearestHundredth(r.figures.starPrice, tonPrice * ratio / starsCount as real)
      && NearestHundredth(r.figures.totalPrice, tonPrice * ratio)
      && NearestHundredth(r.figures.standardPrice, StandardPricePerStar * starsCount as real)
      && NearestHundredth(r.figures.priceDifference, StandardPricePerStar - tonPrice * ratio / starsCount as real)
      && NearestHundredth(r.figures.tonPrice, tonPrice)
  {
    if starsCount == 0 then
      CalculationError(ErrorWord + " расчета: float division by zero")
    else
      var e := Unrounded(tonPrice, ratio, starsCount);
      Calculated(StarPrice(
        Round2(e.starPrice),
        Round2(e.totalPrice),
        Round2(e.standardPrice),
        Round2(e.priceDifference),
        Round2(e.tonPrice)))
  }

  /** At the default of 100 stars the standard price is 165 roubles. */
  lemma StandardPriceOfHundredStars(tonPrice: real, ratio: real)
    ensures CalculateStarPrice(tonPrice, ratio, DefaultStarsCount).Calculated?
    ensures CalculateStarPrice(tonPrice, ratio, DefaultStarsCount).figures.standardPrice == 165.0
  {
    Round2Exact(165.0);
  }

  /** A worked example: TON at 350 roubles and 0.46 TON per 100 stars. */
  lemma WorkedExample()
    ensures CalculateStarPrice(350.0, 0.46, DefaultStarsCount)
         == Calculated(StarPrice(1.61, 161.0, 165.0, 0.04, 350.0))
  {
    Round2Exact(1.61);
    Round2Exact(161.0);
    Round2Exact(165.0);
    Round2Exact(0.04);
    Round2Exact(350.0);
  }
}
