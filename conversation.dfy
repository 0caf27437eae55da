/**
 * The per-user conversation: the FSM state and data the handlers keep, the
 * order in which the dispatcher offers an update to the handlers, and what
 * each handler does to the state, asks of the venues and shows the user.
 * Venue replies are inputs: one `Upstream` holds what each request would
 * return for the update at hand.
 */
module Conversation {
  import opened Wrappers
  import opened Builtins
  import Stars
  import Bybit
  import Huobi
  import Inline

  /** `Form.stars_ratio`, `Form.amount` and the two `HuobiState` states, or none. */
  datatype FormState = NoState | StarsRatio | Amount | HuobiSell | HuobiBuy

  /** A value stored in the FSM data: the recorded action or the menu message id. */
  datatype Value = Str(s: string) | Num(n: int)

  /** The data keys the handlers write. */
  const ActionKey: string := "action"
  const MenuKey: string := "menu_message_id"

  /** The two values the Bybit buttons record under `action`. */
  const BuyAction: string := "buy"
  const SellAction: string := "sell"

  /** The smallest amount, in yuan, that is sent to Huobi. */
  const HuobiMinAmount: real := 100.0

  /** One user's FSM context: its state and its data. */
  datatype Context = Context(state: FormState, data: map<string, Value>)

  /** What `state.clear()` leaves: no state and no data. */
  const Cleared: Context := Context(NoState, map[])

  /** The text of a message, as far as the filters and `float(message.text)` see it. */
  datatype Text =
    | StartText                   // `/start`, matched by `CommandStart()`
    | NumberText(value: real)     // text `float` accepts
    | OtherText(isCommand: bool)  // text `float` refuses; a command starts with "/"
    | NoText                      // a message without text: `float(None)` raises TypeError
    | CaptionStart                // no text, but a caption `CommandStart()` reads as `/start`

  /** The inline buttons, each with the `callback_data` it carries. */
  datatype Button =
    | BybitButton        // "bybit"
    | HuobiButton        // "huobi"
    | StarsButton        // "stars"
    | BackButton         // "back"
    | BtcUsdtButton      // "btcusdt"
    | EthUsdtButton      // "ethusdt"
    | UsdtBuyRubButton   // "usdtbuyrub"
    | UsdtRubSellButton  // "usdtrubsell"
    | UsdtCnyBuyButton   // "usdtcnybuy"
    | UsdtCnySellButton  // "usdtcnysell"
    | UnknownButton      // any other data, which no handler takes

  /** An update as the dispatcher receives it. */
  datatype Event =
    | Message(text: Text)
    | Press(button: Button, messageId: int)  // the id of the message the button belongs to
    | Query(query: string)

  /** What every venue request made while handling one update would return. */
  datatype Upstream = Upstream(
    tonUsdt: Stars.TickerPrice,
    usdtRub: Stars.TickerPrice,
    bybit: Bybit.Response,
    huobi: Huobi.Response,
    tickerRead: bool)

  /** The handler an update reaches, named after the function that implements it. */
  datatype Handler =
    | StartCommand
    | StarsCallback
    | ProcessStarsRatio
    | BybitCallback
    | BackCallback
    | TickerCallback(symbol: string)
    | UsdtRubCallback(action: string)
    | ProcessAmount
    | HandleAnyMessage
    | HuobiCallback
    | UsdtCnyCallback(tradeType: Huobi.TradeType)
    | HuobiAmount(tradeType: Huobi.TradeType)
    | InlineModeHandler
    | NoHandler

  /** The venue request a handler makes. */
  datatype Request =
    | NoRequest
    | TonRubRequest                                    // the two Binance tickers
    | BybitRequest(side: string, amount: real)         // the P2P item listing
    | HuobiRequest(tradeType: string, amount: real)    // the trade-market listing
    | TickerRequest(symbol: string)                    // a Bybit spot ticker

  /** What an edited Huobi menu message shows below its title. */
  datatype HuobiBody =
    | HuobiSummary(summary: Huobi.P2PSummary)
    | NoOffers
    | HuobiRetry                 // "enter a correct amount (from 100)"
    | HuobiFailed(reason: string)

  /** What the user is shown. */
  datatype Reply =
    | NoReply
    | MainMenu
    | BybitMenu
    | HuobiMenu
    | StarsPrompt
    | StarsResult(calculation: Stars.Calculation, tonPrice: real)
    | TonRubFailed(text: string)
    | NotANumber                 // the stars flow asks for a correct number
    | AmountPrompt(action: string)
    | BelowMinimum
    | NotAnAmount                // the Bybit flow asks for a correct amount
    | BybitRates(action: string, rates: Bybit.Rates)
    | DataNotFound
    | Failed(text: string)
    | Ticker(symbol: string, read: bool)
    | HuobiPrompt(tradeType: Huobi.TradeType)
    | HuobiEdit(messageId: Option<Value>, tradeType: Huobi.TradeType, body: HuobiBody)
    | InlineAnswer(answer: Inline.Answer)

  /** The new context, the request made and the reply shown. */
  datatype Outcome = Outcome(next: Context, request: Request, reply: Reply)

  /** The prefixes of the error messages of the stars and the Bybit flows. */
  const StarsFailurePrefix: string := "⚠ Ошибка: "
  const AmountFailurePrefix: string := "⚠ Error: "

  /** The message has no text, so `F.text` refuses it and `float(message.text)` raises. */
  predicate WithoutText(t: Text)
  {
    t == NoText || t == CaptionStart
  }

  /** `CommandStart()` accepts it: it reads the text, or the caption when there is no text. */
  predicate IsStart(t: Text)
  {
    t == StartText || t == CaptionStart
  }

  /** What `float(None)` raises, as `str(e)` shows it. */
  const NoTextReason: string := "float() argument must be a string or a real number, not 'NoneType'"

  /** What `action.upper()` raises when no action was recorded. */
  const NoActionReason: string := "'NoneType' object has no attribute 'upper'"

  /** The value stored under a key, if any: `data.get(key)`. */
  function Get(data: map<string, Value>, key: string): Option<Value>
  {
    if key in data then Some(data[key]) else None
  }

  /** The state a Huobi trade side waits in. */
  function WaitingState(t: Huobi.TradeType): FormState
  {
    if t == Huobi.Sell then HuobiSell else HuobiBuy
  }

  /**
   * The handler an update reaches. The Huobi router is included first, so
   * its handlers are tried first; within a router, handlers are tried in the
   * order they were registered and the first whose filters pass takes the
   * update. Message handlers with no state filter match in every state.
   */
  function Route(state: FormState, ev: Event): Handler
  {
    match ev
    case Message(t) =>
      if state == HuobiSell then HuobiAmount(Huobi.Sell)
      else if state == HuobiBuy then HuobiAmount(Huobi.Buy)
      else if IsStart(t) then StartCommand
      else if state == StarsRatio then ProcessStarsRatio
      else if state == Amount then ProcessAmount
      else if !WithoutText(t) then HandleAnyMessage
      else NoHandler
    case Press(b, _) =>
      (match b
      case HuobiButton => HuobiCallback
      case UsdtCnySellButton => UsdtCnyCallback(Huobi.Sell)
      case UsdtCnyBuyButton => UsdtCnyCallback(Huobi.Buy)
      case StarsButton => StarsCallback
      case BybitButton => BybitCallback
      case BackButton => BackCallback
      case BtcUsdtButton => TickerCallback("BTCUSDT")
      case EthUsdtButton => TickerCallback("ETHUSDT")
      case UsdtBuyRubButton => UsdtRubCallback(BuyAction)
      case UsdtRubSellButton => UsdtRubCallback(SellAction)
      case UnknownButton => NoHandler)
    case Query(_) => InlineModeHandler
  }

  /** `stars_callback`: prompt for the ratio and enter `Form.stars_ratio`, data kept. */
  function OnStarsButton(c: Context): Outcome
  {
    Outcome(Context(StarsRatio, c.data), NoRequest, StarsPrompt)
  }

  /**
   * `process_stars_ratio`: a number fetches the TON/RUB price and, whether
   * that fails or the price is computed, the state is cleared; text that is
   * not a number re-prompts and keeps the state; a message without text
   * raises TypeError, reported, and the state is cleared.
   */
  function OnStarsRatio(c: Context, t: Text, up: Upstream): Outcome
  {
    match t
    case NumberText(ratio) =>
      (match Stars.GetTonRubPrice(up.tonUsdt, up.usdtRub)
       case TonRubError(text) => Outcome(Cleared, TonRubRequest, TonRubFailed(text))
       case TonRub(price) =>
         Outcome(Cleared, TonRubRequest,
           StarsResult(Stars.CalculateStarPrice(price, ratio, Stars.DefaultStarsCount), price)))
    case NoText | CaptionStart => Outcome(Cleared, NoRequest, Failed(StarsFailurePrefix + NoTextReason))
    case _ => Outcome(c, NoRequest, NotANumber)
  }

  /** `usdtbuyrub_callback` and `usdtrubsell_callback`: enter `Form.amount` and record the action. */
  function OnUsdtRubButton(c: Context, action: string): Outcome
  {
    Outcome(Context(Amount, c.data[ActionKey := Str(action)]), NoRequest, AmountPrompt(action))
  }

  /** The Bybit `side`: "1" for a recorded "buy", "0" for anything else. */
  function Side(action: Option<Value>): string
  {
    if action == Some(Str(BuyAction)) then "1" else "0"
  }

  /**
   * `process_amount`: below 1000 it re-prompts before anything else; from
   * 1000 on it asks for the listing with the side of the recorded action.
   * A ValueError anywhere (text that is not a number, a JSON-typed reply
   * whose body does not decode, a price that does not convert, `max` of no
   * prices) re-prompts and keeps the state; every other path clears it,
   * among them a reply whose content type is not JSON, for which `json()`
   * raises an error that is not a ValueError.
   */
  function OnAmount(c: Context, t: Text, up: Upstream): Outcome
  {
    match t
    case NumberText(amount) =>
      if amount < Bybit.MinAmount then Outcome(c, NoRequest, BelowMinimum)
      else
        var action := Get(c.data, ActionKey);
        var request := BybitRequest(Side(action), amount);
        (match up.bybit
         case RequestFailed(ValueError) => Outcome(c, request, NotAnAmount)
         case RequestFailed(OtherError(reason)) =>
           Outcome(Cleared, request, Failed(AmountFailurePrefix + reason))
         case NoItems => Outcome(Cleared, request, DataNotFound)
         case Items(items) =>
           match Bybit.RatesOfItems(items)
           case Err(ValueError) => Outcome(c, request, NotAnAmount)
           case Err(OtherError(reason)) => Outcome(Cleared, request, Failed(AmountFailurePrefix + reason))
           case Ok(rates) =>
             match action
             case Some(Str(a)) => Outcome(Cleared, request, BybitRates(a, rates))
             case _ => Outcome(Cleared, request, Failed(AmountFailurePrefix + NoActionReason)))
    case NoText | CaptionStart => Outcome(Cleared, NoRequest, Failed(AmountFailurePrefix + NoTextReason))
    case _ => Outcome(c, NoRequest, NotAnAmount)
  }

  /**
   * `usdtcnysell_callback` and `usdtcnybuy_callback`: record the id of the
   * menu message and wait for an amount on that side.
   */
  function OnUsdtCnyButton(c: Context, tradeType: Huobi.TradeType, messageId: int): Outcome
  {
    Outcome(Context(WaitingState(tradeType), c.data[MenuKey := Num(messageId)]), NoRequest, HuobiPrompt(tradeType))
  }

  /**
   * `handle_huobi_sell_amount` and `handle_huobi_buy_amount`: every reply
   * edits the recorded menu message. Below 100 the handler returns before
   * fetching and before clearing; every other exit clears the state.
   */
  function OnHuobiAmount(c: Context, tradeType: Huobi.TradeType, t: Text, up: Upstream): Outcome
  {
    var menu := Get(c.data, MenuKey);
    match t
    case NumberText(amount) =>
      if amount < HuobiMinAmount then Outcome(c, NoRequest, HuobiEdit(menu, tradeType, HuobiRetry))
      else
        var request := HuobiRequest(Huobi.TradeTypeName(tradeType), amount);
        (match Huobi.GetHuobiP2PData(up.huobi)
         case Err(ValueError) => Outcome(Cleared, request, HuobiEdit(menu, tradeType, HuobiRetry))
         case Err(OtherError(reason)) => Outcome(Cleared, request, HuobiEdit(menu, tradeType, HuobiFailed(reason)))
         case Ok(offers) =>
           match Huobi.SummaryOf(offers)
           case None => Outcome(Cleared, request, HuobiEdit(menu, tradeType, NoOffers))
           case Some(s) => Outcome(Cleared, request, HuobiEdit(menu, tradeType, HuobiSummary(s))))
    case NoText | CaptionStart => Outcome(Cleared, NoRequest, HuobiEdit(menu, tradeType, HuobiFailed(NoTextReason)))
    case _ => Outcome(Cleared, NoRequest, HuobiEdit(menu, tradeType, HuobiRetry))
  }

  /** `inline_mode_handler`: a recognised query reads its ticker; the FSM is not involved. */
  function OnInlineQuery(c: Context, query: string, up: Upstream): Outcome
  {
    var q := Inline.Classify(query);
    var request := if q == Inline.Unknown then NoRequest else TickerRequest(Inline.TickerSymbol(q));
    Outcome(c, request, InlineAnswer(Inline.AnswerQuery(query, up.tickerRead)))
  }

  /** One update, handled by the handler `Route` picks. */
  function Handle(c: Context, ev: Event, up: Upstream): Outcome
  {
    match Route(c.state, ev)
    case StartCommand => Outcome(c, NoRequest, MainMenu)
    case StarsCallback => OnStarsButton(c)
    case ProcessStarsRatio => OnStarsRatio(c, ev.text, up)
    case BybitCallback => Outcome(c, NoRequest, BybitMenu)
    case BackCallback => Outcome(c, NoRequest, MainMenu)
    case TickerCallback(symbol) => Outcome(c, TickerRequest(symbol), Ticker(symbol, up.tickerRead))
    case UsdtRubCallback(action) => OnUsdtRubButton(c, action)
    case ProcessAmount => OnAmount(c, ev.text, up)
    case HandleAnyMessage =>
      Outcome(c, NoRequest, if ev.text.OtherText? && ev.text.isCommand then NoReply else MainMenu)
    case HuobiCallback => Outcome(c, NoRequest, HuobiMenu)
    case UsdtCnyCallback(tradeType) => OnUsdtCnyButton(c, tradeType, ev.messageId)
    case HuobiAmount(tradeType) => OnHuobiAmount(c, tradeType, ev.text, up)
    case InlineModeHandler => OnInlineQuery(c, ev.query, up)
    case NoHandler => Outcome(c, NoRequest, NoReply)
  }

  /**
   * The context a session can be in: no data without a state; only the two
   * keys, each with the kind of value its handler writes; `Form.amount`
   * has an action and the Huobi states have a menu message id.
   */
  predicate Valid(c: Context)
  {
    && (c.state == NoState ==> c.data == map[])
    && (forall k :: k in c.data ==> k == ActionKey || k == MenuKey)
    && (ActionKey in c.data ==> c.data[ActionKey] in {Str(BuyAction), Str(SellAction)})
    && (MenuKey in c.data ==> c.data[MenuKey].Num?)
    && (c.state == Amount ==> ActionKey in c.data)
    && (c.state in {HuobiSell, HuobiBuy} ==> MenuKey in c.data)
  }

  /** A fresh session, and one just cleared, is in a valid context. */
  lemma ClearedIsValid()
    ensures Valid(Cleared)
  {
  }

  /** Every update keeps the context valid. */
  lemma ValidPreserved(c: Context, ev: Event, up: Upstream)
    requires Valid(c)
    ensures Valid(Handle(c, ev, up).next)
  {
  }

  /** Only the flow handlers touch the FSM; every other handler leaves state and data alone. */
  lemma OnlyFlowHandlersChangeContext(c: Context, ev: Event, up: Upstream)
    ensures Handle(c, ev, up).next != c ==>
      Route(c.state, ev) in {StarsCallback, ProcessStarsRatio, ProcessAmount,
        UsdtRubCallback(BuyAction), UsdtRubCallback(SellAction),
        UsdtCnyCallback(Huobi.Sell), UsdtCnyCallback(Huobi.Buy),
        HuobiAmount(Huobi.Sell), HuobiAmount(Huobi.Buy)}
  {
  }

  /** Pressing `stars`, in any state, enters `Form.stars_ratio` and keeps the data. */
  lemma StarsButtonEntersRatio(c: Context, messageId: int, up: Upstream)
    ensures Handle(c, Press(StarsButton, messageId), up).next == Context(StarsRatio, c.data)
    ensures Handle(c, Press(StarsButton, messageId), up).request == NoRequest
  {
  }

  /**
   * In `Form.stars_ratio`, text that is not a number keeps the state and
   * asks again; a number or a message without text clears it. The TON/RUB
   * price is fetched only for a number, and an error string in its place
   * is shown as it is.
   */
  lemma StarsRatioExits(c: Context, t: Text, up: Upstream)
    requires c.state == StarsRatio && !IsStart(t)
    ensures var o := Handle(c, Message(t), up);
      && (o.next == c <==> t.OtherText?)
      && (o.next != c ==> o.next == Cleared)
      && (t.OtherText? ==> o.reply == NotANumber)
      && (o.request == TonRubRequest <==> t.NumberText?)
  {
  }

  /** A failed TON/RUB price clears the state and shows a text that starts with the error word. */
  lemma StarsPriceErrorClears(c: Context, ratio: real, up: Upstream)
    requires c.state == StarsRatio
    requires Stars.GetTonRubPrice(up.tonUsdt, up.usdtRub).TonRubError?
    ensures var o := Handle(c, Message(NumberText(ratio)), up);
      && o.next == Cleared
      && o.reply == TonRubFailed(Stars.GetTonRubPrice(up.tonUsdt, up.usdtRub).text)
      && StartsWith(o.reply.text, Stars.ErrorWord)
  {
  }

  /** With both tickers read, a ratio is priced at 100 stars and the state is cleared. */
  lemma StarsPriceShown(c: Context, ratio: real, up: Upstream)
    requires c.state == StarsRatio && up.tonUsdt.Price? && up.usdtRub.Price?
    ensures var o := Handle(c, Message(NumberText(ratio)), up);
      && o.next == Cleared
      && o.reply.StarsResult?
      && o.reply.tonPrice == Stars.GetTonRubPrice(up.tonUsdt, up.usdtRub).price
      && o.reply.calculation == Stars.CalculateStarPrice(o.reply.tonPrice, ratio, Stars.DefaultStarsCount)
      && o.reply.calculation.Calculated?
      && o.reply.calculation.figures.standardPrice == 165.0
      && Stars.NearestHundredth(o.reply.tonPrice, up.tonUsdt.value * up.usdtRub.value)
  {
    var price := Stars.GetTonRubPrice(up.tonUsdt, up.usdtRub).price;
    Stars.StandardPriceOfHundredStars(price, ratio);
  }

  /** `usdtbuyrub` records "buy" and `usdtrubsell` records "sell", entering `Form.amount` from any state. */
  lemma RubButtonsRecordAction(c: Context, messageId: int, up: Upstream)
    ensures Handle(c, Press(UsdtBuyRubButton, messageId), up).next
         == Context(Amount, c.data[ActionKey := Str(BuyAction)])
    ensures Handle(c, Press(UsdtRubSellButton, messageId), up).next
         == Context(Amount, c.data[ActionKey := Str(SellAction)])
  {
  }

  /** In `Form.amount`, an amount below 1000 asks again before any request, and nothing changes. */
  lemma AmountBelowMinimumKeepsState(c: Context, amount: real, up: Upstream)
    requires c.state == Amount && amount < Bybit.MinAmount
    ensures Handle(c, Message(NumberText(amount)), up) == Outcome(c, NoRequest, BelowMinimum)
  {
  }

  /** From 1000 on the listing is requested, with side "1" exactly when the recorded action is "buy". */
  lemma SideFollowsAction(c: Context, amount: real, up: Upstream)
    requires c.state == Amount && amount >= Bybit.MinAmount
    ensures var o := Handle(c, Message(NumberText(amount)), up);
      && o.request.BybitRequest?
      && o.request.amount == amount
      && (o.request.side == "1" <==> ActionKey in c.data && c.data[ActionKey] == Str(BuyAction))
      && (o.request.side == "0" <==> !(ActionKey in c.data && c.data[ActionKey] == Str(BuyAction)))
  {
  }

  /**
   * The outcomes of a Bybit listing: no items makes `max` raise ValueError
   * and the state is kept; a reply without `result.items` shows "data not
   * found" and clears; a listing whose every price converts shows max, min
   * and mean of all of them, in order, for the recorded action, and clears.
   */
  lemma AmountListingOutcomes(c: Context, amount: real, up: Upstream)
    requires Valid(c) && c.state == Amount && amount >= Bybit.MinAmount
    ensures var o := Handle(c, Message(NumberText(amount)), up);
      && (up.bybit == Bybit.Items([]) ==> o.next == c && o.reply == NotAnAmount)
      && (up.bybit == Bybit.NoItems ==> o.next == Cleared && o.reply == DataNotFound)
      && (up.bybit.Items? && Bybit.RatesOfItems(up.bybit.items).Ok? ==>
            && o.next == Cleared
            && o.reply == BybitRates(c.data[ActionKey].s, Bybit.RatesOfItems(up.bybit.items).value)
            && o.reply.rates.minPrice <= o.reply.rates.avgPrice <= o.reply.rates.maxPrice)
  {
    Bybit.EmptyListingIsValueError();
    if up.bybit.Items? && Bybit.RatesOfItems(up.bybit.items).Ok? {
      Bybit.RatesUseEveryItem(up.bybit.items);
    }
  }

  /** In `Form.amount`, text that is not a number keeps the state; a message without text clears it. */
  lemma AmountTextExits(c: Context, t: Text, up: Upstream)
    requires c.state == Amount && (t.OtherText? || t == NoText)
    ensures var o := Handle(c, Message(t), up);
      && o.request == NoRequest
      && (t.OtherText? ==> o.next == c && o.reply == NotAnAmount)
      && (t == NoText ==> o.next == Cleared)
  {
  }

  /** `back` shows the main menu and changes neither state nor data, whatever the state. */
  lemma BackChangesNothing(c: Context, messageId: int, up: Upstream)
    ensures Handle(c, Press(BackButton, messageId), up) == Outcome(c, NoRequest, MainMenu)
  {
  }

  /**
   * `usdtcnysell` and `usdtcnybuy` record the pressed message's id and wait
   * for an amount on their own side, from any state.
   */
  lemma CnyButtonsRecordMenu(c: Context, messageId: int, up: Upstream)
    ensures Handle(c, Press(UsdtCnySellButton, messageId), up).next
         == Context(HuobiSell, c.data[MenuKey := Num(messageId)])
    ensures Handle(c, Press(UsdtCnyBuyButton, messageId), up).next
         == Context(HuobiBuy, c.data[MenuKey := Num(messageId)])
  {
  }

  /** While a Huobi amount is awaited, every message goes to that side's handler, `/start` included. */
  lemma HuobiTakesEveryMessage(c: Context, t: Text)
    requires c.state in {HuobiSell, HuobiBuy}
    ensures Route(c.state, Message(t))
         == HuobiAmount(if c.state == HuobiSell then Huobi.Sell else Huobi.Buy)
  {
  }

  /** Below 100 the Huobi handler re-prompts in the menu message, fetches nothing and keeps the state. */
  lemma HuobiBelowMinimumKeepsState(c: Context, tradeType: Huobi.TradeType, amount: real, up: Upstream)
    requires c.state == WaitingState(tradeType) && amount < HuobiMinAmount
    ensures Handle(c, Message(NumberText(amount)), up)
         == Outcome(c, NoRequest, HuobiEdit(Get(c.data, MenuKey), tradeType, HuobiRetry))
  {
  }

  /**
   * Every other exit of a Huobi amount handler clears the state: a result,
   * no offers, a ValueError, any other error. The fetch is made exactly for
   * an amount of 100 or more, with the handler's own side, and the reply
   * edits the recorded menu message.
   */
  lemma HuobiOtherExitsClear(c: Context, tradeType: Huobi.TradeType, t: Text, up: Upstream)
    requires Valid(c) && c.state == WaitingState(tradeType)
    requires !(t.NumberText? && t.value < HuobiMinAmount)
    ensures var o := Handle(c, Message(t), up);
      && o.next == Cleared
      && (o.request != NoRequest <==> t.NumberText?)
      && (t.NumberText? ==> o.request == HuobiRequest(Huobi.TradeTypeName(tradeType), t.value))
      && o.reply.HuobiEdit? && o.reply.messageId == Some(c.data[MenuKey])
  {
  }

  /** A Huobi sell never asks for buy offers, nor a buy for sell offers. */
  lemma HuobiSideMatchesState(c: Context, amount: real, up: Upstream)
    requires c.state in {HuobiSell, HuobiBuy} && amount >= HuobiMinAmount
    ensures var o := Handle(c, Message(NumberText(amount)), up);
      && o.request.HuobiRequest?
      && (o.request.tradeType == "sell" <==> c.state == HuobiSell)
      && (o.request.tradeType == "buy" <==> c.state == HuobiBuy)
  {
  }

  /** The catch-all greets only messages no flow is waiting for. */
  lemma CatchAllOnlyOutsideFlows(state: FormState, t: Text)
    ensures Route(state, Message(t)) == HandleAnyMessage <==>
      state == NoState && (t.NumberText? || t.OtherText?)
  {
  }

  /**
   * `/start`, typed or as the caption of a message without text, in the
   * stars or Bybit flow shows the menu but leaves the flow waiting.
   */
  lemma StartInsideFlowKeepsIt(c: Context, t: Text, up: Upstream)
    requires c.state in {StarsRatio, Amount} && IsStart(t)
    ensures Handle(c, Message(t), up) == Outcome(c, NoRequest, MainMenu)
  {
  }

  /**
   * A message without text whose caption is `/start` is taken by
   * `start_command` outside the Huobi states, and by the Huobi handler,
   * which fails on `float(None)` and clears, inside them.
   */
  lemma CaptionStartRouting(c: Context, up: Upstream)
    ensures c.state in {HuobiSell, HuobiBuy} ==>
      && Handle(c, Message(CaptionStart), up).next == Cleared
      && Handle(c, Message(CaptionStart), up).reply.body == HuobiFailed(NoTextReason)
    ensures c.state !in {HuobiSell, HuobiBuy} ==>
      && Route(c.state, Message(CaptionStart)) == StartCommand
      && Handle(c, Message(CaptionStart), up) == Outcome(c, NoRequest, MainMenu)
  {
  }

  /** An inline query never touches the FSM, and its answer is the classifier's. */
  lemma InlineLeavesContext(c: Context, query: string, up: Upstream)
    ensures Handle(c, Query(query), up).next == c
    ensures Handle(c, Query(query), up).reply == InlineAnswer(Inline.AnswerQuery(query, up.tickerRead))
    ensures Handle(c, Query(query), up).request == NoRequest <==> Inline.Classify(query) == Inline.Unknown
  {
  }
}
