/**
 * One user's FSM context as the handlers change it: a state field and a
 * data map that the handlers set, update and clear in place, one method
 * per handler, and the dispatcher that picks the handler for an update.
 */
module Session {
  import opened Builtins
  import Stars
  import Bybit
  import Huobi
  import Inline
  import opened Conversation

  class Session {
    var state: FormState
    var data: map<string, Value>

    /** The context as a value. */
    function Ctx(): Context
      reads this
    {
      Context(state, data)
    }

    /** A new user has no state and no data. */
    constructor()
      ensures Ctx() == Cleared
    {
      state := NoState;
      data := map[];
    }

    /** `state.clear()`. */
    method Clear()
      modifies this
      ensures Ctx() == Cleared
    {
      state := NoState;
      data := map[];
    }

    /** `stars_callback`. */
    method StarsCallback() returns (request: Request, reply: Reply)
      modifies this
      ensures Outcome(Ctx(), request, reply) == OnStarsButton(old(Ctx()))
    {
      request, reply := NoRequest, StarsPrompt;
      state := StarsRatio;
    }

    /** `process_stars_ratio`. */
    method ProcessStarsRatio(t: Text, up: Upstream) returns (request: Request, reply: Reply)
      modifies this
      ensures Outcome(Ctx(), request, reply) == OnStarsRatio(old(Ctx()), t, up)
    {
      request := NoRequest;
      if WithoutText(t) {
        reply := Failed(StarsFailurePrefix + NoTextReason);
        Clear();
        return;
      }
      if !t.NumberText? {
        reply := NotANumber;
        return;
      }
      var ratio := t.value;
      request := TonRubRequest;
      var tonPrice := Stars.GetTonRubPrice(up.tonUsdt, up.usdtRub);
      if tonPrice.TonRubError? {
        reply := TonRubFailed(tonPrice.text);
        Clear();
        return;
      }
      var starPrice := Stars.CalculateStarPrice(tonPrice.price, ratio, Stars.DefaultStarsCount);
      reply := StarsResult(starPrice, tonPrice.price);
      Clear();
    }

    /** `usdtbuyrub_callback` and `usdtrubsell_callback`. */
    method UsdtRubCallback(action: string) returns (request: Request, reply: Reply)
      modifies this
      ensures Outcome(Ctx(), request, reply) == OnUsdtRubButton(old(Ctx()), action)
    {
      request, reply := NoRequest, AmountPrompt(action);
      state := Amount;
      data := data[ActionKey := Str(action)];
    }

    /** `process_amount`, with the price loop in `Bybit.CollectPrices`. */
    method ProcessAmount(t: Text, up: Upstream) returns (request: Request, reply: Reply)
      modifies this
      ensures Outcome(Ctx(), request, reply) == OnAmount(old(Ctx()), t, up)
    {
      request := NoRequest;
      if WithoutText(t) {
        reply := Failed(AmountFailurePrefix + NoTextReason);
        Clear();
        return;
      }
      if !t.NumberText? {
        reply := NotAnAmount;
        return;
      }
      var amount := t.value;
      if amount < Bybit.MinAmount {
        reply := BelowMinimum;
        return;
      }
      var action := Get(data, ActionKey);
      request := BybitRequest(Side(action), amount);
      match up.bybit {
        case RequestFailed(e) =>
          if e == ValueError {
            reply := NotAnAmount;
            return;
          }
          reply := Failed(AmountFailurePrefix + e.reason);
        case NoItems =>
          reply := DataNotFound;
        case Items(items) =>
          var prices := Bybit.CollectPrices(items);
          if prices.Err? {
            if prices.error == ValueError {
              reply := NotAnAmount;
              return;
            }
            reply := Failed(AmountFailurePrefix + prices.error.reason);
            Clear();
            return;
          }
          if prices.value == [] {
            // `max` of an empty list raises ValueError
            reply := NotAnAmount;
            return;
          }
          var rates := Bybit.Rates(Max(prices.value), Min(prices.value), Mean(prices.value));
          if action.Some? && action.value.Str? {
            reply := BybitRates(action.value.s, rates);
          } else {
            reply := Failed(AmountFailurePrefix + NoActionReason);
          }
      }
      Clear();
    }

    /** `usdtcnysell_callback` and `usdtcnybuy_callback`. */
    method UsdtCnyCallback(tradeType: Huobi.TradeType, messageId: int) returns (request: Request, reply: Reply)
      modifies this
      ensures Outcome(Ctx(), request, reply) == OnUsdtCnyButton(old(Ctx()), tradeType, messageId)
    {
      data := data[MenuKey := Num(messageId)];
      state := WaitingState(tradeType);
      request, reply := NoRequest, HuobiPrompt(tradeType);
    }

    /** `handle_huobi_sell_amount` and `handle_huobi_buy_amount`, with the parse loop in `Huobi.ParseHuobiP2PData`. */
    method HuobiAmount(tradeType: Huobi.TradeType, t: Text, up: Upstream) returns (request: Request, reply: Reply)
      modifies this
      ensures Outcome(Ctx(), request, reply) == OnHuobiAmount(old(Ctx()), tradeType, t, up)
    {
      var menu := Get(data, MenuKey);
      request := NoRequest;
      match t {
        case NumberText(amount) =>
          if amount < HuobiMinAmount {
            reply := HuobiEdit(menu, tradeType, HuobiRetry);
            return;
          }
          request := HuobiRequest(Huobi.TradeTypeName(tradeType), amount);
          var fetched := Huobi.GetHuobiP2PData(up.huobi);
          if fetched.Err? {
            if fetched.error == ValueError {
              reply := HuobiEdit(menu, tradeType, HuobiRetry);
            } else {
              reply := HuobiEdit(menu, tradeType, HuobiFailed(fetched.error.reason));
            }
          } else {
            var parsed := Huobi.ParseHuobiP2PData(fetched.value);
            if parsed.Some? {
              reply := HuobiEdit(menu, tradeType, HuobiSummary(parsed.value));
            } else {
              reply := HuobiEdit(menu, tradeType, NoOffers);
            }
          }
        case NoText | CaptionStart =>
          reply := HuobiEdit(menu, tradeType, HuobiFailed(NoTextReason));
        case _ =>
          reply := HuobiEdit(menu, tradeType, HuobiRetry);
      }
      Clear();
    }

    /**
     * The dispatcher: the update goes to the handler `Route` picks, and
     * that handler alone changes the context.
     */
    method Dispatch(ev: Event, up: Upstream) returns (handler: Handler, request: Request, reply: Reply)
      modifies this
      ensures handler == Route(old(state), ev)
      ensures Outcome(Ctx(), request, reply) == Handle(old(Ctx()), ev, up)
    {
      handler := Route(state, ev);
      match handler {
        case StartCommand =>
          request, reply := NoRequest, MainMenu;
        case StarsCallback =>
          request, reply := this.StarsCallback();
        case ProcessStarsRatio =>
          request, reply := this.ProcessStarsRatio(ev.text, up);
        case BybitCallback =>
          request, reply := NoRequest, BybitMenu;
        case BackCallback =>
          request, reply := NoRequest, MainMenu;
        case TickerCallback(symbol) =>
          request, reply := TickerRequest(symbol), Ticker(symbol, up.tickerRead);
        case UsdtRubCallback(action) =>
          request, reply := this.UsdtRubCallback(action);
        case ProcessAmount =>
          request, reply := this.ProcessAmount(ev.text, up);
        case HandleAnyMessage =>
          request := NoRequest;
          reply := if ev.text.OtherText? && ev.text.isCommand then NoReply else MainMenu;
        case HuobiCallback =>
          request, reply := NoRequest, HuobiMenu;
        case UsdtCnyCallback(tradeType) =>
          request, reply := this.UsdtCnyCallback(tradeType, ev.messageId);
        case HuobiAmount(tradeType) =>
          request, reply := this.HuobiAmount(tradeType, ev.text, up);
        case InlineModeHandler =>
          var q := Inline.Classify(ev.query);
          request := if q == Inline.Unknown then NoRequest else TickerRequest(Inline.TickerSymbol(q));
          reply := InlineAnswer(Inline.AnswerQuery(ev.query, up.tickerRead));
        case NoHandler =>
          request, reply := NoRequest, NoReply;
      }
    }
  }
}
