# Currency bot: conversation state machine and quote aggregation

This project models the core of a Telegram bot that quotes crypto prices:

- the per-user FSM of the bot (`Form.stars_ratio`, `Form.amount` and the
  two `HuobiState` states, with the `action` and `menu_message_id` data),
  the order in which the dispatcher offers an update to the handlers, and
  what each handler does to the state, asks of the exchanges and shows;
- the Huobi P2P aggregation `parse_huobi_p2p_data` (first ten offers,
  min/max/mean price, Alipay and WeChat tallies) and the `code == 200`
  check of `get_huobi_p2p_data`;
- the Bybit P2P price loop and min/max/mean inside `process_amount`;
- the star price calculator `calculate_star_price` and the TON/RUB price
  it is fed with;
- the inline-query classifier (`btc`, `eth` or unknown).

Layout, one module per file:

| file | module | form |
|---|---|---|
| `wrappers.dfy` | `Wrappers` | `Option` and `Result` |
| `builtins.dfy` | `Builtins` | Python's `min`, `max`, `sum`, mean and `round(x, 2)` over exact reals; the ValueError / other-exception split the handlers make |
| `stars.dfy` | `Stars` | pure functions |
| `inline.dfy` | `Inline` | pure functions |
| `huobi.dfy` | `Huobi` | the fetch check as a function; the parse as a method with a loop, proved equal to the function `SummaryOf` |
| `bybit.dfy` | `Bybit` | the price loop as a method, proved equal to the function `ConvertedPrices` |
| `conversation.dfy` | `Conversation` | the FSM as values: `Route` (dispatch order), one step function per handler, `Handle`, the invariant `Valid`, and the lemmas about the flows |
| `session.dfy` | `Session` | class `Session` with `state` and `data` fields, one method per state-changing handler and `Dispatch`; each method is proved to leave exactly the context its step function describes |

Every request to an exchange is an input: `Conversation.Upstream` holds
what the Binance tickers, the Bybit listing, the Huobi listing and the
Bybit spot ticker return for the update at hand (a value, a missing field,
a field that does not convert,
or the exception raised). Message text is abstracted to what the filters
and `float(message.text)` see: `/start`, a number, other text (a command or
not), no text at all, or no text but a caption that reads `/start` (the
start filter reads the caption when there is no text; the text filter and
`float` read only the text). Other captions are treated as no text.

## Model

| member | source | states |
|---|---|---|
| Builtins.MinIsLeast | huobi.py:86 | `min` returns one of the prices and none is smaller |
| Builtins.MaxIsGreatest | huobi.py:87 | `max` returns one of the prices and none is greater |
| Builtins.MeanBetween | huobi.py:86-88 | the mean of a non-empty list lies between its min and its max |
| Builtins.Round2 | stars.py:43-47 | `round(x, 2)` is within half a hundredth of x and is a whole number of hundredths |
| Builtins.Round2Exact | stars.py:45 | a value already in whole hundredths is left unchanged by rounding |
| Stars.ErrorText | stars.py:20-21 | the text returned for an exception starts with "Ошибка" |
| Stars.GetTonRubPrice | stars.py:4-21 | a price exactly when both tickers give one that converts, and then it is their product rounded to the nearest hundredth; every failure is a string starting with "Ошибка"; a missing TON/USDT price, and a missing USDT/RUB price once TON/USDT was read, are reported as such before any conversion |
| Stars.Unrounded | stars.py:33-40 | unrounded figures: the total is ton × ratio, one star times the count is that total, one star plus the difference is 1.65, the standard price is 1.65 per star, the TON price is passed through |
| Stars.CalculateStarPrice | stars.py:24-50 | an error string exactly when the star count is 0; otherwise each of the five figures is a whole number of hundredths nearest its exact value (ton × ratio / count, ton × ratio, 1.65 × count, 1.65 minus the exact star price, ton), rounded once, on output |
| Stars.StandardPriceOfHundredStars | stars.py:38-45 | at the default of 100 stars the standard price is 165 |
| Stars.WorkedExample | stars.py:32-48 | TON at 350 and 0.46 TON per 100 stars give 1.61, 161, 165, 0.04 and 350 |
| Inline.Lower | bot.py:190 | lower-casing keeps the length and lowers each character |
| Inline.LowerIdempotent | bot.py:190 | lower-casing twice is lower-casing once |
| Inline.ClassifyIgnoresCase | bot.py:190-193 | the branch taken does not depend on letter case |
| Inline.BtcSpellings | bot.py:190-193 | exactly the eight case spellings of "btc" select BTC |
| Inline.EthSpellings | bot.py:238-239 | exactly the eight case spellings of "eth" select ETH |
| Inline.AnswerQuery | bot.py:188-295 | one article with cache time 1: "1" iff BTC read, "2" iff ETH read, "error" iff a recognised ticker failed, "unknown" iff the query is neither |
| Huobi.GetHuobiP2PData | huobi.py:56-59 | the reply is handed on iff its code is 200; otherwise an error carrying the venue's message |
| Huobi.FirstOffers | huobi.py:74 | at most 10 offers, a prefix of the list, all of it when shorter than 10 |
| Huobi.Prices | huobi.py:74-76 | one price per offer, in order |
| Huobi.CountAcceptingIsSize | huobi.py:79-83 | a tally is the number of distinct offers that list the method, each counted once |
| Huobi.CountAcceptingBounded | huobi.py:79-83 | a tally never exceeds the number of offers |
| Huobi.NoSummaryIffNoOffers | huobi.py:85-98 | the result is None exactly when there is no offer |
| Huobi.LaterOffersIgnored | huobi.py:74 | offers from the eleventh on never change the result |
| Huobi.CountsBounded | huobi.py:70-83 | each tally lies between 0 and min(10, number of offers) |
| Huobi.SummaryOrdered | huobi.py:85-88 | min ≤ mean ≤ max; min and max are prices of offers among the first ten; all those prices lie between them |
| Huobi.ParseHuobiP2PData | huobi.py:62-98 | the loop over the first ten offers returns `SummaryOf` the offers, None exactly when there are none |
| Bybit.ConvertedPrices | bot.py:355-360 | succeeds iff every item's price converts, with one price per item in order; otherwise the error of the first item that fails (ValueError or KeyError) |
| Bybit.RatesOf | bot.py:362-364 | ValueError exactly for no prices; otherwise min ≤ mean ≤ max, min and max among the prices, every price between them |
| Bybit.EmptyListingIsValueError | bot.py:356-362 | an empty item list raises ValueError from `max` |
| Bybit.RatesUseEveryItem | bot.py:356-364 | when rates come out every item is numeric and used, and the mean is the sum of all prices over their number |
| Bybit.CollectPrices | bot.py:355-360 | the loop returns `ConvertedPrices` of the items |
| Conversation.ClearedIsValid | bot.py:379 | the cleared context satisfies the session invariant |
| Conversation.ValidPreserved | bot.py:297-386 | every update keeps the invariant: no data without a state, `action` is "buy" or "sell" and present in `Form.amount`, `menu_message_id` is an id and present in the Huobi states |
| Conversation.OnlyFlowHandlersChangeContext | bot.py:53-397 | the start, Bybit menu, back, ticker, inline and catch-all handlers, and the Huobi menu handler of huobi.py:101-110, never change state or data |
| Conversation.StarsButtonEntersRatio | bot.py:61-69 | `stars`, from any state, enters `Form.stars_ratio`, keeps the data and requests nothing |
| Conversation.StarsRatioExits | bot.py:71-96 | non-numeric text keeps the state and re-prompts; a number or a message without text clears it; the TON price is fetched iff the text is a number |
| Conversation.StarsPriceErrorClears | bot.py:75-80 | the "Ошибка"-prefixed string returned in place of the price is shown unchanged and the state is cleared |
| Conversation.StarsPriceShown | bot.py:82-89 | with both tickers read, the fetched price and the user's ratio are priced at 100 stars by `calculate_star_price` (standard price 165), the TON price shown is the fetched product rounded to hundredths, and the state is cleared |
| Conversation.RubButtonsRecordAction | bot.py:297-317 | `usdtbuyrub` enters `Form.amount` with action "buy", `usdtrubsell` with "sell" |
| Conversation.AmountBelowMinimumKeepsState | bot.py:322-325 | below 1000 the handler re-prompts, requests nothing and changes nothing |
| Conversation.SideFollowsAction | bot.py:327-331 | from 1000 on the listing is requested for that amount with side "1" iff the recorded action is "buy", "0" otherwise |
| Conversation.AmountListingOutcomes | bot.py:355-382 | an empty listing keeps the state (ValueError); missing `result.items` shows "data not found" and clears; a convertible listing shows the rates of all items for the recorded action and clears |
| Conversation.AmountTextExits | bot.py:381-386 | non-numeric text keeps `Form.amount`; a message without text clears it; neither requests anything |
| Conversation.BackChangesNothing | bot.py:113-119 | `back`, from any state, shows the main menu and leaves state and data as they were |
| Conversation.CnyButtonsRecordMenu | huobi.py:113-144 | `usdtcnysell` / `usdtcnybuy` record the pressed message's id and enter the waiting state of their side |
| Conversation.HuobiTakesEveryMessage | bot.py:408-412 | while a Huobi amount is awaited every message, `/start` included, reaches that side's handler |
| Conversation.HuobiBelowMinimumKeepsState | huobi.py:158-167 | below 100 the menu message is edited to re-prompt, nothing is fetched, the state is kept |
| Conversation.HuobiOtherExitsClear | huobi.py:169-214 | every other exit clears the state; the fetch happens iff the text is a number of 100 or more, with the handler's side; the reply edits the recorded menu message |
| Conversation.HuobiSideMatchesState | huobi.py:170 | the sell state fetches "sell" offers and the buy state "buy" offers |
| Conversation.CatchAllOnlyOutsideFlows | bot.py:388-397 | the catch-all text handler is reached iff no flow is active and the message has text other than `/start` |
| Conversation.StartInsideFlowKeepsIt | bot.py:53-59 | `/start`, typed or as the caption of a message without text, in the stars or Bybit flow shows the menu and the flow keeps waiting |
| Conversation.CaptionStartRouting | bot.py:53-59 | a message without text captioned `/start` reaches `start_command` (menu, context unchanged) outside the Huobi states, and inside them the Huobi handler, which fails on `float(None)` and clears |
| Conversation.InlineLeavesContext | bot.py:188-295 | an inline query never changes the FSM; its answer is the classifier's; a ticker is requested iff the query is recognised |
| Session.Session.Clear | bot.py:379 | after clearing there is no state and no data |
| Session.Session.StarsCallback | bot.py:61-69 | the new context and reply are those of `OnStarsButton` |
| Session.Session.ProcessStarsRatio | bot.py:71-96 | the new context, request and reply are those of `OnStarsRatio` |
| Session.Session.UsdtRubCallback | bot.py:297-317 | the new context and reply are those of `OnUsdtRubButton` |
| Session.Session.ProcessAmount | bot.py:319-386 | the new context, request and reply are those of `OnAmount`, with the prices gathered by `Bybit.CollectPrices` |
| Session.Session.UsdtCnyCallback | huobi.py:113-144 | the new context and reply are those of `OnUsdtCnyButton` |
| Session.Session.HuobiAmount | huobi.py:147-284 | the new context, request and reply are those of `OnHuobiAmount`, with the offers parsed by `Huobi.ParseHuobiP2PData` |
| Session.Session.Dispatch | bot.py:404-412 | the handler is the one `Route` picks and the whole outcome is `Handle` of the old context |

Behaviour of the code worth knowing (the model follows the code):

- An amount flow does not leave its state on every exit: below the
  minimum (both venues) and on a ValueError (Bybit: text that is not a
  number, a JSON-typed reply whose body does not decode, a price that does
  not convert, an empty listing) the state is kept. A Bybit reply whose
  content type is not JSON raises an error that is not a ValueError, and
  the state is cleared.
- `back` does not reset the flow; it only shows the main menu.
- The Bybit rates are taken over every item returned, not over the first
  eight (the request asks for pages of eight).
- An empty Bybit listing is not reported as "no offers": `max` raises
  ValueError and the user is asked for the amount again.
- The mean is not rounded; only its display uses two decimals.
- Pressing another button in the middle of a flow does not abandon it
  unless that button starts a flow of its own.

## Left out

- Network calls (`requests.get`, the aiohttp POST, the pybit tickers) are inputs in `Conversation.Upstream`; timeouts and retries are not modelled.
- Telegram output (`answer`, `edit_text`, `edit_message_text`), message texts, Markdown and keyboards are abstracted to the `Conversation.Reply` constructors; a failing send or edit (for instance Telegram refusing an unchanged edit, or Markdown it cannot parse) is not modelled. In particular the stars result puts the figures' dictionary, whose keys hold five underscores, into a legacy-Markdown message (bot.py:83-88), so Telegram most likely refuses it and the user sees the "⚠ Ошибка" text instead of `StarsResult`; the state is cleared either way. This was not confirmed by running the bot.
- Floating point: all prices are exact reals; `float(text)` is abstracted to `NumberText`, and `nan`, `inf` and overflow are not modelled.
- Builtins.Round2: rounds the exact value half to even, so on a value whose binary float lies just beside a tie (350 × 0.45 / 100) it can differ from Python's `round` by one hundredth.
- The `:.2f` formatting of the mean and the upper-casing of the action are display only and not modelled; the AttributeError `action.upper()` raises when no action is recorded is modelled.
- Updates are handled one at a time. The polling loop runs each update as its own task, so two messages from one user can interleave while a handler waits on a venue; that interleaving is not modelled.
- Huobi.Offer: an offer's price is taken as already converted; a Huobi price that fails `float` is not modelled separately from the other errors of the request.
- Bybit.ItemPrice: a `price` that is JSON `null` (TypeError) is represented by `Absent` (KeyError); both clear the state.
- Inline.Lower: lowers ASCII letters only; the only non-ASCII characters Python lowers into ASCII (the Kelvin sign and capital I with dot) cannot spell "btc" or "eth", so the classification is unaffected.
- The `btcusdt` / `ethusdt` callbacks and the inline ticker read are reduced to the symbol requested and whether the read succeeded.
- `set_bot_commands`, the polling loop of `main`, logging and `.env` loading are left out; only the router order of `main` is modelled.
- keyboards.py is static data; only the `callback_data` ids appear, as the constructors of `Conversation.Button`.
