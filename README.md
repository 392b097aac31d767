# crypto-signal-bot, modelled in Dafny

The bot scans a fixed list of (symbol, timeframe) pairs every 15 minutes.
For each pair it fetches the last 100 OHLCV candles from the exchange. It
then evaluates one rule on the last candle: RSI(14) strictly below 35 and
the close strictly above EMA(50). When the rule fires, it sends a LONG
alert with a +3% take-profit and a -1.5% stop-loss to a single chat. That
chat is the first one that sent `/start`.

The model has six modules:

- `Wrappers` (`wrappers.dfy`): `Option`.
- `Market` (`market.dfy`): pairs, candles, the scan list `PairsToScan`, and
  `GetCryptoData`. A fetch is given as its outcome, either bars or an
  exception; `GetCryptoData` turns an exception into an absent frame.
- `Strategy` (`strategy.dfy`): `GenerateSignal` and lemmas stating the rule.
  The indicator library is an input: a pair of functions giving the RSI(14)
  and EMA(50) values of the last row. A value may be NaN, and every
  comparison with NaN is false, as in Python.
- `Registry` (`registry.dfy`): the `/start` transition function `Register`.
  It has three replies (registered, already here, other user) and no
  transition back to the empty slot.
- `Scan` (`scan.dfy`): the specification of one run.
  - `Alerts` gives the messages of a run, in scan order.
  - `FirstAbort` gives the pair at which a raising send ends the run.
  - The lemmas cover counting, addressing, ordering and isolation of failed
    fetches.
- `Bot` (`bot.dfy`): class `TradingBot`.
  - Field `target` is the global `TARGET_CHAT_ID`.
  - `outbox` logs the messages the chat transport accepted. A send that
    raised is not in it.
  - `fetched` logs the exchange requests.
  - `Start` is the `/start` handler. `CheckForSignals` is the scheduled job,
    and `ProcessPair` is the body of its loop for one pair.

Prices are `real`. The model abstracts IEEE rounding, but keeps NaN
indicator values.

Where the code differs from its docstring and comments, or from what a
reader might expect of an alert bot, the model follows the code:

- The RSI cutoff is 35, not the 30 in the docstring of `generate_signal`.
- `send_message` is not inside a `try`, so a send that raises ends the run
  for the remaining pairs. `CheckForSignals` models this with its
  `deliveryFails` input and the `Aborted(k)` outcome; it does not swallow
  the error.
- The scan's gate is `not TARGET_CHAT_ID`. That test is true for `None`, and
  also for the chat id `0`. `/start`, however, tests `is None`. So an id of
  0 can claim the slot, and then no alert is ever sent
  (`Scan.ZeroIdClaimsButNeverReceives`).
- A rule that holds over several runs is re-sent on every run. The code has
  no cooldown.

## Model

| member | source | states |
|---|---|---|
| `Market.GetCryptoData` | trading_bot.py:40-50 | A fetch that raised yields no frame. A successful fetch yields exactly the bars received. No error reaches the caller. |
| `Strategy.GenerateSignal` | trading_bot.py:78-93 | Every signal produced is LONG and names the pair it was evaluated for. No SHORT branch exists. |
| `Strategy.ShortFrameNoSignal` | trading_bot.py:57-58 | A missing frame, or one with fewer than 50 rows, yields no signal. |
| `Strategy.SignalRule` | trading_bot.py:64-76 | With at least 50 rows: a signal iff the last RSI(14) is a number < 35 and the last close is > a numeric EMA(50). Entry is the last close, TP is entry × 1.03, SL is entry × 0.985. |
| `Strategy.ThresholdsAreStrict` | trading_bot.py:69-72 | For any frame, RSI exactly 35, or a close exactly on the EMA, yields no signal. |
| `Strategy.NaNNeverTriggers` | trading_bot.py:69-72 | A NaN RSI(14) or NaN EMA(50) in the last row never yields a signal, because both comparisons are false on NaN. |
| `Strategy.BandsBracketEntry` | trading_bot.py:73-76 | For a positive entry, SL < entry < TP, and TP − entry = 2 × (entry − SL). |
| `Strategy.OversoldUptrendScenario` | trading_bot.py:69-76 | Close 100, EMA 95, RSI 30 gives LONG at 100 with TP 103 and SL 98.5. |
| `Strategy.OversoldDowntrendScenario` | trading_bot.py:69-72 | Close 100, EMA 105, RSI 20 (oversold, but in a downtrend) gives no signal. |
| `Registry.Register` | trading_bot.py:117-133 | The transition table. An empty slot is claimed by the caller with reply Registered. The holder gets AlreadyHere and any other id gets OtherUser. A set slot never changes. The caller holds the slot afterwards iff it was not rejected. |
| `Registry.HeldSlotIsStable` | trading_bot.py:130-133 | Once the slot is held, any sequence of `/start` commands leaves it unchanged. Each later caller is acknowledged iff it is the holder and rejected otherwise. |
| `Registry.FirstCallerClaimsSlot` | trading_bot.py:123-133 | From the empty slot, the first caller of any run of commands keeps the slot for good and is the only one answered Registered. |
| `Registry.NeverUnset` | trading_bot.py:117-133 | After any registration, the slot is never empty again. |
| `Bot.TradingBot.constructor` | trading_bot.py:18-29 | The process starts with no target, the fixed scan list, and empty logs. |
| `Bot.TradingBot.Start` | trading_bot.py:117-133 | The new target and the reply are those of `Register`. The target is set afterwards, and a set target is left unchanged. |
| `Bot.TradingBot.CheckForSignals` | trading_bot.py:95-113 | With no usable target, nothing is fetched or sent. Otherwise every pair is fetched in scan order, up to and including the pair whose send raises. The outbox gains exactly `Alerts` for the pairs before that point, all addressed to the target. |
| `Bot.TradingBot.ProcessPair` | trading_bot.py:103-113 | One pair: it is fetched. A signal, if any, is appended to the outbox for the target unless the send raises. `raised` reports that case. |
| `Scan.ArmedIffNonZeroId` | trading_bot.py:97-100 | The scan's gate opens iff the slot holds a non-zero id. Both `None` and id 0 shut it, as Python's `not` does. |
| `Scan.PairSignal` | trading_bot.py:104-107 | A failed fetch yields no signal. A successful one yields the strategy's verdict on the bars received, always LONG and for that pair. |
| `Scan.Alerts` | trading_bot.py:103-113 | The messages of a run, in scan order, skipping failed fetches and pairs without a signal. There are never more messages than pairs. |
| `Scan.FirstAbort` | trading_bot.py:107-113 | The first pair whose send raises, or the list length. Every earlier pair either had no signal or sent it. |
| `Scan.FirstAbortAt` | trading_bot.py:107-113 | If no pair before `i` raises, the run gets at least to `i`. It stops exactly at `i` when `i` raises. |
| `Scan.AlertsAppend` | trading_bot.py:103-113 | Scanning two lists in turn sends the first list's messages, then the second's. Pairs are handled independently and in order. |
| `Scan.AlertsCount` | trading_bot.py:106-113 | A run sends exactly one message per pair whose fetch and rule yield a signal. |
| `Scan.AlertsMembership` | trading_bot.py:103-113 | A message is sent iff it is addressed to the target and carries the signal of some scanned pair. |
| `Scan.AlertsAddressed` | trading_bot.py:109-111 | Every message goes to the registered chat and carries a LONG signal for a scanned pair. |
| `Scan.FetchFailureIsolated` | trading_bot.py:103-106 | A failed fetch for one pair removes only that pair. The messages for the pairs before and after it are unchanged and in order. |
| `Scan.ZeroIdClaimsButNeverReceives` | trading_bot.py:97-100 | Chat id 0 claims the empty slot and keeps it against later `/start` commands, yet the scan's gate stays closed for it. |

## Left out

- RSI(14) and EMA(50) computation: these come from the indicator library, which is not part of this model. Their last-row values are inputs (`Strategy.Indicators`).
- Exchange access and DataFrame construction, including the millisecond-to-datetime conversion and the 100-candle limit: a fetch is given as its outcome (`Market.FetchOutcome`). The length of the returned bars is not constrained.
- Message text and formatting: the Markdown template, the 4-decimal formatting, the "Reason" line and the reply texts of `/start`. A signal is carried as its structured content. The text is not escaped for MarkdownV2. Whether the transport accepts it is what `deliveryFails` stands for.
- Telegram polling, `async` execution, APScheduler's 15-minute interval and `main`: runs are modelled one at a time. Overlapping runs and concurrent `/start` commands are not modelled.
- Logging calls.
- The indicator columns that `generate_signal` appends to the frame: nothing later reads them.
- Floating-point rounding: prices and factors are exact reals. Only NaN indicator readings are kept.
