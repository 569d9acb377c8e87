# Strategy engine of the momentum demo, modelled in Dafny

The modelled program is `StrategyEngine` in `run.py`: an event-driven trading strategy
that sits between an event bus and one trading gateway. It reacts to three kinds of
gateway events.

- **Tick** (latest traded price). The engine caches the tick per instrument. For an
  instrument in the configured trading set it appends the tick to that instrument's
  history and evaluates a momentum rule on the three newest prices:
  - a strict rise while flat sends a buy-to-open limit order for one lot at the newest
    price plus 10, sets the target to 1 and logs it;
  - a strict fall while long sends a sell-to-close limit order for one lot at the newest
    price minus 10, sets the target to 0 and logs it;
  - every evaluation then publishes a strategy status event carrying the target.
- **Contract** (instrument definition). The engine stores it, and for a traded
  instrument asks the gateway to subscribe to its market data on every such event.
- **Position**. The engine stores it under its position id (last write wins). It
  subscribes to the position's instrument once, and only when the instrument's contract
  is already known. A position whose contract is unknown is skipped until a later
  position event.

A valuation pass reports, for every stored position with both a tick and a contract,
volume × last price × contract size.

The model is a Dafny class, `Engine.StrategyEngine`, whose fields are the engine's
dictionaries and set. The gateway and the event bus are recorded as three append-only
sequences:

- `subscribeCalls`: every `subscribe` request;
- `orders`: every `send_order` request;
- `events`: every event put on the bus, namely log lines and strategy status events.

The handlers are methods with `modifies` clauses. Each one states its whole new state.

- **The momentum rule.** It is specified on values by `Momentum.TradingEffects`.
  `RunTrading` and `ProcessTickEvent` are proved equal to it.
- **The class invariant.** `Valid()` ties the target of every instrument to the net
  number of lots its orders have bought (`Ledger.NetLots`). From that it proves:
  - a position is never doubled: two buy-to-open orders always have a sell-to-close
    between them;
  - a close always follows an open;
  - every order is one limit lot;
  - the k-th log line reports the k-th order: its instrument, and buy-to-open or
    sell-to-close;
  - every target is 0 or 1.
- **`Valuation.Valuations`** specifies the valuation pass. It is proved sound and
  complete with respect to the skip rule, and to report exactly one line per priced
  position.
- **`Scenarios`** fixes concrete runs: a buy-then-sell round trip, a rise that opens only
  once, a plateau, too few ticks, a missing contract, repeated and deferred subscriptions,
  and a valuation that skips an unpriced position.

Instrument keys (`vt_symbol`) are the pair (symbol, exchange) rather than the two joined
by a dot. Position ids (`vt_positionid`) are the triple (gateway, instrument,
direction). Python's insertion-ordered `positions` dictionary is the map `positions`
plus the sequence `positionIds`, which keeps first-insertion order.

Three behaviours of the code are easy to miss.

- **Missing contract.** `run_trading` indexes `contracts` directly (run.py:137). A traded
  instrument that reaches three ticks before its contract is known therefore raises
  `KeyError`, after the tick was cached and appended. The model returns the outcome
  `MissingContract` there and changes nothing else (`Scenarios.TicksWithoutContract`).
- **Position before contract.** A contract event subscribes only for traded instruments
  (run.py:77-79). The position path subscribes only when a position event finds the
  contract already stored (run.py:90-99). A position of an untraded instrument that
  arrives before its contract is therefore subscribed only by a later position event
  (`Scenarios.PositionBeforeContract`).
- **Repeated subscriptions.** Only the position path records subscriptions and skips
  repeats (run.py:86-88, 102). A traded instrument is subscribed again on every contract
  event, and once more by its first position (`Scenarios.ContractResubscribes`,
  `Scenarios.TradedPositionSubscribesTwice`).

## Model

| member | source | states |
|---|---|---|
| Engine.StrategyEngine.constructor | run.py:30-50 | A new engine has the given trading set, no ticks, contracts, positions, histories, targets or subscriptions, and has sent and published nothing; the invariant holds. |
| Engine.StrategyEngine.ProcessTickEvent | run.py:59-69 | The tick replaces the cached one for its instrument. For an untraded instrument nothing else changes. For a traded one the history grows by exactly that tick and targets, orders, events and outcome are those of one evaluation of the rule; the invariant is kept. |
| Engine.StrategyEngine.ProcessContractEvent | run.py:71-79 | The contract replaces the stored one; a subscribe request with its symbol and exchange is appended exactly when its instrument is traded, on every such event, with no deduplication. |
| Engine.StrategyEngine.ProcessPositionEvent | run.py:81-102 | The position replaces the stored one under its id (last write wins; a new id is appended to the iteration order); a subscribe request for its instrument is sent, and the instrument recorded as subscribed, exactly when it was not yet subscribed and its contract is known; otherwise the subscriptions are unchanged, so the recorded set only grows and the position path subscribes each instrument at most once. |
| Engine.StrategyEngine.StorePosition | run.py:84 | Storing a position keeps every stored id listed exactly once in insertion order. |
| Engine.StrategyEngine.SubscribeForPosition | run.py:86-102 | Skip when already subscribed, skip when the contract is unknown, otherwise subscribe with the contract's symbol and exchange and record the instrument. |
| Engine.StrategyEngine.CalculateValue | run.py:112-123 | The loop yields exactly the specified value lines in position insertion order, and every reported instrument has a tick and a contract. |
| Engine.StrategyEngine.RunTrading | run.py:125-185 | One evaluation changes targets, orders and events exactly as `TradingEffects` says for the instrument's history, including the early return on fewer than three ticks and the missing-contract error. |
| Engine.StrategyEngine.WriteLog | run.py:187-191 | A log event stamped with gateway name "STRATEGY" is appended to the event stream and nothing else. |
| Engine.TickKeepsHistory | run.py:62-67 | Caching a tick and appending it to a traded instrument's history keeps every history non-empty, made only of ticks of its instrument, ending in the cached tick, and for traded instruments only. |
| Engine.TradingKeepsTargets | run.py:125-185 | An evaluation creates a target only for an instrument with at least three ticks. |
| Engine.PositionKeepsOrder | run.py:84 | Replacing a stored position keeps the id order; inserting a new id appends it once. |
| Momentum.Decide | run.py:141-173 | Open exactly on a strict rise while flat, close exactly on a strict fall while long, hold otherwise. |
| Momentum.TradingEffects | run.py:125-185 | At most one order is appended; other instruments' targets do not change; the missing-contract error happens exactly when three ticks exist and no contract does; with fewer than three ticks or no contract nothing changes; otherwise the last event is the status carrying the new target. |
| Momentum.TradingKeepsLedger | run.py:141-185 | Each evaluation keeps the target equal to the net lots sent, every order one limit lot, no prefix of the order log above one lot or below zero, and the k-th log line reporting the k-th order (same instrument; bought-open for a buy-to-open, sold-close for a sell-to-close). |
| Momentum.LedgerTargetsBinary | run.py:155-172 | Under the ledger invariant every target is 0 or 1. |
| Momentum.OrderKeepsLedger | run.py:153-156 | Sending one lot, logging a line that reports it and moving the target by that lot keeps the ledger invariant. |
| Momentum.HoldKeepsLedger | run.py:175-185 | Publishing the status without an order keeps the ledger invariant. |
| Momentum.RiseWhenFlatOpens | run.py:142-156 | A strict rise while flat appends exactly the order LONG, LIMIT, OPEN at price + 10 for 1 lot, sets the target to 1 and appends the log line then the status with target 1. |
| Momentum.RiseWhenLongHolds | run.py:142-143 | A strict rise while long sends nothing and only publishes the status with target 1. |
| Momentum.FallWhenLongCloses | run.py:159-173 | A strict fall while long appends exactly the order SHORT, LIMIT, CLOSE at price - 10 for 1 lot, sets the target to 0 and appends the log line then the status with target 0. |
| Momentum.FallWhenFlatHolds | run.py:159-160 | A strict fall while flat sends nothing and only publishes the status with target 0. |
| Momentum.NoTrendHolds | run.py:142-185 | Without a strict rise or fall nothing is sent and the status carries the unchanged target. |
| Momentum.PlateauHolds | run.py:142-159 | Equal neighbouring prices never trade. |
| Momentum.DecideIdempotent | run.py:142-172 | Re-evaluating the same prices after the target moved does nothing more. |
| Ledger.SecondOpenNeedsClose | run.py:142-173 | In a log that never doubles, two buy-to-open orders for an instrument always have a sell-to-close for it in between. |
| Ledger.CloseNeedsOpen | run.py:159-173 | Every sell-to-close for an instrument is preceded by a buy-to-open for it. |
| Ledger.NoCloseNoDecrease | run.py:142-156 | Without a close for an instrument its net lots do not go down. |
| Ledger.NoOpenNoIncrease | run.py:159-173 | Without an open for an instrument its net lots do not go up. |
| Valuation.Valuations | run.py:112-123 | The value lines of the positions in insertion order: a position without a tick or without a contract is skipped, the others give volume × last price × contract size; there are no more lines than positions, and every line's instrument has a tick and a contract. |
| Valuation.ValuationsSound | run.py:112-123 | Every reported line is the value of a stored position whose instrument has both a tick and a contract. |
| Valuation.ValuationsComplete | run.py:112-123 | Every position with both a tick and a contract is reported with volume × price × size. |
| Valuation.ValuationsCount | run.py:114-122 | The number of value lines equals the number of positions that have both a tick and a contract, counted independently: one line per priced position, none for the others. |
| Scenarios.MomentumRoundTrip | run.py:142-173 | Prices 10, 11, 12, 11, 10 buy one lot at 22, hold, then sell it at 0, ending flat. |
| Scenarios.RepeatedRiseOpensOnce | run.py:142-156 | Prices 10, 11, 12, 13 open only once. |
| Scenarios.PlateauSendsNothing | run.py:142-185 | Three equal prices send nothing and publish target 0. |
| Scenarios.MismatchedLogBreaksLedger | run.py:153-156 | A log line naming another instrument and the opposite action does not report the order, so that state violates the ledger invariant. |
| Scenarios.TooFewTicks | run.py:127-130 | Two ticks are kept but produce no order, event or target. |
| Scenarios.TicksWithoutContract | run.py:137 | The third tick without a contract ends in the missing-contract error after being cached and appended. |
| Scenarios.ContractResubscribes | run.py:77-79 | Two contract events of a traded instrument give two subscribe requests. |
| Scenarios.PositionBeforeContract | run.py:86-102 | A position before its contract does not subscribe, an untraded contract does not, the next position does. |
| Scenarios.RepeatedPositionSubscribesOnce | run.py:81-102 | Any number of updates of one position subscribe once and keep the last update. |
| Scenarios.TradedPositionSubscribesTwice | run.py:77-102 | The contract path and the position path each subscribe a traded instrument. |
| Scenarios.ValuationSkipsUnpriced | run.py:112-123 | A position without tick or contract is skipped; the other is valued 2 × 12 × 5. |

## Left out

- Start-up wiring (run.py:194-247): the Qt window, gateway construction and connection, and `main`. These are I/O and UI.
- `load_setting` (run.py:52-57): reading `setting.json` is file I/O. The trading set is the constructor's parameter instead.
- Registering handlers on the event bus (run.py:40-44), and the bus itself. Handlers are called directly, one event at a time.
- The valuation pass never runs in the program as written: the timer registration is commented out (run.py:43), so `process_timer_event` and `calculate_value` are unreachable. The model still specifies `calculate_value` as a method that can be called.
- `process_log_event` (run.py:108-110) prints, and `process_timer_event` (run.py:104-106) only calls `calculate_value`, whose printing becomes the returned value lines.
- Floating-point prices, volumes and sizes: modelled as unbounded integers, so rounding in `volume * last_price * size` and in `price ± 10` is not modelled.
- Wording of log messages: the log payload is the structured `BoughtOpen`/`SoldClose` with instrument and time.
- Gateway behaviour: `subscribe` and `send_order` are recorded, not executed; a failed order does not roll back the target, as in the source.
- Concurrency: the model handles events one at a time, each to completion.
- The Python `KeyError` of `run_trading` is an outcome value, not an exception. It leaves the cached tick and the appended history in place, as the exception would.
- Truthiness tests on records (`if not contract`, `if not tick or not contract`) are modelled as absence tests. Record objects are always truthy.
