/** The strategy engine: the state it keeps per instrument and its event
    handlers. Calls into the trading gateway (`subscribe`, `send_order`) and
    puts on the event bus are recorded in the append-only sequences
    `subscribeCalls`, `orders` and `events`. */
module Engine {
  import opened Objects
  import opened Ledger
  import opened Momentum
  import opened Valuation

  /** Every stored contract is stored under its own instrument key. */
  ghost predicate ContractsKeyed(contracts: map<InstrumentKey, Contract>) {
    forall s :: s in contracts ==> contracts[s].VtSymbol() == s
  }

  /** `positionIds` lists every stored position id exactly once. */
  ghost predicate PositionOrderValid(positionIds: seq<PositionKey>, positions: map<PositionKey, Position>)
  {
    (forall i :: 0 <= i < |positionIds| ==> positionIds[i] in positions) &&
    (forall id :: id in positions ==> id in positionIds) &&
    (forall i, j :: 0 <= i < j < |positionIds| ==> positionIds[i] != positionIds[j])
  }

  /** The history kept for `s` belongs to a traded instrument, holds only
      ticks of `s`, and ends with the cached latest tick of `s`. */
  ghost predicate HistoryEntryValid(history: map<InstrumentKey, seq<Tick>>, s: InstrumentKey,
                                    ticks: map<InstrumentKey, Tick>, tradingSymbols: set<InstrumentKey>)
  {
    s in history && s in tradingSymbols && s in ticks &&
    history[s] != [] && history[s][|history[s]| - 1] == ticks[s] &&
    forall k :: 0 <= k < |history[s]| ==> history[s][k].VtSymbol() == s
  }

  /** Every kept history is valid. */
  ghost predicate HistoryValid(history: map<InstrumentKey, seq<Tick>>, ticks: map<InstrumentKey, Tick>,
                               tradingSymbols: set<InstrumentKey>)
  {
    forall s :: s in history ==> HistoryEntryValid(history, s, ticks, tradingSymbols)
  }

  /** At least three ticks of `s` have been seen. */
  ghost predicate WarmedUp(history: map<InstrumentKey, seq<Tick>>, s: InstrumentKey) {
    |HistoryIn(history, s)| >= 3
  }

  /** A target exists only for an instrument with three ticks or more. */
  ghost predicate TargetsValid(targets: map<InstrumentKey, int>, history: map<InstrumentKey, seq<Tick>>)
  {
    forall s :: s in targets ==> WarmedUp(history, s)
  }

  /** The tick history of `s` in `history`; absent means empty. */
  function HistoryIn(history: map<InstrumentKey, seq<Tick>>, s: InstrumentKey): seq<Tick> {
    if s in history then history[s] else []
  }

  /** Caching a tick, and appending it to its history when its instrument
      is traded, keeps the history invariant, and a target keeps the three
      ticks that allowed it. */
  lemma TickKeepsHistory(tick: Tick, ticks: map<InstrumentKey, Tick>, history: map<InstrumentKey, seq<Tick>>,
                         targets: map<InstrumentKey, int>, tradingSymbols: set<InstrumentKey>)
    requires HistoryValid(history, ticks, tradingSymbols)
    requires TargetsValid(targets, history)
    ensures var s := tick.VtSymbol();
            var ticks' := ticks[s := tick];
            var history' := if s in tradingSymbols then history[s := HistoryIn(history, s) + [tick]]
                            else history;
            HistoryValid(history', ticks', tradingSymbols) && TargetsValid(targets, history')
  {
    var s := tick.VtSymbol();
    var ticks' := ticks[s := tick];
    if s in tradingSymbols {
      var h': seq<Tick> := HistoryIn(history, s) + [tick];
      var history': map<InstrumentKey, seq<Tick>> := history[s := h'];
      forall x | x in history' ensures HistoryEntryValid(history', x, ticks', tradingSymbols) {
        if x == s {
          forall k | 0 <= k < |h'| ensures h'[k].VtSymbol() == x {
            if k < |h'| - 1 {
              assert h'[k] == history[s][k];
            }
          }
        } else {
          assert HistoryEntryValid(history, x, ticks, tradingSymbols);
        }
      }
      forall x | x in targets ensures WarmedUp(history', x) {
        assert WarmedUp(history, x);
      }
    } else {
      forall x | x in history ensures HistoryEntryValid(history, x, ticks', tradingSymbols) {
        assert HistoryEntryValid(history, x, ticks, tradingSymbols);
      }
    }
  }

  /** An evaluation creates a target only once three ticks exist, so the
      targets keep their backing history. */
  lemma TradingKeepsTargets(s: InstrumentKey, history: map<InstrumentKey, seq<Tick>>,
                            contracts: map<InstrumentKey, Contract>, targets: map<InstrumentKey, int>,
                            orders: seq<OrderRequest>, events: seq<Event>)
    requires TargetsValid(targets, history) && s in history
    ensures TargetsValid(TradingEffects(s, history[s], contracts, targets, orders, events).targets, history)
  {
    var r := TradingEffects(s, history[s], contracts, targets, orders, events);
    forall x | x in r.targets ensures WarmedUp(history, x) {
      if x !in targets {
        assert x == s && |history[s]| >= 3;
      }
    }
  }

  /** Storing a position keeps the insertion order valid. */
  lemma PositionKeepsOrder(position: Position, positions: map<PositionKey, Position>,
                           positionIds: seq<PositionKey>)
    requires PositionOrderValid(positionIds, positions)
    ensures var id := position.VtPositionId();
            var positionIds' := if id in positions then positionIds else positionIds + [id];
            PositionOrderValid(positionIds', positions[id := position])
  {
    var id := position.VtPositionId();
    if id !in positions {
      var positionIds' := positionIds + [id];
      forall i, j | 0 <= i < j < |positionIds'| ensures positionIds'[i] != positionIds'[j] {
        if j == |positionIds| {
          assert positionIds[i] in positions;
        }
      }
    }
  }

  class StrategyEngine {
    /** Instruments the strategy trades (read from the settings at start-up). */
    const tradingSymbols: set<InstrumentKey>

    var ticks: map<InstrumentKey, Tick>            // latest tick per instrument
    var contracts: map<InstrumentKey, Contract>    // latest contract per instrument
    var positions: map<PositionKey, Position>    // latest position per position id
    var positionIds: seq<PositionKey>            // the position ids in insertion order
    var subscribed: set<InstrumentKey>             // instruments subscribed for their positions
    var history: map<InstrumentKey, seq<Tick>>     // every tick of each traded instrument
    var targets: map<InstrumentKey, int>           // 0 flat, 1 long one lot

    var subscribeCalls: seq<SubscribeRequest>   // gateway.subscribe
    var orders: seq<OrderRequest>               // gateway.send_order
    var events: seq<Event>                      // event_engine.put

    ghost predicate Valid()
      reads this
    {
      ContractsKeyed(contracts) &&
      PositionOrderValid(positionIds, positions) &&
      TradingValid()
    }

    /** The invariant of the trading state: histories, targets and ledger. */
    ghost predicate TradingValid()
      reads this`history, this`ticks, this`targets, this`orders, this`events
    {
      HistoryValid(history, ticks, tradingSymbols) &&
      TargetsValid(targets, history) &&
      LedgerValid(targets, orders, events)
    }

    /** The tick history of `s`; absent means empty. */
    function HistoryOf(s: InstrumentKey): seq<Tick>
      reads this
    {
      HistoryIn(history, s)
    }

    constructor (tradingSymbols: set<InstrumentKey>)
      ensures Valid()
      ensures this.tradingSymbols == tradingSymbols
      ensures ticks == map[] && contracts == map[] && positions == map[] && positionIds == []
      ensures subscribed == {} && history == map[] && targets == map[]
      ensures subscribeCalls == [] && orders == [] && events == []
    {
      this.tradingSymbols := tradingSymbols;
      ticks, contracts, positions, positionIds := map[], map[], map[], [];
      subscribed, history, targets := {}, map[], map[];
      subscribeCalls, orders, events := [], [], [];
    }

    /** Tick event: cache the tick; for a traded instrument, append it to the
        history and evaluate the strategy. */
    method ProcessTickEvent(tick: Tick) returns (r: Outcome)
      requires Valid()
      modifies this`ticks, this`history, this`targets, this`orders, this`events
      ensures Valid()
      ensures ticks == old(ticks)[tick.VtSymbol() := tick]
      ensures tick.VtSymbol() !in tradingSymbols ==>
                r == Completed && history == old(history) && targets == old(targets) &&
                orders == old(orders) && events == old(events)
      ensures tick.VtSymbol() in tradingSymbols ==>
                history == old(history)[tick.VtSymbol() := old(HistoryOf(tick.VtSymbol())) + [tick]] &&
                Effects(r, targets, orders, events) ==
                  TradingEffects(tick.VtSymbol(), history[tick.VtSymbol()], contracts,
                                 old(targets), old(orders), old(events))
    {
      var s := tick.VtSymbol();
      TickKeepsHistory(tick, ticks, history, targets, tradingSymbols);
      ticks := ticks[s := tick];
      r := Completed;
      if s in tradingSymbols {
        history := history[s := HistoryOf(s) + [tick]];
        TradingKeepsLedger(s, history[s], contracts, targets, orders, events);
        TradingKeepsTargets(s, history, contracts, targets, orders, events);
        r := RunTrading(s);
      }
    }

    /** Contract event: store the contract; for a traded instrument, subscribe
        to its market data (on every such event). */
    method ProcessContractEvent(contract: Contract)
      requires Valid()
      modifies this`contracts, this`subscribeCalls
      ensures Valid()
      ensures contracts == old(contracts)[contract.VtSymbol() := contract]
      ensures subscribeCalls ==
                if contract.VtSymbol() in tradingSymbols
                then old(subscribeCalls) + [SubscribeRequest(contract.symbol, contract.exchange)]
                else old(subscribeCalls)
    {
      contracts := contracts[contract.VtSymbol() := contract];
      if contract.VtSymbol() in tradingSymbols {
        subscribeCalls := subscribeCalls + [SubscribeRequest(contract.symbol, contract.exchange)];
      }
    }

    /** Position event: store the position (last write wins); subscribe to
        its instrument unless that was already done for a position or its
        contract is still unknown. */
    method ProcessPositionEvent(position: Position)
      requires Valid()
      modifies this`positions, this`positionIds, this`subscribed, this`subscribeCalls
      ensures Valid()
      ensures positions == old(positions)[position.VtPositionId() := position]
      ensures positionIds == if position.VtPositionId() in old(positions) then old(positionIds)
                             else old(positionIds) + [position.VtPositionId()]
      ensures var s := position.VtSymbol();
              if s !in old(subscribed) && s in contracts then
                subscribed == old(subscribed) + {s} &&
                subscribeCalls == old(subscribeCalls) +
                                  [SubscribeRequest(contracts[s].symbol, contracts[s].exchange)]
              else
                subscribed == old(subscribed) && subscribeCalls == old(subscribeCalls)
    {
      StorePosition(position);
      SubscribeForPosition(position.VtSymbol());
    }

    /** Store a position under its id, keeping the insertion order. */
    method StorePosition(position: Position)
      requires PositionOrderValid(positionIds, positions)
      modifies this`positions, this`positionIds
      ensures PositionOrderValid(positionIds, positions)
      ensures positions == old(positions)[position.VtPositionId() := position]
      ensures positionIds == if position.VtPositionId() in old(positions) then old(positionIds)
                             else old(positionIds) + [position.VtPositionId()]
    {
      var id := position.VtPositionId();
      var ids' := if id in positions then positionIds else positionIds + [id];
      var positions' := positions[id := position];
      PositionKeepsOrder(position, positions, positionIds);
      assert PositionOrderValid(ids', positions');
      positionIds, positions := ids', positions';
    }

    /** Subscribe to `s` for a position unless that was already done or the
        contract of `s` is still unknown. */
    method SubscribeForPosition(s: InstrumentKey)
      requires Valid()
      modifies this`subscribed, this`subscribeCalls
      ensures Valid()
      ensures if s !in old(subscribed) && s in contracts then
                subscribed == old(subscribed) + {s} &&
                subscribeCalls == old(subscribeCalls) + [SubscribeRequest(contracts[s].symbol, contracts[s].exchange)]
              else
                subscribed == old(subscribed) && subscribeCalls == old(subscribeCalls)
    {
      if s in subscribed {
        return;
      }
      if s !in contracts {
        return;
      }
      var contract := contracts[s];
      subscribeCalls := subscribeCalls + [SubscribeRequest(contract.symbol, contract.exchange)];
      subscribed := subscribed + {s};
    }

    /** Valuation pass: one value line per position, in insertion order, for
        every position whose instrument has a tick and a contract. */
    method CalculateValue() returns (lines: seq<ValueLine>)
      requires Valid()
      ensures lines == Valuations(positionIds, positions, ticks, contracts)
      ensures forall l :: l in lines ==> l.vtSymbol in ticks && l.vtSymbol in contracts
    {
      lines := [];
      var i := 0;
      while i < |positionIds|
        invariant 0 <= i <= |positionIds|
        invariant lines == Valuations(positionIds[..i], positions, ticks, contracts)
      {
        var position := positions[positionIds[i]];
        var s := position.VtSymbol();
        assert positionIds[..i + 1][..i] == positionIds[..i];
        if s in ticks && s in contracts {
          var value := position.volume * ticks[s].lastPrice * contracts[s].size;
          lines := lines + [ValueLine(s, position.direction, value)];
        }
        i := i + 1;
      }
      assert positionIds[..i] == positionIds;
      ValuationsSound(positionIds, positions, ticks, contracts);
    }

    /** One evaluation of the momentum rule for traded instrument `s`, right
        after its newest tick was appended. */
    method RunTrading(s: InstrumentKey) returns (r: Outcome)
      requires s in history
      modifies this`targets, this`orders, this`events
      ensures Effects(r, targets, orders, events) ==
                TradingEffects(s, history[s], contracts, old(targets), old(orders), old(events))
    {
      ghost var before := TradingEffects(s, history[s], contracts, targets, orders, events);

      var h := history[s];
      if |h| < 3 {
        return Completed;
      }
      var tick1, tick2, tick3 := h[|h| - 1], h[|h| - 2], h[|h| - 3];
      if s !in contracts {
        return MissingContract(s);
      }
      var contract := contracts[s];
      ghost var target := TargetOf(targets, s);
      ghost var a := Decide(tick1.lastPrice, tick2.lastPrice, tick3.lastPrice, target);
      ghost var targets0, orders0, events0 := targets, orders, events;
      assert before == Effects(Completed, targets0[s := NextTarget(a, target)],
                               orders0 + OrderFor(a, contract, tick1.lastPrice),
                               events0 + LogFor(a, s, tick1.datetime) +
                                 [StrategyEvent(s, tick1.datetime, tick1.lastPrice, NextTarget(a, target))]);

      if tick1.lastPrice > tick2.lastPrice > tick3.lastPrice {
        if TargetOf(targets, s) == 0 {
          var req := OrderRequest(contract.symbol, contract.exchange, Long, Limit,
                                  tick1.lastPrice + PriceOffset, 1, Open);
          orders := orders + [req];
          targets := targets[s := 1];
          WriteLog(BoughtOpen(s, tick1.datetime));
        }
      }

      if tick1.lastPrice < tick2.lastPrice < tick3.lastPrice {
        if TargetOf(targets, s) > 0 {
          var req := OrderRequest(contract.symbol, contract.exchange, Short, Limit,
                                  tick1.lastPrice - PriceOffset, 1, Close);
          orders := orders + [req];
          targets := targets[s := 0];
          WriteLog(SoldClose(s, tick1.datetime));
        }
      }

      assert TargetOf(targets, s) == NextTarget(a, target);
      assert orders == orders0 + OrderFor(a, contract, tick1.lastPrice);
      assert events == events0 + LogFor(a, s, tick1.datetime);

      // reading the default-valued target stores it
      targets := targets[s := TargetOf(targets, s)];
      events := events + [StrategyEvent(s, tick1.datetime, tick1.lastPrice, targets[s])];
      r := Completed;
      assert targets == targets0[s := NextTarget(a, target)];
      assert Effects(r, targets, orders, events) == before;
    }

    /** Put a strategy log line on the event bus. */
    method WriteLog(msg: LogMsg)
      modifies this`events
      ensures events == old(events) + [LogEvent(msg, StrategyGatewayName)]
    {
      events := events + [LogEvent(msg, StrategyGatewayName)];
    }
  }
}
