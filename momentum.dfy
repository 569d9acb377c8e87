/** The momentum rule of the strategy engine and the effect of one
    evaluation of it (`run_trading`) on the engine's targets, its order log
    and its event stream, stated on values. */
module Momentum {
  import opened Objects
  import opened Ledger

  /** Price distance of the limit order from the newest price. */
  const PriceOffset: int := 10

  /** The three newest prices strictly rise (`newest` is the latest). */
  predicate Rising(newest: int, middle: int, oldest: int) {
    newest > middle > oldest
  }

  /** The three newest prices strictly fall. */
  predicate Falling(newest: int, middle: int, oldest: int) {
    newest < middle < oldest
  }

  datatype Action = OpenLong | CloseLong | Hold

  /** What one evaluation does, given the three newest prices and the
      current target: a rise opens when flat, a fall closes when long. */
  function Decide(newest: int, middle: int, oldest: int, target: int): (a: Action)
    ensures a == OpenLong <==> Rising(newest, middle, oldest) && target == 0
    ensures a == CloseLong <==> Falling(newest, middle, oldest) && target > 0
  {
    if Rising(newest, middle, oldest) && target == 0 then OpenLong
    else if Falling(newest, middle, oldest) && target > 0 then CloseLong
    else Hold
  }

  /** The target after an action. */
  function NextTarget(a: Action, target: int): int {
    match a
    case OpenLong => 1
    case CloseLong => 0
    case Hold => target
  }

  /** The read of the per-instrument target, which defaults to 0. */
  function TargetOf(targets: map<InstrumentKey, int>, s: InstrumentKey): int {
    if s in targets then targets[s] else 0
  }

  /** How an evaluation ended: normally, or on a missing contract (the
      source raises a KeyError there). */
  datatype Outcome = Completed | MissingContract(vtSymbol: InstrumentKey)

  /** The engine state an evaluation may change, with its outcome. */
  datatype Effects = Effects(outcome: Outcome, targets: map<InstrumentKey, int>,
                             orders: seq<OrderRequest>, events: seq<Event>)

  /** The order an action sends for contract `c` when the newest price is
      `price`. */
  function OrderFor(a: Action, c: Contract, price: int): seq<OrderRequest> {
    match a
    case OpenLong => [OrderRequest(c.symbol, c.exchange, Long, Limit, price + PriceOffset, 1, Open)]
    case CloseLong => [OrderRequest(c.symbol, c.exchange, Short, Limit, price - PriceOffset, 1, Close)]
    case Hold => []
  }

  /** The log line an action writes. */
  function LogFor(a: Action, s: InstrumentKey, datetime: int): seq<Event> {
    match a
    case OpenLong => [LogEvent(BoughtOpen(s, datetime), StrategyGatewayName)]
    case CloseLong => [LogEvent(SoldClose(s, datetime), StrategyGatewayName)]
    case Hold => []
  }

  /** One evaluation of the rule for instrument `s` whose tick history is
      `h` (oldest first). */
  function TradingEffects(s: InstrumentKey, h: seq<Tick>, contracts: map<InstrumentKey, Contract>,
                          targets: map<InstrumentKey, int>, orders: seq<OrderRequest>,
                          events: seq<Event>): (r: Effects)
    // at most one order, appended to the log
    ensures |orders| <= |r.orders| <= |orders| + 1 && r.orders[..|orders|] == orders
    ensures |events| <= |r.events| && r.events[..|events|] == events
    // no other instrument's target changes, and none is created for one
    ensures forall x :: x != s ==> TargetOf(r.targets, x) == TargetOf(targets, x)
    ensures forall x :: x in r.targets ==> x in targets || (x == s && |h| >= 3)
    // the KeyError happens exactly when three ticks exist and no contract does
    ensures r.outcome == MissingContract(s) <==> |h| >= 3 && s !in contracts
    ensures r.outcome != MissingContract(s) ==> r.outcome == Completed
    // fewer than three ticks or no contract: nothing happens
    ensures |h| < 3 || s !in contracts ==>
              r.targets == targets && r.orders == orders && r.events == events
    // otherwise the last event is the status carrying the new target
    ensures |h| >= 3 && s in contracts ==>
              s in r.targets && |r.events| > |events| &&
              r.events[|r.events| - 1] ==
                StrategyEvent(s, h[|h| - 1].datetime, h[|h| - 1].lastPrice, r.targets[s])
  {
    if |h| < 3 then Effects(Completed, targets, orders, events)
    else if s !in contracts then Effects(MissingContract(s), targets, orders, events)
    else
      var t1, t2, t3 := h[|h| - 1], h[|h| - 2], h[|h| - 3];
      var target := TargetOf(targets, s);
      var a := Decide(t1.lastPrice, t2.lastPrice, t3.lastPrice, target);
      var target' := NextTarget(a, target);
      Effects(Completed, targets[s := target'],
              orders + OrderFor(a, contracts[s], t1.lastPrice),
              events + LogFor(a, s, t1.datetime)
                     + [StrategyEvent(s, t1.datetime, t1.lastPrice, target')])
  }

  /** What the engine keeps true of its targets, orders and events: each
      target is the net lots sent for its instrument, every order is one
      limit lot, no instrument ever holds two lots or a negative number,
      and the k-th log line reports the k-th order. */
  ghost predicate LedgerValid(targets: map<InstrumentKey, int>, orders: seq<OrderRequest>,
                              events: seq<Event>)
  {
    (forall x :: NetLots(orders, x) == TargetOf(targets, x)) &&
    (forall k :: 0 <= k < |orders| ==> OneLot(orders[k])) &&
    NeverDoubled(orders) &&
    |LogLines(events)| == |orders| &&
    (forall k :: 0 <= k < |orders| ==> Records(LogLines(events)[k], orders[k]))
  }

  /** Under the ledger invariant every stored target is 0 (flat) or 1 (long
      one lot): the net lots sent never leave that range. */
  lemma LedgerTargetsBinary(targets: map<InstrumentKey, int>, orders: seq<OrderRequest>,
                            events: seq<Event>)
    requires LedgerValid(targets, orders, events)
    ensures forall x :: x in targets ==> targets[x] == 0 || targets[x] == 1
  {
    assert orders[..|orders|] == orders;
    forall x | x in targets ensures targets[x] == 0 || targets[x] == 1 {
      NeverDoubledAt(orders, |orders|, x);
      assert TargetOf(targets, x) == targets[x];
    }
  }

  /** A status event that re-stores the current target keeps the ledger. */
  lemma HoldKeepsLedger(s: InstrumentKey, targets: map<InstrumentKey, int>, orders: seq<OrderRequest>,
                        events: seq<Event>, status: Event)
    requires LedgerValid(targets, orders, events)
    requires status.StrategyEvent?
    ensures LedgerValid(targets[s := TargetOf(targets, s)], orders, events + [status])
  {
    var targets' := targets[s := TargetOf(targets, s)];
    assert forall x :: TargetOf(targets', x) == TargetOf(targets, x);
    LogLinesAppend(events, status);
  }

  /** Sending one lot for `s`, logging it and moving the target of `s` by
      the lots sent keeps the ledger, provided the new target is 0 or 1. */
  lemma OrderKeepsLedger(s: InstrumentKey, targets: map<InstrumentKey, int>, orders: seq<OrderRequest>,
                         events: seq<Event>, o: OrderRequest, log: Event, status: Event,
                         target': int)
    requires LedgerValid(targets, orders, events)
    requires OneLot(o) && o.VtSymbol() == s
    requires log.LogEvent? && Records(log.msg, o) && status.StrategyEvent?
    requires target' == TargetOf(targets, s) + Delta(o, s)
    requires target' == 0 || target' == 1
    ensures LedgerValid(targets[s := target'], orders + [o], events + [log] + [status])
  {
    assert orders[..|orders|] == orders;
    forall x ensures NetLots(orders + [o], x) == TargetOf(targets[s := target'], x) &&
                     0 <= NetLots(orders + [o], x) <= 1 {
      NetLotsAppend(orders, o, x);
      NeverDoubledAt(orders, |orders|, x);
    }
    NeverDoubledAppend(orders, o);
    LogLinesAppend(events, log);
    LogLinesAppend(events + [log], status);
  }

  /** An evaluation keeps the target in {0, 1}, equal to the net lots sent
      for the instrument, keeps every order one lot, never doubles a
      position and reports every order in the log line of the same rank. */
  lemma TradingKeepsLedger(s: InstrumentKey, h: seq<Tick>, contracts: map<InstrumentKey, Contract>,
                           targets: map<InstrumentKey, int>, orders: seq<OrderRequest>,
                           events: seq<Event>)
    requires LedgerValid(targets, orders, events)
    requires s in contracts ==> contracts[s].VtSymbol() == s
    ensures var r := TradingEffects(s, h, contracts, targets, orders, events);
            LedgerValid(r.targets, r.orders, r.events)
  {
    if |h| >= 3 && s in contracts {
      var t1, t2, t3 := h[|h| - 1], h[|h| - 2], h[|h| - 3];
      var target := TargetOf(targets, s);
      var a := Decide(t1.lastPrice, t2.lastPrice, t3.lastPrice, target);
      var status := StrategyEvent(s, t1.datetime, t1.lastPrice, NextTarget(a, target));
      if a == Hold {
        assert orders + OrderFor(a, contracts[s], t1.lastPrice) == orders;
        assert events + LogFor(a, s, t1.datetime) == events;
        HoldKeepsLedger(s, targets, orders, events, status);
      } else {
        var o := OrderFor(a, contracts[s], t1.lastPrice)[0];
        var log := LogFor(a, s, t1.datetime)[0];
        assert OrderFor(a, contracts[s], t1.lastPrice) == [o];
        assert LogFor(a, s, t1.datetime) == [log];
        assert orders[..|orders|] == orders;
        NeverDoubledAt(orders, |orders|, s);
        OrderKeepsLedger(s, targets, orders, events, o, log, status, NextTarget(a, target));
      }
    }
  }

  /** A strict rise while flat sends exactly one buy-to-open order for one
      lot at the newest price plus the offset, sets the target to 1 and logs it. */
  lemma RiseWhenFlatOpens(s: InstrumentKey, h: seq<Tick>, contracts: map<InstrumentKey, Contract>,
                          targets: map<InstrumentKey, int>, orders: seq<OrderRequest>,
                          events: seq<Event>)
    requires |h| >= 3 && s in contracts
    requires Rising(h[|h| - 1].lastPrice, h[|h| - 2].lastPrice, h[|h| - 3].lastPrice)
    requires TargetOf(targets, s) == 0
    ensures var r := TradingEffects(s, h, contracts, targets, orders, events);
            var c, t1 := contracts[s], h[|h| - 1];
            r.orders == orders + [OrderRequest(c.symbol, c.exchange, Long, Limit, t1.lastPrice + 10, 1, Open)] &&
            r.targets[s] == 1 &&
            r.events == events + [LogEvent(BoughtOpen(s, t1.datetime), "STRATEGY"),
                                  StrategyEvent(s, t1.datetime, t1.lastPrice, 1)]
  {
  }

  /** A strict rise while already long sends nothing and keeps the target. */
  lemma RiseWhenLongHolds(s: InstrumentKey, h: seq<Tick>, contracts: map<InstrumentKey, Contract>,
                          targets: map<InstrumentKey, int>, orders: seq<OrderRequest>,
                          events: seq<Event>)
    requires |h| >= 3 && s in contracts
    requires Rising(h[|h| - 1].lastPrice, h[|h| - 2].lastPrice, h[|h| - 3].lastPrice)
    requires TargetOf(targets, s) == 1
    ensures var r := TradingEffects(s, h, contracts, targets, orders, events);
            r.orders == orders && r.targets[s] == 1 &&
            r.events == events + [StrategyEvent(s, h[|h| - 1].datetime, h[|h| - 1].lastPrice, 1)]
  {
  }

  /** A strict fall while long sends exactly one sell-to-close order for one
      lot at the newest price minus the offset, sets the target to 0 and logs it. */
  lemma FallWhenLongCloses(s: InstrumentKey, h: seq<Tick>, contracts: map<InstrumentKey, Contract>,
                           targets: map<InstrumentKey, int>, orders: seq<OrderRequest>,
                           events: seq<Event>)
    requires |h| >= 3 && s in contracts
    requires Falling(h[|h| - 1].lastPrice, h[|h| - 2].lastPrice, h[|h| - 3].lastPrice)
    requires TargetOf(targets, s) > 0
    ensures var r := TradingEffects(s, h, contracts, targets, orders, events);
            var c, t1 := contracts[s], h[|h| - 1];
            r.orders == orders + [OrderRequest(c.symbol, c.exchange, Short, Limit, t1.lastPrice - 10, 1, Close)] &&
            r.targets[s] == 0 &&
            r.events == events + [LogEvent(SoldClose(s, t1.datetime), "STRATEGY"),
                                  StrategyEvent(s, t1.datetime, t1.lastPrice, 0)]
  {
  }

  /** A strict fall while flat sends nothing and keeps the target at 0. */
  lemma FallWhenFlatHolds(s: InstrumentKey, h: seq<Tick>, contracts: map<InstrumentKey, Contract>,
                          targets: map<InstrumentKey, int>, orders: seq<OrderRequest>,
                          events: seq<Event>)
    requires |h| >= 3 && s in contracts
    requires Falling(h[|h| - 1].lastPrice, h[|h| - 2].lastPrice, h[|h| - 3].lastPrice)
    requires TargetOf(targets, s) == 0
    ensures var r := TradingEffects(s, h, contracts, targets, orders, events);
            r.orders == orders && r.targets[s] == 0 &&
            r.events == events + [StrategyEvent(s, h[|h| - 1].datetime, h[|h| - 1].lastPrice, 0)]
  {
  }

  /** Without a strict rise or fall (equal prices included) nothing is sent
      and the target is kept, whatever it was. */
  lemma NoTrendHolds(s: InstrumentKey, h: seq<Tick>, contracts: map<InstrumentKey, Contract>,
                     targets: map<InstrumentKey, int>, orders: seq<OrderRequest>,
                     events: seq<Event>)
    requires |h| >= 3 && s in contracts
    requires !Rising(h[|h| - 1].lastPrice, h[|h| - 2].lastPrice, h[|h| - 3].lastPrice)
    requires !Falling(h[|h| - 1].lastPrice, h[|h| - 2].lastPrice, h[|h| - 3].lastPrice)
    ensures var r := TradingEffects(s, h, contracts, targets, orders, events);
            r.orders == orders && r.targets[s] == TargetOf(targets, s) &&
            r.events == events + [StrategyEvent(s, h[|h| - 1].datetime, h[|h| - 1].lastPrice,
                                                TargetOf(targets, s))]
  {
  }

  /** Equal neighbouring prices never trade. */
  lemma PlateauHolds(newest: int, middle: int, oldest: int, target: int)
    requires newest == middle || middle == oldest
    ensures Decide(newest, middle, oldest, target) == Hold
  {
  }

  /** Re-evaluating the same three prices after the target has moved does
      nothing more: the target alone gates repeated orders. */
  lemma DecideIdempotent(newest: int, middle: int, oldest: int, target: int)
    requires target == 0 || target == 1
    ensures var t' := NextTarget(Decide(newest, middle, oldest, target), target);
            (t' == 0 || t' == 1) && Decide(newest, middle, oldest, t') == Hold
  {
  }
}
