/** Concrete runs of the strategy engine: each method builds a fresh engine,
    feeds it a short sequence of gateway events and states what the engine
    has sent and stored afterwards. */
module Scenarios {
  import opened Objects
  import opened Momentum
  import opened Valuation
  import opened Engine
  import Ledger

  /** The traded instrument of the runs below. */
  const Rebar := InstrumentKey("rb2401", "SHFE")
  /** An instrument that is held but not traded. */
  const Copper := InstrumentKey("cu2401", "SHFE")

  function RebarTick(datetime: int, price: int): Tick {
    Tick("rb2401", "SHFE", datetime, price)
  }

  function CopperPosition(volume: int): Position {
    Position("cu2401", "SHFE", Long, volume, "CTP")
  }

  /** The one known contract of the traded instrument. */
  const RebarContracts := map[Rebar := Contract("rb2401", "SHFE", 10)]

  /** The engine's trading state after one more tick: `h` is the history
      with that tick appended, `before` the state before it. */
  function Evaluate(h: seq<Tick>, before: Effects): Effects {
    TradingEffects(Rebar, h, RebarContracts, before.targets, before.orders, before.events)
  }

  /** Prices 10, 11, 12, 11, 10: the rise buys one lot at 12 + 10, the fall
      sells it at 10 - 10, and the target ends flat. */
  lemma MomentumRoundTrip()
    ensures var h := [RebarTick(1, 10), RebarTick(2, 11), RebarTick(3, 12),
                      RebarTick(4, 11), RebarTick(5, 10)];
            var r3 := Evaluate(h[..3], Effects(Completed, map[], [], []));
            var r4 := Evaluate(h[..4], r3);
            var r5 := Evaluate(h, r4);
            r3.orders == r4.orders == [OrderRequest("rb2401", "SHFE", Long, Limit, 22, 1, Open)] &&
            r5.orders == r4.orders + [OrderRequest("rb2401", "SHFE", Short, Limit, 0, 1, Close)] &&
            r3.targets[Rebar] == r4.targets[Rebar] == 1 && r5.targets[Rebar] == 0
  {
    var h := [RebarTick(1, 10), RebarTick(2, 11), RebarTick(3, 12), RebarTick(4, 11), RebarTick(5, 10)];
    var r3 := Evaluate(h[..3], Effects(Completed, map[], [], []));
    RiseWhenFlatOpens(Rebar, h[..3], RebarContracts, map[], [], []);
    var r4 := Evaluate(h[..4], r3);
    NoTrendHolds(Rebar, h[..4], RebarContracts, r3.targets, r3.orders, r3.events);
    FallWhenLongCloses(Rebar, h, RebarContracts, r4.targets, r4.orders, r4.events);
  }

  /** Prices 10, 11, 12, 13: a rise that goes on opens only once. */
  lemma RepeatedRiseOpensOnce()
    ensures var h := [RebarTick(1, 10), RebarTick(2, 11), RebarTick(3, 12), RebarTick(4, 13)];
            var r3 := Evaluate(h[..3], Effects(Completed, map[], [], []));
            var r4 := Evaluate(h, r3);
            r4.orders == [OrderRequest("rb2401", "SHFE", Long, Limit, 22, 1, Open)] &&
            r4.targets[Rebar] == 1
  {
    var h := [RebarTick(1, 10), RebarTick(2, 11), RebarTick(3, 12), RebarTick(4, 13)];
    var r3 := Evaluate(h[..3], Effects(Completed, map[], [], []));
    RiseWhenFlatOpens(Rebar, h[..3], RebarContracts, map[], [], []);
    RiseWhenLongHolds(Rebar, h, RebarContracts, r3.targets, r3.orders, r3.events);
  }

  /** A flat price sends nothing but still publishes the flat target. */
  lemma PlateauSendsNothing()
    ensures var h := [RebarTick(1, 10), RebarTick(2, 10), RebarTick(3, 10)];
            var r := Evaluate(h, Effects(Completed, map[], [], []));
            r.orders == [] && r.events == [StrategyEvent(Rebar, 3, 10, 0)] &&
            r.targets == map[Rebar := 0]
  {
    var h := [RebarTick(1, 10), RebarTick(2, 10), RebarTick(3, 10)];
    NoTrendHolds(Rebar, h, RebarContracts, map[], [], []);
  }

  /** A log line that names another instrument, or the opposite action,
      does not report the order: such a state breaks the ledger invariant. */
  lemma MismatchedLogBreaksLedger()
    ensures !LedgerValid(map[Rebar := 1], [OrderRequest("rb2401", "SHFE", Long, Limit, 22, 1, Open)],
                         [LogEvent(SoldClose(Copper, 0), StrategyGatewayName)])
  {
    var evs := [LogEvent(SoldClose(Copper, 0), StrategyGatewayName)];
    assert evs[..0] == [];
    var os := [OrderRequest("rb2401", "SHFE", Long, Limit, 22, 1, Open)];
    assert Ledger.LogLines(evs) == [SoldClose(Copper, 0)];
    assert !Ledger.Records(Ledger.LogLines(evs)[0], os[0]);
  }

  /** With two ticks the rule is not evaluated: no order, no event, no
      target, though both ticks are kept. */
  method TooFewTicks() returns (orders: seq<OrderRequest>, events: seq<Event>,
                                targets: map<InstrumentKey, int>, kept: seq<Tick>)
    ensures orders == [] && events == [] && targets == map[]
    ensures kept == [RebarTick(1, 10), RebarTick(2, 11)]
  {
    var e := new StrategyEngine({Rebar});
    e.ProcessContractEvent(Contract("rb2401", "SHFE", 10));
    var r := e.ProcessTickEvent(RebarTick(1, 10));
    r := e.ProcessTickEvent(RebarTick(2, 11));
    orders, events, targets, kept := e.orders, e.events, e.targets, e.HistoryOf(Rebar);
  }

  /** Three ticks of a traded instrument whose contract never arrived end
      the third evaluation in the missing-contract error, after the tick
      was cached and appended. */
  method TicksWithoutContract() returns (r: Outcome, latest: Tick, kept: nat, orders: seq<OrderRequest>)
    ensures r == MissingContract(Rebar)
    ensures latest == RebarTick(3, 12) && kept == 3 && orders == []
  {
    var e := new StrategyEngine({Rebar});
    r := e.ProcessTickEvent(RebarTick(1, 10));
    r := e.ProcessTickEvent(RebarTick(2, 11));
    r := e.ProcessTickEvent(RebarTick(3, 12));
    latest, kept, orders := e.ticks[Rebar], |e.HistoryOf(Rebar)|, e.orders;
  }

  /** Every contract event of a traded instrument subscribes again. */
  method ContractResubscribes() returns (calls: seq<SubscribeRequest>)
    ensures calls == [SubscribeRequest("rb2401", "SHFE"), SubscribeRequest("rb2401", "SHFE")]
  {
    var e := new StrategyEngine({Rebar});
    e.ProcessContractEvent(Contract("rb2401", "SHFE", 10));
    e.ProcessContractEvent(Contract("rb2401", "SHFE", 10));
    calls := e.subscribeCalls;
  }

  /** A position whose contract is not yet known does not subscribe, nor
      does the contract of an untraded instrument; the next position event
      does. */
  method PositionBeforeContract() returns (afterPosition: seq<SubscribeRequest>,
                                           afterContract: seq<SubscribeRequest>,
                                           afterSecond: seq<SubscribeRequest>)
    ensures afterPosition == [] && afterContract == []
    ensures afterSecond == [SubscribeRequest("cu2401", "SHFE")]
  {
    var e := new StrategyEngine({Rebar});
    e.ProcessPositionEvent(CopperPosition(2));
    afterPosition := e.subscribeCalls;
    e.ProcessContractEvent(Contract("cu2401", "SHFE", 5));
    afterContract := e.subscribeCalls;
    e.ProcessPositionEvent(CopperPosition(2));
    afterSecond := e.subscribeCalls;
  }

  /** However many updates of a position arrive once its contract is known,
      its instrument is subscribed once, and the last update is kept. */
  method RepeatedPositionSubscribesOnce(n: nat) returns (calls: seq<SubscribeRequest>,
                                                         held: map<PositionKey, Position>)
    ensures n == 0 ==> calls == [] && held == map[]
    ensures n > 0 ==> calls == [SubscribeRequest("cu2401", "SHFE")] &&
                      held == map[CopperPosition(n).VtPositionId() := CopperPosition(n)]
  {
    var e := new StrategyEngine({Rebar});
    e.ProcessContractEvent(Contract("cu2401", "SHFE", 5));
    var i := 0;
    while i < n
      invariant 0 <= i <= n
      invariant fresh(e) && e.Valid()
      invariant e.contracts == map[Copper := Contract("cu2401", "SHFE", 5)]
      invariant i == 0 ==> e.subscribed == {} && e.subscribeCalls == [] && e.positions == map[]
      invariant i > 0 ==> e.subscribed == {Copper} &&
                          e.subscribeCalls == [SubscribeRequest("cu2401", "SHFE")] &&
                          e.positions == map[CopperPosition(i).VtPositionId() := CopperPosition(i)]
    {
      e.ProcessPositionEvent(CopperPosition(i + 1));
      i := i + 1;
    }
    calls, held := e.subscribeCalls, e.positions;
  }

  /** A position of a traded instrument is subscribed both by its contract
      and by the next position event: the two paths do not share state. */
  method TradedPositionSubscribesTwice() returns (calls: seq<SubscribeRequest>)
    ensures calls == [SubscribeRequest("rb2401", "SHFE"), SubscribeRequest("rb2401", "SHFE")]
  {
    var e := new StrategyEngine({Rebar});
    e.ProcessContractEvent(Contract("rb2401", "SHFE", 10));
    e.ProcessPositionEvent(Position("rb2401", "SHFE", Long, 1, "CTP"));
    calls := e.subscribeCalls;
  }

  /** Valuation skips a position without a tick or contract and values the
      other one at volume * price * contract size. */
  lemma ValuationSkipsUnpriced()
    ensures var rebar, copper := Position("rb2401", "SHFE", Long, 3, "CTP"), CopperPosition(2);
            var positions := map[rebar.VtPositionId() := rebar, copper.VtPositionId() := copper];
            var ticks := map[Copper := Tick("cu2401", "SHFE", 1, 12)];
            var contracts := map[Copper := Contract("cu2401", "SHFE", 5)];
            Valuations([rebar.VtPositionId(), copper.VtPositionId()], positions, ticks, contracts) ==
              [ValueLine(Copper, Long, 2 * 12 * 5)]
  {
    var rebar, copper := Position("rb2401", "SHFE", Long, 3, "CTP"), CopperPosition(2);
    var positions := map[rebar.VtPositionId() := rebar, copper.VtPositionId() := copper];
    var ticks := map[Copper := Tick("cu2401", "SHFE", 1, 12)];
    var contracts := map[Copper := Contract("cu2401", "SHFE", 5)];
    assert Valuations([rebar.VtPositionId()], positions, ticks, contracts) == [];
  }
}
