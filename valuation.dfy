/** The mark-to-market pass over the engine's positions: each position whose
    instrument has both a tick and a contract yields one value line of
    volume times last price times contract size; the others are skipped. */
module Valuation {
  import opened Objects

  /** One reported value (the source prints it). */
  datatype ValueLine = ValueLine(vtSymbol: InstrumentKey, direction: Direction, value: int)

  /** A position can be valued: its instrument has a tick and a contract. */
  predicate Priced(p: Position, ticks: map<InstrumentKey, Tick>, contracts: map<InstrumentKey, Contract>) {
    p.VtSymbol() in ticks && p.VtSymbol() in contracts
  }

  /** The value line of a position that can be valued. */
  function MarketValue(p: Position, ticks: map<InstrumentKey, Tick>, contracts: map<InstrumentKey, Contract>): ValueLine
    requires Priced(p, ticks, contracts)
  {
    ValueLine(p.VtSymbol(), p.direction,
              p.volume * ticks[p.VtSymbol()].lastPrice * contracts[p.VtSymbol()].size)
  }

  /** The value lines of the positions named by `ids`, in that order: a
      position without a tick or without a contract is skipped, the others
      yield their market value. */
  function Valuations(ids: seq<PositionKey>, positions: map<PositionKey, Position>,
                      ticks: map<InstrumentKey, Tick>, contracts: map<InstrumentKey, Contract>): (r: seq<ValueLine>)
    requires forall i :: 0 <= i < |ids| ==> ids[i] in positions
    ensures |r| <= |ids|
    ensures forall l :: l in r ==> l.vtSymbol in ticks && l.vtSymbol in contracts
  {
    if ids == [] then []
    else
      var p := positions[ids[|ids| - 1]];
      Valuations(ids[..|ids| - 1], positions, ticks, contracts)
        + (if Priced(p, ticks, contracts) then [MarketValue(p, ticks, contracts)] else [])
  }

  /** Every reported line belongs to a position that could be valued, and
      carries that position's instrument, direction and value; in
      particular no line is reported for an instrument without a tick or
      without a contract. */
  lemma {:induction false} ValuationsSound(ids: seq<PositionKey>, positions: map<PositionKey, Position>,
                                           ticks: map<InstrumentKey, Tick>, contracts: map<InstrumentKey, Contract>)
    requires forall i :: 0 <= i < |ids| ==> ids[i] in positions
    ensures forall l :: l in Valuations(ids, positions, ticks, contracts) ==>
              l.vtSymbol in ticks && l.vtSymbol in contracts &&
              exists i :: 0 <= i < |ids| && Priced(positions[ids[i]], ticks, contracts) &&
                          l == MarketValue(positions[ids[i]], ticks, contracts)
  {
    if ids != [] {
      var init := ids[..|ids| - 1];
      ValuationsSound(init, positions, ticks, contracts);
      forall l | l in Valuations(ids, positions, ticks, contracts)
        ensures exists i :: 0 <= i < |ids| && Priced(positions[ids[i]], ticks, contracts) &&
                            l == MarketValue(positions[ids[i]], ticks, contracts)
      {
        if l in Valuations(init, positions, ticks, contracts) {
          var i :| 0 <= i < |init| && Priced(positions[init[i]], ticks, contracts) &&
                   l == MarketValue(positions[init[i]], ticks, contracts);
          assert init[i] == ids[i];
        } else {
          assert l == MarketValue(positions[ids[|ids| - 1]], ticks, contracts);
        }
      }
    }
  }

  /** Every position that can be valued is reported. */
  lemma {:induction false} ValuationsComplete(ids: seq<PositionKey>, positions: map<PositionKey, Position>,
                                              ticks: map<InstrumentKey, Tick>, contracts: map<InstrumentKey, Contract>)
    requires forall i :: 0 <= i < |ids| ==> ids[i] in positions
    ensures forall i :: 0 <= i < |ids| && Priced(positions[ids[i]], ticks, contracts) ==>
              MarketValue(positions[ids[i]], ticks, contracts) in Valuations(ids, positions, ticks, contracts)
  {
    if ids != [] {
      var init := ids[..|ids| - 1];
      ValuationsComplete(init, positions, ticks, contracts);
      forall i | 0 <= i < |ids| - 1 ensures ids[i] == init[i] { }
    }
  }

  /** How many of the positions named by `ids` can be valued, counted
      from the front. */
  function PricedCount(ids: seq<PositionKey>, positions: map<PositionKey, Position>,
                       ticks: map<InstrumentKey, Tick>, contracts: map<InstrumentKey, Contract>): nat
    requires forall i :: 0 <= i < |ids| ==> ids[i] in positions
  {
    if ids == [] then 0
    else (if Priced(positions[ids[0]], ticks, contracts) then 1 else 0)
         + PricedCount(ids[1..], positions, ticks, contracts)
  }

  /** The front count read from the back. */
  lemma {:induction false} PricedCountLast(ids: seq<PositionKey>, positions: map<PositionKey, Position>,
                                           ticks: map<InstrumentKey, Tick>, contracts: map<InstrumentKey, Contract>)
    requires forall i :: 0 <= i < |ids| ==> ids[i] in positions
    requires ids != []
    ensures PricedCount(ids, positions, ticks, contracts) ==
              PricedCount(ids[..|ids| - 1], positions, ticks, contracts)
              + (if Priced(positions[ids[|ids| - 1]], ticks, contracts) then 1 else 0)
  {
    if |ids| > 1 {
      var tail := ids[1..];
      PricedCountLast(tail, positions, ticks, contracts);
      assert tail[..|tail| - 1] == ids[..|ids| - 1][1..];
      assert ids[..|ids| - 1][0] == ids[0];
    }
  }

  /** Exactly one line per position that can be valued: the number of
      lines is the number of priced positions. */
  lemma {:induction false} ValuationsCount(ids: seq<PositionKey>, positions: map<PositionKey, Position>,
                                           ticks: map<InstrumentKey, Tick>, contracts: map<InstrumentKey, Contract>)
    requires forall i :: 0 <= i < |ids| ==> ids[i] in positions
    ensures |Valuations(ids, positions, ticks, contracts)| == PricedCount(ids, positions, ticks, contracts)
  {
    if ids != [] {
      ValuationsCount(ids[..|ids| - 1], positions, ticks, contracts);
      PricedCountLast(ids, positions, ticks, contracts);
    }
  }
}
