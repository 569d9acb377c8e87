/** The log of orders the engine has sent, read per instrument: how many lots
    it has bought to open minus how many it has sold to close. The engine's
    target position must always equal this net count, and no prefix of the
    log may ever hold more than one lot or a negative number of lots. */
module Ledger {
  import opened Objects

  /** A buy-to-open order for instrument `s`. */
  predicate OpensLong(o: OrderRequest, s: InstrumentKey) {
    o.VtSymbol() == s && o.direction == Long && o.offset == Open
  }

  /** A sell-to-close order for instrument `s`. */
  predicate ClosesLong(o: OrderRequest, s: InstrumentKey) {
    o.VtSymbol() == s && o.direction == Short && o.offset == Close
  }

  /** The only kind of order the strategy sends: one lot at a limit price,
      either buy-to-open or sell-to-close. */
  predicate OneLot(o: OrderRequest) {
    o.volume == 1 && o.orderType == Limit &&
    ((o.direction == Long && o.offset == Open) || (o.direction == Short && o.offset == Close))
  }

  /** The change in long lots for `s` that order `o` makes. */
  function Delta(o: OrderRequest, s: InstrumentKey): int {
    if OpensLong(o, s) then o.volume
    else if ClosesLong(o, s) then -o.volume
    else 0
  }

  /** Net long lots for `s` over an order log. */
  function NetLots(os: seq<OrderRequest>, s: InstrumentKey): int {
    if os == [] then 0 else NetLots(os[..|os| - 1], s) + Delta(os[|os| - 1], s)
  }

  /** Every instrument holds 0 or 1 lot after the orders `os`. */
  ghost predicate AtMostOneLot(os: seq<OrderRequest>) {
    forall s :: 0 <= NetLots(os, s) <= 1
  }

  /** At every point of the log, every instrument holds 0 or 1 lot. */
  ghost predicate NeverDoubled(os: seq<OrderRequest>) {
    forall k :: 0 <= k <= |os| ==> AtMostOneLot(os[..k])
  }

  /** The log lines of an event stream, in order. */
  function LogLines(evs: seq<Event>): seq<LogMsg> {
    if evs == [] then []
    else LogLines(evs[..|evs| - 1]) + (if evs[|evs| - 1].LogEvent? then [evs[|evs| - 1].msg] else [])
  }

  /** Log line `m` reports order `o`: a buy-to-open or a sell-to-close of
      the instrument it names. */
  predicate Records(m: LogMsg, o: OrderRequest) {
    match m
    case BoughtOpen(s, _) => OpensLong(o, s)
    case SoldClose(s, _) => ClosesLong(o, s)
  }

  lemma NetLotsAppend(os: seq<OrderRequest>, o: OrderRequest, s: InstrumentKey)
    ensures NetLots(os + [o], s) == NetLots(os, s) + Delta(o, s)
  {
    assert (os + [o])[..|os|] == os;
  }

  lemma LogLinesAppend(evs: seq<Event>, e: Event)
    ensures LogLines(evs + [e]) == LogLines(evs) + (if e.LogEvent? then [e.msg] else [])
  {
    assert (evs + [e])[..|evs|] == evs;
  }

  /** Reading the net count one order at a time. */
  lemma NetLotsStep(os: seq<OrderRequest>, k: nat, s: InstrumentKey)
    requires k < |os|
    ensures NetLots(os[..k + 1], s) == NetLots(os[..k], s) + Delta(os[k], s)
  {
    assert os[..k + 1][..k] == os[..k];
  }

  /** Appending an order keeps the log free of doubled positions as long as
      the full new log holds 0 or 1 lot for every instrument. */
  lemma NeverDoubledAppend(os: seq<OrderRequest>, o: OrderRequest)
    requires NeverDoubled(os) && AtMostOneLot(os + [o])
    ensures NeverDoubled(os + [o])
  {
    var os' := os + [o];
    forall k | 0 <= k <= |os'| ensures AtMostOneLot(os'[..k]) {
      if k <= |os| {
        assert os'[..k] == os[..k];
      } else {
        assert os'[..k] == os';
      }
    }
  }

  /** A log free of doubled positions holds 0 or 1 lot per instrument after
      each of its prefixes. */
  lemma NeverDoubledAt(os: seq<OrderRequest>, k: nat, s: InstrumentKey)
    requires NeverDoubled(os) && k <= |os|
    ensures 0 <= NetLots(os[..k], s) <= 1
  {
    assert AtMostOneLot(os[..k]);
  }

  /** Over a stretch of the log with no sell-to-close for `s`, the net count
      for `s` does not go down. */
  lemma {:induction false} NoCloseNoDecrease(os: seq<OrderRequest>, s: InstrumentKey, a: nat, b: nat)
    requires a <= b <= |os|
    requires forall k :: 0 <= k < |os| ==> OneLot(os[k])
    requires forall k :: a <= k < b ==> !ClosesLong(os[k], s)
    ensures NetLots(os[..a], s) <= NetLots(os[..b], s)
  {
    if a < b {
      NoCloseNoDecrease(os, s, a, b - 1);
      NetLotsStep(os, b - 1, s);
    }
  }

  /** Over a stretch of the log with no buy-to-open for `s`, the net count
      for `s` does not go up. */
  lemma {:induction false} NoOpenNoIncrease(os: seq<OrderRequest>, s: InstrumentKey, a: nat, b: nat)
    requires a <= b <= |os|
    requires forall k :: 0 <= k < |os| ==> OneLot(os[k])
    requires forall k :: a <= k < b ==> !OpensLong(os[k], s)
    ensures NetLots(os[..b], s) <= NetLots(os[..a], s)
  {
    if a < b {
      NoOpenNoIncrease(os, s, a, b - 1);
      NetLotsStep(os, b - 1, s);
    }
  }

  /** Two buy-to-open orders for `s` with no sell-to-close between them add
      at least two lots. */
  lemma TwoOpensAddTwo(os: seq<OrderRequest>, s: InstrumentKey, i: nat, j: nat)
    requires forall k :: 0 <= k < |os| ==> OneLot(os[k])
    requires i < j < |os| && OpensLong(os[i], s) && OpensLong(os[j], s)
    requires forall k :: i < k < j ==> !ClosesLong(os[k], s)
    ensures NetLots(os[..j + 1], s) >= NetLots(os[..i], s) + 2
  {
    assert OneLot(os[i]) && OneLot(os[j]);
    NetLotsStep(os, i, s);
    NoCloseNoDecrease(os, s, i + 1, j);
    NetLotsStep(os, j, s);
  }

  /** Never double-opening: between two buy-to-open orders for the same
      instrument there is a sell-to-close for it. */
  lemma SecondOpenNeedsClose(os: seq<OrderRequest>, s: InstrumentKey, i: nat, j: nat)
    requires NeverDoubled(os)
    requires forall k :: 0 <= k < |os| ==> OneLot(os[k])
    requires i < j < |os| && OpensLong(os[i], s) && OpensLong(os[j], s)
    ensures exists k :: i < k < j && ClosesLong(os[k], s)
  {
    if forall k :: i < k < j ==> !ClosesLong(os[k], s) {
      NeverDoubledAt(os, i, s);
      NeverDoubledAt(os, j + 1, s);
      TwoOpensAddTwo(os, s, i, j);
      assert false;
    }
  }

  /** Never closing while flat: every sell-to-close for an instrument is
      preceded by a buy-to-open for it. */
  lemma CloseNeedsOpen(os: seq<OrderRequest>, s: InstrumentKey, j: nat)
    requires NeverDoubled(os)
    requires forall k :: 0 <= k < |os| ==> OneLot(os[k])
    requires j < |os| && ClosesLong(os[j], s)
    ensures exists i :: 0 <= i < j && OpensLong(os[i], s)
  {
    assert os[..0] == [];
    NeverDoubledAt(os, j + 1, s);
    if forall i :: 0 <= i < j ==> !OpensLong(os[i], s) {
      NoOpenNoIncrease(os, s, 0, j);
      NetLotsStep(os, j, s);
      assert false;
    }
  }
}
