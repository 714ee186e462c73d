/** What every bar of every run keeps: at most one order waits for the next bar, fills alternate and
    land on the bar after their signal, and the four event records agree with each other, with cash
    and with the position. */
module Trading {
  import opened Domain
  import opened Exact
  import opened Sequences
  import opened Sizing
  import opened Engine
  import Fifo

  // ---- The waiting order ----

  predicate Settled(s: State) {
    s.inbox == [] && s.context == map[]
  }

  /** The strategy remembers exactly the one order the broker holds, submitted on the last bar seen;
      a buy is only placed when flat and a sell is for the whole position. */
  predicate Waiting(seen: seq<Bar>, s: State) {
    && |s.inbox| == 1 && seen != []
    && var o := s.inbox[0];
    && s.context.Keys == {o.ref}
    && s.context[o.ref].side == o.side
    && s.context[o.ref].intendedQuantity == o.size
    && s.context[o.ref].createdAt == Last(seen).timestamp
    && 0 < o.size
    && (if o.side.Buy? then s.position == 0 else s.position == o.size)
  }

  // ---- The records ----

  /** Buys and sells alternate, and each sell is for what the buy before it bought. */
  predicate Alternating(fills: seq<FillEvent>) {
    forall j :: 0 <= j < |fills| ==>
      && fills[j].side == (if j % 2 == 0 then Buy else Sell)
      && 0 < fills[j].quantity
      && (j % 2 == 1 ==> fills[j].quantity == fills[j - 1].quantity)
  }

  function OpenQuantity(fills: seq<FillEvent>): int {
    if |fills| % 2 == 1 then Last(fills).quantity else 0
  }

  function EntryPrice(fills: seq<FillEvent>): real {
    if |fills| % 2 == 1 then Last(fills).price else 0.0
  }

  function FilledOrders(orders: seq<OrderEvent>): seq<OrderEvent> {
    if orders == [] then []
    else if Last(orders).status.Filled? then FilledOrders(Init(orders)) + [Last(orders)]
    else FilledOrders(Init(orders))
  }

  /** The four records of what was traded. */
  datatype Journal = Journal(orders: seq<OrderEvent>, fills: seq<FillEvent>, cashEvents: seq<CashEvent>,
                             positions: seq<PositionEvent>)

  function JournalOf(s: State): Journal {
    Journal(FilledOrders(s.orders), s.fills, s.cashEvents, s.positions)
  }

  function CashBefore(initial: real, cashEvents: seq<CashEvent>, j: nat): real
    requires j <= |cashEvents|
  {
    if j == 0 then initial else cashEvents[j - 1].cashAfter
  }

  /** A filled order, a fill, a cash event and a position event tell the same trade, and the cash
      event starts from `before`. */
  predicate SameTrade(before: real, o: OrderEvent, f: FillEvent, c: CashEvent, p: PositionEvent) {
    && o.orderId == f.orderId && o.side == f.side && o.intendedQuantity == f.quantity
    && c.timestamp == f.filledAt && p.timestamp == f.filledAt && c.reason == f.side && p.reason == f.side
    && c.cashBefore == before
    && c.cashAfter == before + (if f.side.Buy? then -Value(f.quantity, f.price) else Value(f.quantity, f.price))
    && p.quantity == (if f.side.Buy? then f.quantity else 0)
    && p.averageCost == (if f.side.Buy? then f.price else 0.0)
    && Fifo.Fees(f) == 0.0
  }

  /** The records correspond one to one, and each cash event starts where the one before it ended. */
  ghost predicate Records(initial: real, g: Journal) {
    && |g.orders| == |g.fills| == |g.cashEvents| == |g.positions|
    && forall j :: 0 <= j < |g.fills| ==>
         SameTrade(CashBefore(initial, g.cashEvents, j), g.orders[j], g.fills[j], g.cashEvents[j], g.positions[j])
  }

  /** Cash, position and share queue, each recomputed from the records. */
  predicate Balanced(initial: real, cash: real, position: int, g: Journal) {
    && cash == CashBefore(initial, g.cashEvents, |g.cashEvents|)
    && cash == initial - Fifo.BuyCost(g.fills) + Fifo.SellProceeds(g.fills)
    && position == OpenQuantity(g.fills)
    && Fifo.Replay(g.fills).queue == Fifo.Shares(position, EntryPrice(g.fills))
    && Fifo.NoOverselling(g.fills)
    && Fifo.SellFees(g.fills) == 0.0
  }

  /** The fill happened on bar `i`, at its open, and its order was created on the bar before. */
  predicate NextBarOpen(seen: seq<Bar>, i: int, o: OrderEvent, f: FillEvent) {
    && 1 <= i < |seen|
    && f.filledAt == seen[i].timestamp
    && f.price == seen[i].open
    && o.createdAt == seen[i - 1].timestamp
  }

  ghost predicate FilledNextBar(seen: seq<Bar>, o: OrderEvent, f: FillEvent) {
    exists i :: NextBarOpen(seen, i, o, f)
  }

  ghost predicate Timed(seen: seq<Bar>, g: Journal) {
    && |g.fills| == |g.orders|
    && (forall j :: 0 <= j < |g.fills| ==> FilledNextBar(seen, g.orders[j], g.fills[j]))
    && (forall i, j :: 0 <= i < j < |g.fills| ==> g.fills[i].filledAt < g.fills[j].filledAt)
  }

  ghost predicate Sound(initial: real, seen: seq<Bar>, s: State) {
    && Alternating(s.fills)
    && Records(initial, JournalOf(s))
    && Balanced(initial, s.cash, s.position, JournalOf(s))
    && Timed(seen, JournalOf(s))
  }

  // ---- One fill ----

  /** The next fill in line: a buy when flat, a sell of the open quantity otherwise. */
  predicate Fits(fills: seq<FillEvent>, side: Side, quantity: int) {
    && 0 < quantity
    && (side.Buy? <==> |fills| % 2 == 0)
    && (side.Sell? ==> quantity == OpenQuantity(fills))
  }

  /** The records with one more trade. */
  function Append(g: Journal, o: OrderEvent, f: FillEvent, c: CashEvent, p: PositionEvent): Journal {
    Journal(g.orders + [o], g.fills + [f], g.cashEvents + [c], g.positions + [p])
  }

  lemma AppendAlternating(fills: seq<FillEvent>, f: FillEvent)
    requires Alternating(fills) && Fits(fills, f.side, f.quantity)
    ensures Alternating(fills + [f])
  {}

  lemma AppendRecords(initial: real, g: Journal, o: OrderEvent, f: FillEvent, c: CashEvent, p: PositionEvent)
    requires Records(initial, g)
    requires SameTrade(CashBefore(initial, g.cashEvents, |g.cashEvents|), o, f, c, p)
    ensures Records(initial, Append(g, o, f, c, p))
  {
    hide SameTrade;
    var t := Append(g, o, f, c, p);
    forall j | 0 <= j < |t.fills|
      ensures SameTrade(CashBefore(initial, t.cashEvents, j), t.orders[j], t.fills[j], t.cashEvents[j], t.positions[j])
    {
      assert CashBefore(initial, t.cashEvents, j) == CashBefore(initial, g.cashEvents, j);
    }
  }

  lemma AppendBalanced(initial: real, cash: real, position: int, g: Journal,
                       o: OrderEvent, f: FillEvent, c: CashEvent, p: PositionEvent)
    requires Balanced(initial, cash, position, g) && Fits(g.fills, f.side, f.quantity)
    requires SameTrade(cash, o, f, c, p)
    ensures Balanced(initial, c.cashAfter, if f.side.Buy? then f.quantity else 0, Append(g, o, f, c, p))
  {
    hide Value, Fifo.Gain;
    var fills := g.fills + [f];
    assert Init(fills) == g.fills;
    assert Fifo.Replay(fills) == Fifo.Step(Fifo.Replay(g.fills), f);
    if f.side.Buy? {
      assert Fifo.Replay(g.fills).queue == [];
    }
  }

  lemma AppendTimed(seen: seq<Bar>, g: Journal, o: OrderEvent, f: FillEvent, c: CashEvent, p: PositionEvent)
    requires |seen| >= 2 && Chronological(seen) && Timed(Init(seen), g)
    requires NextBarOpen(seen, |seen| - 1, o, f)
    ensures Timed(seen, Append(g, o, f, c, p))
  {
    var t := Append(g, o, f, c, p);
    forall j | 0 <= j < |t.fills|
      ensures FilledNextBar(seen, t.orders[j], t.fills[j])
      ensures j < |g.fills| ==> t.fills[j].filledAt < f.filledAt
    {
      if j < |g.fills| {
        var i :| NextBarOpen(Init(seen), i, g.orders[j], g.fills[j]);
        assert NextBarOpen(seen, i, t.orders[j], t.fills[j]);
      } else {
        assert NextBarOpen(seen, |seen| - 1, t.orders[j], t.fills[j]);
      }
    }
  }

  lemma StillTimed(seen: seq<Bar>, g: Journal)
    requires seen != [] && Timed(Init(seen), g)
    ensures Timed(seen, g)
  {
    forall j | 0 <= j < |g.fills|
      ensures FilledNextBar(seen, g.orders[j], g.fills[j])
    {
      var i :| NextBarOpen(Init(seen), i, g.orders[j], g.fills[j]);
      assert NextBarOpen(seen, i, g.orders[j], g.fills[j]);
    }
  }

  // ---- One bar ----

  /** What a bar does to the order waiting from the bar before: fill it, at this bar's open, or drop
      it and leave cash, position and fills alone. */
  lemma DeliverOne(u: Setup, seen: seq<Bar>, s: State)
    requires seen != [] && Waiting(Init(seen), s)
    ensures var o, bar := s.inbox[0], Last(seen);
      var d, asked, c := Deliver(u, seen, s), s.(inbox := []), s.context[o.ref];
      var outcome := u.broker(seen, asked, o);
      && Settled(d) && d.idsDrawn == s.idsDrawn
      && d.orders == s.orders + [OrderEvent(c.orderId, o.side, Last(Init(seen)).timestamp, o.size,
                                            if outcome.OrderCompleted? then Filled else NotFilled(outcome))]
      && (outcome.OrderCompleted? ==>
            && d == HandleFill(asked, o.ref, bar).(position := if o.side.Buy? then o.size else 0)
            && d.fills == s.fills + [FillEvent(c.orderId, o.side, bar.timestamp, o.size, bar.open, 0.0, 0.0, 0.0)]
            && d.cash == (if o.side.Buy? then s.cash - Value(o.size, bar.open) else s.cash + Value(o.size, bar.open))
            && d.warnings == s.warnings + if bar.volume == 0 then [Warning(ZeroVolumeFill, bar.timestamp)] else [])
      && (!outcome.OrderCompleted? ==>
            d == asked.(context := map[], orders := d.orders) && FilledOrders(d.orders) == FilledOrders(s.orders))
  {
    hide Value;
    var o, asked := s.inbox[0], s.(inbox := []);
    assert s.inbox[1..] == [];
    var d := Resolve(u, seen, asked, o);
    assert s.context - {o.ref} == map[];
    assert Deliver(u, seen, d) == d;
    if !u.broker(seen, asked, o).OrderCompleted? {
      assert Init(d.orders) == s.orders;
    }
  }

  lemma DeliverSound(u: Setup, seen: seq<Bar>, s: State, initial: real)
    requires seen != [] && Chronological(seen)
    requires Settled(s) || Waiting(Init(seen), s)
    requires Sound(initial, Init(seen), s)
    ensures Settled(Deliver(u, seen, s)) && Sound(initial, seen, Deliver(u, seen, s))
  {
    hide HandleFill, Balanced, Records, Timed, Alternating;
    if Settled(s) {
      StillTimed(seen, JournalOf(s));
    } else {
      DeliverOne(u, seen, s);
      var o, asked, d := s.inbox[0], s.(inbox := []), Deliver(u, seen, s);
      if u.broker(seen, asked, o).OrderCompleted? {
        FillSound(seen, s, o, initial);
      } else {
        assert JournalOf(d) == JournalOf(s);
        StillTimed(seen, JournalOf(s));
      }
    }
  }

  lemma FillSound(seen: seq<Bar>, s: State, o: BrokerOrder, initial: real)
    requires seen != [] && Chronological(seen) && Waiting(Init(seen), s) && o == s.inbox[0]
    requires Sound(initial, Init(seen), s)
    ensures var t := HandleFill(s.(inbox := []), o.ref, Last(seen));
      Sound(initial, seen, t.(position := if o.side.Buy? then o.size else 0))
  {
    hide Value, Balanced, Records, Timed, Alternating;
    var g, t := JournalOf(s), HandleFill(s.(inbox := []), o.ref, Last(seen));
    var oe, f, c, p := Last(t.orders), Last(t.fills), Last(t.cashEvents), Last(t.positions);
    assert Init(t.orders) == s.orders;
    assert JournalOf(t) == Append(g, oe, f, c, p);
    PositionSaysTurn(initial, s);
    AppendAlternating(s.fills, f);
    assert SameTrade(s.cash, oe, f, c, p);
    AppendRecords(initial, g, oe, f, c, p);
    AppendBalanced(initial, s.cash, s.position, g, oe, f, c, p);
    assert NextBarOpen(seen, |seen| - 1, oe, f);
    AppendTimed(seen, g, oe, f, c, p);
  }

  lemma PositionSaysTurn(initial: real, s: State)
    requires Alternating(s.fills) && Balanced(initial, s.cash, s.position, JournalOf(s))
    ensures 0 <= s.position == OpenQuantity(s.fills) && (s.position == 0 <==> |s.fills| % 2 == 0)
    ensures s.cash == CashBefore(initial, s.cashEvents, |s.cashEvents|)
  {}

  /** Looking at the close changes nothing that is booked; it submits at most one order. */
  lemma NextSound(u: Setup, seen: seq<Bar>, s: State, initial: real)
    requires ValidParams(u.params) && seen != []
    requires Settled(s) && Sound(initial, seen, s)
    ensures var n := Next(u, seen, s);
      && (Settled(n) || Waiting(seen, n)) && Sound(initial, seen, n)
      && (Waiting(seen, n) <==> Submits(u, seen, s))
  {
    hide OrderQuantity, Records, Timed, Alternating, Fifo.Replay, Fifo.BuyCost, Fifo.SellProceeds;
    PositionSaysTurn(initial, s);
    assert JournalOf(Next(u, seen, s)) == JournalOf(s);
  }

  /** Past the warm-up, flat and at a positive close, every line signals entry. */
  predicate WantsEntry(u: Setup, seen: seq<Bar>, s: State)
    requires seen != []
  {
    && u.params.eligibleAfterBars <= |seen| && s.position == 0 && 0.0 < Last(seen).close
    && forall i :: 0 <= i < |u.lines| ==> u.lines[i].entry(seen)
  }

  /** Past the warm-up and holding shares, some line signals exit. */
  predicate WantsExit(u: Setup, seen: seq<Bar>, s: State) {
    && u.params.eligibleAfterBars <= |seen| && 0 < s.position
    && exists i :: 0 <= i < |u.lines| && u.lines[i].exit(seen)
  }

  /** An order is created at this bar's close, in terms of the state after this bar's open. */
  predicate Submits(u: Setup, seen: seq<Bar>, s: State)
    requires ValidParams(u.params) && seen != []
  {
    || (WantsEntry(u, seen, s) && 0 < OrderQuantity(u.params, s.cash, Last(seen).close))
    || WantsExit(u, seen, s)
  }

  /** The one order asked for since state `s`, remembered with the id drawn for it; nothing else has changed. */
  predicate Asked(s: State, n: State, side: Side, size: int, createdAt: int) {
    && n.inbox == [BrokerOrder(s.nextRef, side, size)]
    && n.context == map[s.nextRef := OrderContext(s.idsDrawn, side, size, createdAt)]
    && n == s.(inbox := n.inbox, context := n.context, nextRef := s.nextRef + 1, idsDrawn := s.idsDrawn + 1)
  }

  /** What a close decides: a buy of the sized quantity, a warning in its place when that is not
      positive, a sell of the whole position, or nothing; and each of them only then. */
  lemma SignalsDecide(u: Setup, seen: seq<Bar>, s: State)
    requires ValidParams(u.params) && seen != [] && Settled(s)
    ensures var n, bar := Next(u, seen, s), Last(seen);
      && (n.inbox != [] && n.inbox[0].side.Buy? <==>
            WantsEntry(u, seen, s) && 0 < OrderQuantity(u.params, s.cash, bar.close))
      && (n.inbox != [] && n.inbox[0].side.Sell? <==> WantsExit(u, seen, s))
      && (n.warnings != s.warnings <==>
            WantsEntry(u, seen, s) && OrderQuantity(u.params, s.cash, bar.close) <= 0)
      && (if n.inbox != [] && n.inbox[0].side.Buy? then
            Asked(s, n, Buy, OrderQuantity(u.params, s.cash, bar.close), bar.timestamp)
          else if n.inbox != [] then Asked(s, n, Sell, s.position, bar.timestamp)
          else if n.warnings != s.warnings then
            n == s.(warnings := s.warnings + [Warning(PositionSizingZeroQuantity, bar.timestamp)])
          else n == s)
  {
    hide OrderQuantity;
    var n := Next(u, seen, s);
    assert n.warnings != s.warnings ==> |n.warnings| == |s.warnings| + 1;
  }

  // ---- Whole runs ----

  lemma StartSound(p: Params, firstId: nat)
    ensures Settled(Start(p, firstId)) && Sound(p.initialCash, [], Start(p, firstId))
  {}

  /** The invariant, after every bar of every run, whatever the signals and the broker do. */
  lemma {:induction false} RunSound(u: Setup, bars: seq<Bar>, k: nat, firstId: nat)
    requires ValidParams(u.params) && k <= |bars| && Chronological(bars)
    ensures var s := Run(u, bars, k, firstId);
      (Settled(s) || Waiting(bars[..k], s)) && Sound(u.params.initialCash, bars[..k], s)
  {
    hide Sound, Settled, Waiting, Next, Deliver;
    if k == 0 {
      StartSound(u.params, firstId);
      assert bars[..0] == [];
    } else {
      RunSound(u, bars, k - 1, firstId);
      var seen, s := bars[..k], Run(u, bars, k - 1, firstId);
      assert Init(seen) == bars[..k - 1];
      DeliverSound(u, seen, s, u.params.initialCash);
      NextSound(u, seen, Deliver(u, seen, s), u.params.initialCash);
    }
  }

  /** A run fails, with `missing_next_bar`, exactly when its last bar creates an order. */
  lemma FailsIff(u: Setup, bars: seq<Bar>, firstId: nat)
    requires ValidParams(u.params) && Chronological(bars)
    ensures var r := Execute(u, bars, firstId);
      && (r.terminalStatus.RunFailed? <==>
            bars != [] && Submits(u, bars, Deliver(u, bars, Run(u, bars, |bars| - 1, firstId))))
      && (r.terminalStatus.RunFailed? <==> r.failureCode.Some?)
      && (r.failureCode.Some? ==> r.failureCode.value == MissingNextBar)
    ensures var r, s := Execute(u, bars, firstId), Run(u, bars, |bars|, firstId);
      && r.orders == s.orders && r.fills == s.fills && r.positions == s.positions && r.cashEvents == s.cashEvents
      && r.warnings == s.warnings
  {
    hide Sound, Submits, Next, Deliver;
    assert bars[..|bars|] == bars;
    RunSound(u, bars, |bars|, firstId);
    if bars != [] {
      RunSound(u, bars, |bars| - 1, firstId);
      var s := Run(u, bars, |bars| - 1, firstId);
      assert Init(bars) == bars[..|bars| - 1];
      DeliverSound(u, bars, s, u.params.initialCash);
      NextSound(u, bars, Deliver(u, bars, s), u.params.initialCash);
    }
  }

  // ---- No look-ahead ----

  /** Two runs whose bars agree up to bar `k` are in the same state there, whatever comes later. */
  lemma {:induction false} NoLookAhead(u: Setup, a: seq<Bar>, b: seq<Bar>, k: nat, firstId: nat)
    requires ValidParams(u.params) && k <= |a| && k <= |b| && a[..k] == b[..k]
    ensures Run(u, a, k, firstId) == Run(u, b, k, firstId)
  {
    if k > 0 {
      assert a[..k - 1] == a[..k][..k - 1] && b[..k - 1] == b[..k][..k - 1];
      NoLookAhead(u, a, b, k - 1, firstId);
    }
  }

  predicate Extends(early: State, late: State) {
    && early.orders <= late.orders && early.fills <= late.fills && early.cashEvents <= late.cashEvents
    && early.positions <= late.positions && early.warnings <= late.warnings && early.idsDrawn <= late.idsDrawn
  }

  /** Records only grow: what has been reported by bar `k` is never changed by a later bar. */
  lemma {:induction false} RecordsGrow(u: Setup, bars: seq<Bar>, k: nat, m: nat, firstId: nat)
    requires ValidParams(u.params) && k <= m <= |bars|
    ensures Extends(Run(u, bars, k, firstId), Run(u, bars, m, firstId))
    decreases m
  {
    hide Deliver, Next;
    if k < m {
      RecordsGrow(u, bars, k, m - 1, firstId);
      var s := Run(u, bars, m - 1, firstId);
      DeliverGrows(u, bars[..m], s);
      NextGrows(u, bars[..m], Deliver(u, bars[..m], s));
    }
  }

  /** So whatever one run has reported by bar `k`, every run that agrees up to there reports too. */
  lemma ReportsNeverRevised(u: Setup, a: seq<Bar>, b: seq<Bar>, k: nat, firstId: nat)
    requires ValidParams(u.params) && k <= |a| && k <= |b| && a[..k] == b[..k]
    ensures Extends(Run(u, a, k, firstId), Run(u, b, |b|, firstId))
  {
    NoLookAhead(u, a, b, k, firstId);
    RecordsGrow(u, b, k, |b|, firstId);
  }

  lemma NextGrows(u: Setup, seen: seq<Bar>, s: State)
    requires ValidParams(u.params) && seen != []
    ensures Extends(s, Next(u, seen, s))
  {
    hide OrderQuantity, EntrySignal, ExitSignal;
  }

  lemma {:induction false} DeliverGrows(u: Setup, seen: seq<Bar>, s: State)
    requires seen != []
    ensures Extends(s, Deliver(u, seen, s))
    decreases |s.inbox|
  {
    hide Value, Resolve;
    if s.inbox != [] {
      var t := Resolve(u, seen, s.(inbox := s.inbox[1..]), s.inbox[0]);
      ResolveGrows(u, seen, s.(inbox := s.inbox[1..]), s.inbox[0]);
      DeliverGrows(u, seen, t);
    }
  }

  lemma ResolveGrows(u: Setup, seen: seq<Bar>, s: State, o: BrokerOrder)
    requires seen != []
    ensures Extends(s, Resolve(u, seen, s, o)) && Resolve(u, seen, s, o).inbox == s.inbox
  {
    hide Value;
  }

  // ---- Solvency ----

  /** The broker's own cash check: a buy is executed only when its cost at the open is covered. */
  ghost predicate ChecksCash(broker: Broker) {
    forall seen: seq<Bar>, s: State, o: BrokerOrder ::
      seen != [] && o.side.Buy? && broker(seen, s, o).OrderCompleted? ==> Value(o.size, Last(seen).open) <= s.cash
  }

  /** With such a broker, cash is never negative, after any bar. */
  lemma {:induction false} Solvent(u: Setup, bars: seq<Bar>, k: nat, firstId: nat)
    requires ValidParams(u.params) && k <= |bars| && Chronological(bars)
    requires forall i :: 0 <= i < |bars| ==> ValidBar(bars[i])
    requires ChecksCash(u.broker)
    ensures 0.0 <= Run(u, bars, k, firstId).cash
  {
    hide Value, Sound, ChecksCash, Next, Deliver;
    if k > 0 {
      Solvent(u, bars, k - 1, firstId);
      RunSound(u, bars, k - 1, firstId);
      var seen, s := bars[..k], Run(u, bars, k - 1, firstId);
      assert Init(seen) == bars[..k - 1];
      DeliverSolvent(u, seen, s);
      NextKeepsCash(u, seen, Deliver(u, seen, s));
    }
  }

  lemma NextKeepsCash(u: Setup, seen: seq<Bar>, s: State)
    requires ValidParams(u.params) && seen != []
    ensures Next(u, seen, s).cash == s.cash
  {
    hide OrderQuantity;
  }

  lemma DeliverSolvent(u: Setup, seen: seq<Bar>, s: State)
    requires seen != [] && ValidBar(Last(seen)) && ChecksCash(u.broker) && 0.0 <= s.cash
    requires Settled(s) || Waiting(Init(seen), s)
    ensures 0.0 <= Deliver(u, seen, s).cash
  {
    hide Value;
    if s.inbox != [] {
      DeliverOne(u, seen, s);
      ValueNonNegative(s.inbox[0].size, Last(seen).open);
    }
  }

  lemma ValueNonNegative(quantity: int, price: real)
    requires 0 <= quantity && 0.0 <= price
    ensures 0.0 <= Value(quantity, price)
  {
    TimesNonNegative(quantity as real, price);
  }
}
