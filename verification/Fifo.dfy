/** Realized profit and loss by first-in-first-out lot matching. The reference is a queue of single
    shares; the lot queue of `ComputeFifoRealizedPnl` refines it. */
module Fifo {
  import opened Exact
  import opened Domain
  import opened Sequences

  /** The open shares, oldest first, each with what it cost, and the result of every sell so far. */
  datatype Book = Book(queue: seq<real>, realized: seq<real>)

  predicate NonNegative(fills: seq<FillEvent>) {
    forall i :: 0 <= i < |fills| ==> 0 <= fills[i].quantity
  }

  function Shares(quantity: int, price: real): (r: seq<real>)
    ensures |r| == (if quantity <= 0 then 0 else quantity) && forall i :: 0 <= i < |r| ==> r[i] == price
  {
    if quantity <= 0 then [] else seq(quantity, _ => price)
  }

  function Fees(f: FillEvent): real {
    f.commission + f.tax + f.slippage
  }

  /** Selling shares that cost `cost` at `price` each. */
  function Gain(price: real, cost: seq<real>): real {
    if cost == [] then 0.0 else Gain(price, Init(cost)) + (price - Last(cost))
  }

  /** How many shares a sell of `quantity` takes from `available` open ones. */
  function Matched(quantity: int, available: nat): (m: nat)
    ensures m <= available
  {
    if quantity <= 0 then 0 else if quantity <= available then quantity else available
  }

  function Step(b: Book, f: FillEvent): Book {
    if f.side.Buy? then b.(queue := b.queue + Shares(f.quantity, f.price))
    else
      var m := Matched(f.quantity, |b.queue|);
      Book(b.queue[m..], b.realized + [Gain(f.price, b.queue[..m]) - Fees(f)])
  }

  function Replay(fills: seq<FillEvent>): Book {
    if fills == [] then Book([], []) else Step(Replay(Init(fills)), Last(fills))
  }

  datatype Lot = Lot(quantity: int, price: real)

  function Expand(lots: seq<Lot>): seq<real> {
    if lots == [] then [] else Shares(lots[0].quantity, lots[0].price) + Expand(lots[1..])
  }

  lemma {:induction false} ExpandAppend(lots: seq<Lot>, lot: Lot)
    ensures Expand(lots + [lot]) == Expand(lots) + Shares(lot.quantity, lot.price)
  {
    if lots == [] {
      assert [lot][1..] == [];
    } else {
      ExpandAppend(lots[1..], lot);
      assert (lots + [lot])[1..] == lots[1..] + [lot];
    }
  }

  lemma {:induction false} GainShares(price: real, cost: seq<real>, lotPrice: real, n: nat)
    ensures Gain(price, cost + Shares(n, lotPrice)) == Gain(price, cost) + Value(n, price - lotPrice)
  {
    hide Times, Gain;
    if n == 0 {
      TimesZero(price - lotPrice);
      assert cost + Shares(n, lotPrice) == cost;
    } else {
      GainShares(price, cost, lotPrice, n - 1);
      assert cost + Shares(n, lotPrice) == cost + Shares(n - 1, lotPrice) + [lotPrice];
      GainAppend(price, cost + Shares(n - 1, lotPrice), lotPrice);
      TimesPlus((n - 1) as real, 1.0, price - lotPrice);
      TimesOne(price - lotPrice);
    }
  }

  lemma GainAppend(price: real, cost: seq<real>, x: real)
    ensures Gain(price, cost + [x]) == Gain(price, cost) + (price - x)
  {
    assert Init(cost + [x]) == cost;
  }

  function CountSells(fills: seq<FillEvent>): nat {
    if fills == [] then 0 else CountSells(Init(fills)) + if Last(fills).side.Sell? then 1 else 0
  }

  ghost predicate LotsCarry(lots: seq<Lot>, queue: seq<real>) {
    (forall l :: 0 <= l < |lots| ==> 0 <= lots[l].quantity) && Expand(lots) == queue
  }

  /** The lot queue: a buy opens a lot, a sell closes against the oldest lots. */
  method ComputeFifoRealizedPnl(fills: seq<FillEvent>) returns (realized: seq<real>)
    ensures |realized| == CountSells(fills)
    ensures NonNegative(fills) ==> realized == Replay(fills).realized
  {
    hide Value, Gain, Fees, LotsCarry, Matched;
    var openLots: seq<Lot> := [];
    realized := [];
    assert LotsCarry([], []) by { NoLots(); }
    for i := 0 to |fills|
      invariant |realized| == CountSells(fills[..i])
      invariant NonNegative(fills) ==>
        LotsCarry(openLots, Replay(fills[..i]).queue) && realized == Replay(fills[..i]).realized
    {
      var fill := fills[i];
      assert Init(fills[..i + 1]) == fills[..i] && Last(fills[..i + 1]) == fill;
      if fill.side == Buy {
        if NonNegative(fills) { OpenLot(openLots, Replay(fills[..i]).queue, Lot(fill.quantity, fill.price)); }
        openLots := openLots + [Lot(fill.quantity, fill.price)];
        continue;
      }

      ghost var queue := Replay(fills[..i]).queue;
      var remaining := fill.quantity;
      var pnl := 0.0;
      assert queue[0..] == queue && Gain(fill.price, queue[..0]) == 0.0 by { GainNothing(fill.price, queue); }
      while remaining > 0 && openLots != []
        invariant NonNegative(fills) ==> 0 <= remaining <= fill.quantity && fill.quantity - remaining <= |queue|
        invariant NonNegative(fills) ==> LotsCarry(openLots, queue[fill.quantity - remaining..])
        invariant NonNegative(fills) ==> pnl == Gain(fill.price, queue[..fill.quantity - remaining])
        decreases |openLots|, remaining
      {
        var lot := openLots[0];
        var matched := if remaining <= lot.quantity then remaining else lot.quantity;
        if NonNegative(fills) {
          TakeFromLot(fill.price, queue, fill.quantity - remaining, openLots, remaining, matched);
        }
        pnl := pnl + Value(matched, fill.price - lot.price);
        remaining := remaining - matched;
        if matched == lot.quantity {
          openLots := openLots[1..];
        } else {
          openLots := openLots[0 := Lot(lot.quantity - matched, lot.price)];
        }
      }
      if NonNegative(fills) {
        SellDone(fill.quantity, remaining, queue, openLots);
      }
      pnl := pnl - Fees(fill);
      realized := realized + [pnl];
    }
    assert fills[..|fills|] == fills;
  }

  lemma NoLots()
    ensures LotsCarry([], [])
  {}

  lemma GainNothing(price: real, queue: seq<real>)
    ensures Gain(price, queue[..0]) == 0.0
  {}

  lemma OpenLot(lots: seq<Lot>, queue: seq<real>, lot: Lot)
    requires LotsCarry(lots, queue) && 0 <= lot.quantity
    ensures LotsCarry(lots + [lot], queue + Shares(lot.quantity, lot.price))
  {
    ExpandAppend(lots, lot);
  }

  /** When the loop stops, either the sell is done or no share is left. */
  lemma SellDone(quantity: int, remaining: int, queue: seq<real>, lots: seq<Lot>)
    requires 0 <= remaining <= quantity && quantity - remaining <= |queue|
    requires LotsCarry(lots, queue[quantity - remaining..])
    requires remaining <= 0 || lots == []
    ensures Matched(quantity, |queue|) == quantity - remaining
  {}

  /** Taking `matched` shares off the oldest lot moves the share queue on by as many. */
  lemma TakeFromLot(price: real, queue: seq<real>, taken: nat, lots: seq<Lot>, remaining: nat, matched: int)
    requires taken <= |queue| && LotsCarry(lots, queue[taken..]) && lots != []
    requires matched == if remaining <= lots[0].quantity then remaining else lots[0].quantity
    ensures 0 <= matched && taken + matched <= |queue|
    ensures Gain(price, queue[..taken + matched]) == Gain(price, queue[..taken]) + Value(matched, price - lots[0].price)
    ensures matched == lots[0].quantity ==> LotsCarry(lots[1..], queue[taken + matched..])
    ensures LotsCarry(lots[0 := Lot(lots[0].quantity - matched, lots[0].price)], queue[taken + matched..])
  {
    hide Value, Gain;
    var lot := lots[0];
    var rest := lots[0 := Lot(lot.quantity - matched, lot.price)];
    assert rest[1..] == lots[1..];
    assert queue[taken..taken + matched] == queue[taken..][..matched] == Shares(matched, lot.price);
    assert queue[..taken + matched] == queue[..taken] + Shares(matched, lot.price);
    GainShares(price, queue[..taken], lot.price, matched);
    assert queue[taken + matched..] == queue[taken..][matched..];
  }

  // ---- Which share is sold when ----

  /** What every share ever bought cost, in the order of buying. */
  function Bought(fills: seq<FillEvent>): seq<real> {
    if fills == [] then []
    else if Last(fills).side.Sell? then Bought(Init(fills))
    else Bought(Init(fills)) + Shares(Last(fills).quantity, Last(fills).price)
  }

  /** How many of them have been sold: never more than were there at the time. */
  function Consumed(fills: seq<FillEvent>): (c: nat)
    ensures c <= |Bought(fills)|
  {
    if fills == [] then 0
    else
      var c := Consumed(Init(fills));
      if Last(fills).side.Buy? then c else c + Matched(Last(fills).quantity, |Bought(Init(fills))| - c)
  }

  /** Each sell against the next shares in the order of buying. */
  function Paired(fills: seq<FillEvent>): seq<real> {
    if fills == [] then []
    else if Last(fills).side.Buy? then Paired(Init(fills))
    else
      var cost := Bought(fills)[Consumed(Init(fills))..Consumed(fills)];
      Paired(Init(fills)) + [Gain(Last(fills).price, cost) - Fees(Last(fills))]
  }

  /** The k-th matched sold share is the k-th bought share; shares sold beyond what was held
      match nothing and count for nothing. */
  lemma {:induction false} FifoPairing(fills: seq<FillEvent>)
    ensures Replay(fills).queue == Bought(fills)[Consumed(fills)..]
    ensures Replay(fills).realized == Paired(fills)
  {
    hide Step, Gain, Fees;
    if fills != [] {
      var prior, f := Init(fills), Last(fills);
      FifoPairing(prior);
      if f.side.Sell? {
        PairSell(Replay(prior), Bought(prior), Consumed(prior), f);
      } else {
        PairBuy(Replay(prior), Bought(prior), Consumed(prior), f);
      }
    }
  }

  lemma PairSell(b: Book, bought: seq<real>, c: nat, f: FillEvent)
    requires f.side.Sell? && c <= |bought| && b.queue == bought[c..]
    ensures var m := Matched(f.quantity, |bought| - c);
      Step(b, f) == Book(bought[c + m..], b.realized + [Gain(f.price, bought[c..c + m]) - Fees(f)])
  {
    hide Gain, Fees;
    var m := Matched(f.quantity, |bought| - c);
    assert bought[c..][..m] == bought[c..c + m];
    assert bought[c..][m..] == bought[c + m..];
  }

  lemma PairBuy(b: Book, bought: seq<real>, c: nat, f: FillEvent)
    requires f.side.Buy? && c <= |bought| && b.queue == bought[c..]
    ensures Step(b, f) == Book((bought + Shares(f.quantity, f.price))[c..], b.realized)
  {
    assert (bought + Shares(f.quantity, f.price))[c..] == bought[c..] + Shares(f.quantity, f.price);
  }

  /** What one sell realizes: it takes as many shares as are open, up to its quantity, next in the order
      of buying, and earns its price on each, less what they cost and less its own fees. */
  lemma {:induction false} SellRealizes(fills: seq<FillEvent>)
    requires fills != [] && Last(fills).side.Sell? && 0 <= Last(fills).quantity
    ensures var f, c, bought := Last(fills), Consumed(Init(fills)), Bought(fills);
      var open := |bought| - c; var m := if f.quantity <= open then f.quantity else open;
      && Consumed(fills) == c + m && bought == Bought(Init(fills))
      && Replay(fills).realized == Replay(Init(fills)).realized
           + [Value(m, f.price) - Sum(bought[c..c + m]) - (f.commission + f.tax + f.slippage)]
  {
    hide *;
    var f, c, bought := Last(fills), Consumed(Init(fills)), Bought(fills);
    FifoPairing(Init(fills));
    FifoPairing(fills);
    LastPair(fills);
    GainIsProceedsLessCost(f.price, bought[c..Consumed(fills)]);
  }

  lemma {:induction false} LastPair(fills: seq<FillEvent>)
    requires fills != [] && Last(fills).side.Sell? && 0 <= Last(fills).quantity
    ensures var f, c, bought := Last(fills), Consumed(Init(fills)), Bought(fills);
      var open := |bought| - c;
      && bought == Bought(Init(fills)) && Consumed(fills) == c + (if f.quantity <= open then f.quantity else open)
      && Paired(fills) == Paired(Init(fills)) + [Gain(f.price, bought[c..Consumed(fills)])
                                                 - (f.commission + f.tax + f.slippage)]
  {
    hide Gain, Value, Times, Replay;
    var before, f := Init(fills), Last(fills);
    assert Bought(fills) == Bought(before);
    assert Consumed(fills) == Consumed(before) + Matched(f.quantity, |Bought(before)| - Consumed(before));
    hide Bought, Consumed;
    var cost := Bought(fills)[Consumed(before)..Consumed(fills)];
    assert Paired(fills) == Paired(before) + [Gain(f.price, cost) - Fees(f)];
  }

  /** The indices of the sells. */
  function SellsAt(fills: seq<FillEvent>): set<nat> {
    set i: nat | i < |fills| && fills[i].side.Sell?
  }

  /** There is one result per sell. */
  lemma {:induction false} OneResultPerSell(fills: seq<FillEvent>)
    ensures |Replay(fills).realized| == CountSells(fills) == |SellsAt(fills)|
  {
    if fills != [] {
      OneResultPerSell(Init(fills));
      var last := |fills| - 1;
      assert SellsAt(fills) == SellsAt(Init(fills)) + if Last(fills).side.Sell? then {last} else {};
    }
  }

  // ---- Conservation ----

  function Sum(xs: seq<real>): real {
    if xs == [] then 0.0 else Sum(Init(xs)) + Last(xs)
  }

  lemma {:induction false} SumAppend(xs: seq<real>, ys: seq<real>)
    ensures Sum(xs + ys) == Sum(xs) + Sum(ys)
  {
    if ys == [] {
      assert xs + ys == xs;
    } else {
      SumAppend(xs, Init(ys));
      assert Init(xs + ys) == xs + Init(ys);
    }
  }

  lemma {:induction false} SumShares(n: nat, price: real)
    ensures Sum(Shares(n, price)) == Value(n, price)
  {
    hide Times;
    if n == 0 {
      TimesZero(price);
    } else {
      SumShares(n - 1, price);
      assert Init(Shares(n, price)) == Shares(n - 1, price);
      TimesPlus((n - 1) as real, 1.0, price);
      TimesOne(price);
    }
  }

  lemma {:induction false} GainIsProceedsLessCost(price: real, cost: seq<real>)
    ensures Gain(price, cost) == Value(|cost|, price) - Sum(cost)
  {
    hide Times;
    if cost == [] {
      TimesZero(price);
    } else {
      GainIsProceedsLessCost(price, Init(cost));
      TimesPlus((|cost| - 1) as real, 1.0, price);
      TimesOne(price);
    }
  }

  function BuyCost(fills: seq<FillEvent>): real {
    if fills == [] then 0.0
    else BuyCost(Init(fills)) + if Last(fills).side.Buy? then Value(Last(fills).quantity, Last(fills).price) else 0.0
  }

  function SellProceeds(fills: seq<FillEvent>): real {
    if fills == [] then 0.0
    else
      var f := Last(fills);
      SellProceeds(Init(fills)) + if f.side.Sell? then Value(f.quantity, f.price) else 0.0
  }

  function SellFees(fills: seq<FillEvent>): real {
    if fills == [] then 0.0 else SellFees(Init(fills)) + if Last(fills).side.Sell? then Fees(Last(fills)) else 0.0
  }

  /** What sells of shares that were not held would have brought in. */
  function Oversold(fills: seq<FillEvent>): real {
    if fills == [] then 0.0
    else
      var f := Last(fills);
      var held := |Replay(Init(fills)).queue|;
      Oversold(Init(fills)) + if f.side.Sell? then Value(f.quantity - Matched(f.quantity, held), f.price) else 0.0
  }

  /** No sell exceeds the shares then open. */
  predicate NoOverselling(fills: seq<FillEvent>) {
    fills == [] ||
    (&& NoOverselling(Init(fills))
     && (Last(fills).side.Sell? ==> Last(fills).quantity <= |Replay(Init(fills)).queue|))
  }

  /** Nothing is lost or made up: realized results are the proceeds of the matched shares, less
      what all shares cost, plus what the open ones cost, less the sell fees. */
  lemma {:induction false} Conservation(fills: seq<FillEvent>)
    requires NonNegative(fills)
    ensures Sum(Replay(fills).realized) ==
            SellProceeds(fills) - Oversold(fills) - BuyCost(fills) + Sum(Replay(fills).queue) - SellFees(fills)
  {
    hide Times, Gain, Fees, Matched;
    if fills != [] {
      Conservation(Init(fills));
      var b, f := Replay(Init(fills)), Last(fills);
      if f.side.Buy? {
        SumAppend(b.queue, Shares(f.quantity, f.price));
        SumShares(f.quantity, f.price);
      } else {
        ConserveSell(b, f);
      }
    }
  }

  lemma ConserveSell(b: Book, f: FillEvent)
    requires f.side.Sell? && 0 <= f.quantity
    ensures var m := Matched(f.quantity, |b.queue|);
      Sum(Step(b, f).realized) == Sum(b.realized) + Value(f.quantity, f.price) - Value(f.quantity - m, f.price)
                                  - Sum(b.queue) + Sum(b.queue[m..]) - Fees(f)
  {
    hide Times, Gain, Fees;
    var m := Matched(f.quantity, |b.queue|);
    assert b.queue == b.queue[..m] + b.queue[m..];
    SumAppend(b.queue[..m], b.queue[m..]);
    GainIsProceedsLessCost(f.price, b.queue[..m]);
    TimesPlus(m as real, (f.quantity - m) as real, f.price);
    assert Init(Step(b, f).realized) == b.realized;
  }

  /** Counting the full proceeds of every sell is right exactly when nothing was oversold. */
  lemma {:induction false} OversoldIff(fills: seq<FillEvent>)
    requires NonNegative(fills)
    requires forall i :: 0 <= i < |fills| && fills[i].side.Sell? ==> 0.0 < fills[i].price
    ensures 0.0 <= Oversold(fills)
    ensures Oversold(fills) == 0.0 <==> NoOverselling(fills)
  {
    hide Times;
    if fills != [] {
      OversoldIff(Init(fills));
      var f := Last(fills);
      var excess := f.quantity - Matched(f.quantity, |Replay(Init(fills)).queue|);
      if f.side.Sell? {
        if excess == 0 {
          TimesZero(f.price);
        } else {
          TimesPositive(excess as real, f.price);
        }
      }
    }
  }

  lemma RealizedIdentityIff(fills: seq<FillEvent>)
    requires NonNegative(fills)
    requires forall i :: 0 <= i < |fills| && fills[i].side.Sell? ==> 0.0 < fills[i].price
    ensures var total := SellProceeds(fills) - BuyCost(fills) + Sum(Replay(fills).queue) - SellFees(fills);
      Sum(Replay(fills).realized) == total <==> NoOverselling(fills)
  {
    Conservation(fills);
    OversoldIff(fills);
  }
}
