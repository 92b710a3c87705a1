/** Splitting a fill in two at one price and time changes nothing the ledger can show. */
module FifoSplit {
  import opened Domain
  import opened Sums
  import opened Tables
  import opened Lots
  import opened Fifo

  // ── The second query returns the lots the first one left open ────

  lemma InsertUnfolds(lots: seq<Lot>, queue: seq<nat>, i: nat)
    requires i < |lots| && InRange(queue, i) && queue != []
    ensures Insert(lots, queue, i) ==
            if Before(lots[i], lots[queue[0]]) then [i] + queue else [queue[0]] + Insert(lots, queue[1..], i)
  {
    if !Before(lots[i], lots[queue[0]]) {
      var p := InsertionPoint(lots, queue[1..], i);
      assert queue[..p + 1] == [queue[0]] + queue[1..][..p];
      assert queue[p + 1..] == queue[1..][p..];
    }
  }

  /** `now` holds the rows of `was`, possibly with less open quantity, and maybe more rows. */
  ghost predicate Later(was: seq<Lot>, now: seq<Lot>) {
    && |was| <= |now|
    && forall i :: 0 <= i < |was| ==>
         now[i] == was[i].(qtyOpen := now[i].qtyOpen, realizedPnl := now[i].realizedPnl, closedAt := now[i].closedAt)
  }

  lemma {:induction false} InsertInFront(lots: seq<Lot>, queue: seq<nat>, i: nat)
    requires i < |lots| && InRange(queue, i)
    requires forall k :: 0 <= k < |queue| ==> Before(lots[i], lots[queue[k]])
    ensures Insert(lots, queue, i) == [i] + queue
  {
    assert InsertionPoint(lots, queue, i) == 0;
  }

  lemma {:induction false} StillOpenIsPart(lots: seq<Lot>, queue: seq<nat>, n: nat)
    requires InRange(queue, |lots|) && InRange(queue, n)
    ensures InRange(StillOpen(lots, queue), n)
    ensures forall k :: 0 <= k < |StillOpen(lots, queue)| ==> exists j :: 0 <= j < |queue| && queue[j] == StillOpen(lots, queue)[k]
  {
    if queue != [] {
      StillOpenIsPart(lots, queue[1..], n);
      forall k | 0 <= k < |StillOpen(lots, queue)|
        ensures exists j :: 0 <= j < |queue| && queue[j] == StillOpen(lots, queue)[k]
      {
        var rest := StillOpen(lots, queue[1..]);
        if lots[queue[0]].qtyOpen > 0.0 {
          if k == 0 {
            assert queue[0] == StillOpen(lots, queue)[0];
          } else {
            var j :| 0 <= j < |queue[1..]| && queue[1..][j] == rest[k - 1];
            assert queue[j + 1] == StillOpen(lots, queue)[k];
          }
        } else {
          var j :| 0 <= j < |queue[1..]| && queue[1..][j] == rest[k];
          assert queue[j + 1] == StillOpen(lots, queue)[k];
        }
      }
    }
  }

  lemma RestIsOldestFirst(lots: seq<Lot>, queue: seq<nat>)
    requires InRange(queue, |lots|) && queue != [] && OldestFirst(lots, queue)
    ensures OldestFirst(lots, queue[1..])
  {
    hide Before;
  }

  /** What precedes the head of a queue precedes everything still open in it. */
  lemma OpenComeBehind(was: seq<Lot>, now: seq<Lot>, queue: seq<nat>, i: nat)
    requires Later(was, now) && i < |was| && InRange(queue, i) && queue != [] && OldestFirst(was, queue)
    requires Before(was[i], was[queue[0]]) && InRange(StillOpen(now, queue), i)
    requires forall k :: 0 <= k < |StillOpen(now, queue)| ==> StillOpen(now, queue)[k] in queue
    ensures forall k :: 0 <= k < |StillOpen(now, queue)| ==> Before(now[i], now[StillOpen(now, queue)[k]])
  {
    var open := StillOpen(now, queue);
    forall k | 0 <= k < |open| ensures Before(now[i], now[open[k]]) {
      var j :| 0 <= j < |queue| && queue[j] == open[k];
      assert !Before(was[queue[j]], was[queue[0]]);
    }
  }

  lemma OpenStep(lots: seq<Lot>, head: nat, rest: seq<nat>)
    requires head < |lots| && InRange(rest, |lots|)
    ensures StillOpen(lots, [head] + rest) == if lots[head].qtyOpen > 0.0 then [head] + StillOpen(lots, rest) else StillOpen(lots, rest)
  {
    assert ([head] + rest)[1..] == rest;
  }

  lemma LaterKeepsBefore(was: seq<Lot>, now: seq<Lot>, i: nat, j: nat)
    requires Later(was, now) && i < |was| && j < |was|
    ensures Before(now[i], now[j]) <==> Before(was[i], was[j])
  {
  }

  lemma InsertAhead(was: seq<Lot>, now: seq<Lot>, queue: seq<nat>, i: nat)
    requires Later(was, now) && i < |was| && InRange(queue, i) && queue != [] && OldestFirst(was, queue)
    requires Before(was[i], was[queue[0]]) && InRange(StillOpen(now, queue), i)
    ensures StillOpen(now, Insert(was, queue, i)) ==
            if now[i].qtyOpen > 0.0 then Insert(now, StillOpen(now, queue), i) else StillOpen(now, queue)
  {
    StillOpenIsPart(now, queue, i);
    OpenComeBehind(was, now, queue, i);
    InsertUnfolds(was, queue, i);
    hide Before, OldestFirst, Insert, StillOpen, Later, InsertionPoint;
    OpenStep(now, i, queue);
    InsertInFront(now, StillOpen(now, queue), i);
  }

  lemma InsertPastHead(lots: seq<Lot>, head: nat, rest: seq<nat>, i: nat)
    requires i < |lots| && head < i && InRange(rest, i) && InRange([head] + rest, i) && !Before(lots[i], lots[head])
    ensures Insert(lots, [head] + rest, i) == [head] + Insert(lots, rest, i)
  {
    hide Insert, Before;
    assert ([head] + rest)[1..] == rest;
    InsertUnfolds(lots, [head] + rest, i);
  }

  lemma InsertBehind(was: seq<Lot>, now: seq<Lot>, queue: seq<nat>, i: nat)
    requires Later(was, now) && i < |was| && InRange(queue, i) && queue != [] && !Before(was[i], was[queue[0]])
    requires InRange(StillOpen(now, queue), i) && InRange(queue[1..], i) && InRange(StillOpen(now, queue[1..]), i)
    requires StillOpen(now, Insert(was, queue[1..], i)) ==
             if now[i].qtyOpen > 0.0 then Insert(now, StillOpen(now, queue[1..]), i) else StillOpen(now, queue[1..])
    ensures StillOpen(now, Insert(was, queue, i)) ==
            if now[i].qtyOpen > 0.0 then Insert(now, StillOpen(now, queue), i) else StillOpen(now, queue)
  {
    LaterKeepsBefore(was, now, i, queue[0]);
    hide Before, Insert, StillOpen, Later, InsertionPoint;
    var head, rest := queue[0], queue[1..];
    assert queue == [head] + rest;
    InsertUnfolds(was, queue, i);
    OpenStep(now, head, Insert(was, rest, i));
    OpenStep(now, head, rest);
    if now[head].qtyOpen > 0.0 {
      InsertPastHead(now, head, StillOpen(now, rest), i);
    }
  }

  /** Filtering commutes with ordered insertion. */
  lemma {:induction false} StillOpenInsert(was: seq<Lot>, now: seq<Lot>, queue: seq<nat>, i: nat)
    requires Later(was, now) && i < |was| && InRange(queue, i) && OldestFirst(was, queue)
    ensures InRange(StillOpen(now, queue), i)
    ensures StillOpen(now, Insert(was, queue, i)) ==
            if now[i].qtyOpen > 0.0 then Insert(now, StillOpen(now, queue), i) else StillOpen(now, queue)
  {
    StillOpenIsPart(now, queue, i);
    if queue == [] {
      assert Insert(was, queue, i) == [i];
      assert [i][1..] == [];
    } else {
      RestIsOldestFirst(was, queue);
      hide Before, OldestFirst, Insert, StillOpen, Later;
      if Before(was[i], was[queue[0]]) {
        InsertAhead(was, now, queue, i);
      } else {
        StillOpenInsert(was, now, queue[1..], i);
        InsertBehind(was, now, queue, i);
      }
    }
  }

  lemma {:induction false} SecondQuery(was: seq<Lot>, now: seq<Lot>, f: LotFill, g: LotFill, n: nat)
    requires Later(was, now) && n <= |was|
    requires g == f.(qty := g.qty)
    requires forall i :: 0 <= i < n && !Eligible(was[i], f) ==> now[i] == was[i]
    ensures OpenLots(now, g, n) == StillOpen(now, OpenLots(was, f, n))
  {
    hide Before, Insert, Distinct, OldestFirst;
    if n > 0 {
      SecondQuery(was, now, f, g, n - 1);
      if Eligible(was[n - 1], f) {
        StillOpenInsert(was, now, OpenLots(was, f, n - 1), n - 1);
      }
    }
  }

  // ── Realized P&L is visible in the lot rows ──────────────────────

  ghost function LotPnl(): Lot -> real {
    (lot: Lot) => lot.realizedPnl
  }

  lemma {:induction false} ClosesMatchLots(lots: seq<Lot>, queue: seq<nat>, f: LotFill, remaining: real)
    requires InRange(queue, |lots|)
    ensures var w := Consume(lots, queue, f, remaining);
            && Sum(w.closes, ClosePnl()) == Sum(w.lots, LotPnl()) - Sum(lots, LotPnl())
            && Later(lots, w.lots)
    decreases |queue|
  {
    hide Reduced, CloseOf, Later, LotPnl;
    LaterItself(lots);
    if queue != [] && remaining > 0.0 {
      var i := queue[0];
      var qty := Min(lots[i].qtyOpen, remaining);
      var next := lots[i := Reduced(lots[i], f, qty)];
      ConsumeStep(lots, queue, f, remaining);
      SumUpdate(lots, i, Reduced(lots[i], f, qty), LotPnl());
      ClosesMatchLots(next, queue[1..], f, remaining - qty);
      TakeIsLater(lots, i, f, qty);
      LaterThrough(lots, next, Consume(next, queue[1..], f, remaining - qty).lots);
    }
  }

  lemma LaterItself(lots: seq<Lot>)
    ensures Later(lots, lots)
  {
  }

  lemma TakeIsLater(lots: seq<Lot>, i: nat, f: LotFill, qty: real)
    requires i < |lots|
    ensures Later(lots, lots[i := Reduced(lots[i], f, qty)])
    ensures LotPnl()(Reduced(lots[i], f, qty)) == LotPnl()(lots[i]) + CloseOf(i, lots[i], f, qty).realizedPnl
  {
  }

  lemma LaterThrough(a: seq<Lot>, b: seq<Lot>, c: seq<Lot>)
    requires Later(a, b) && Later(b, c)
    ensures Later(a, c)
  {
  }

  /** So, lot by lot, the close rows carry exactly what the lot gave up. */
  lemma {:induction false} ClosesTakeFromLot(lots: seq<Lot>, queue: seq<nat>, f: LotFill, remaining: real, i: nat)
    requires InRange(queue, |lots|) && i < |lots|
    ensures var w := Consume(lots, queue, f, remaining);
            && Sum(w.closes, ClosedQty(i)) == lots[i].qtyOpen - w.lots[i].qtyOpen
            && Sum(w.closes, ClosedPnl(i)) == w.lots[i].realizedPnl - lots[i].realizedPnl
    decreases |queue|
  {
    hide Pnl;
    if queue != [] && remaining > 0.0 {
      var q := queue[0];
      var qty := Min(lots[q].qtyOpen, remaining);
      var next := lots[q := Reduced(lots[q], f, qty)];
      var rest := Consume(next, queue[1..], f, remaining - qty).closes;
      ClosesTakeFromLot(next, queue[1..], f, remaining - qty, i);
      SumPrepend(CloseOf(q, lots[q], f, qty), rest, ClosedQty(i));
      SumPrepend(CloseOf(q, lots[q], f, qty), rest, ClosedPnl(i));
    }
  }

  lemma WalkMatchesLots(lots: seq<Lot>, f: LotFill)
    ensures Later(lots, LotsAfter(lots, f))
    ensures Sum(WalkOf(lots, f).closes, ClosePnl()) == Sum(LotsAfter(lots, f), LotPnl()) - Sum(lots, LotPnl())
  {
    ClosesMatchLots(lots, OpenLots(lots, f, |lots|), f, f.qty);
    var w := WalkOf(lots, f);
    SumAppend(w.lots, NewLot(f, w.remaining), LotPnl());
  }

  ghost function OriginalQty(): Lot -> real {
    (lot: Lot) => lot.qtyOrig
  }

  /** The rows a fill opens: at most one. */
  function Opened(lots: seq<Lot>, f: LotFill): (r: seq<Lot>) {
    var w := WalkOf(lots, f);
    if f.strategy.Some? && w.remaining > 0.0 then [NewLot(f, w.remaining)] else []
  }

  lemma SecondQueue(lots: seq<Lot>, f: LotFill, g: LotFill)
    requires g == f.(qty := g.qty)
    ensures var middle := LotsAfter(lots, f);
            OpenLots(middle, g, |middle|) == StillOpen(WalkOf(lots, f).lots, OpenLots(lots, f, |lots|))
  {
    var middle := LotsAfter(lots, f);
    WalkMatchesLots(lots, f);
    forall i | 0 <= i < |lots| && !Eligible(lots[i], f) ensures middle[i] == lots[i] {
      IneligibleIsUntouched(lots, f, i);
    }
    SecondQuery(lots, middle, f, g, |lots|);
    assert middle[..|lots|] == WalkOf(lots, f).lots;
    StillOpenAgrees(WalkOf(lots, f).lots, middle, OpenLots(lots, f, |lots|));
  }

  lemma FirstQueue(lots: seq<Lot>, f: LotFill, g: LotFill)
    requires g == f.(qty := g.qty)
    ensures OpenLots(lots, g, |lots|) == OpenLots(lots, f, |lots|)
  {
    SecondQuery(lots, lots, f, g, |lots|);
    QueueIsEligible(lots, f);
    StillOpenIsAll(lots, OpenLots(lots, f, |lots|));
  }

  lemma SecondWalk(lots: seq<Lot>, f: LotFill, g: LotFill)
    requires f.qty > 0.0 && g.qty > 0.0 && g == f.(qty := g.qty)
    ensures var whole := f.(qty := f.qty + g.qty);
            var first, second, w := WalkOf(lots, f), WalkOf(LotsAfter(lots, f), g), WalkOf(lots, whole);
            && second.lots == w.lots + Opened(lots, f)
            && first.remaining >= 0.0
            && first.remaining + second.remaining == w.remaining
            && (first.remaining > 0.0 ==> second.remaining == g.qty)
  {
    hide Before, Pnl, Insert;
    var whole := f.(qty := f.qty + g.qty);
    var queue := OpenLots(lots, f, |lots|);
    var first := Consume(lots, queue, f, f.qty);
    var rest := StillOpen(first.lots, queue);
    assert SameOutcome(lots, queue, f, f.qty, g.qty) by {
      QueueIsEligible(lots, f);
      ConsumeSplits(lots, queue, f, f.qty, g.qty);
    }
    assert WalkOf(lots, whole) == Consume(lots, queue, f, whole.qty) by {
      FirstQueue(lots, f, whole);
      ConsumeIgnoresQty(lots, queue, f, whole, whole.qty);
    }
    var middle := LotsAfter(lots, f);
    assert middle == first.lots + Opened(lots, f);
    assert WalkOf(middle, g) == Consume(middle, rest, f, g.qty) by {
      SecondQueue(lots, f, g);
      ConsumeIgnoresQty(middle, rest, f, g, g.qty);
    }
    ConsumeExtends(first.lots, Opened(lots, f), rest, f, g.qty);
  }

  lemma {:induction false} StillOpenAgrees(one: seq<Lot>, two: seq<Lot>, queue: seq<nat>)
    requires InRange(queue, |one|) && |one| <= |two| && two[..|one|] == one
    ensures StillOpen(one, queue) == StillOpen(two, queue)
  {
    if queue != [] {
      assert two[queue[0]] == two[..|one|][queue[0]];
      StillOpenAgrees(one, two, queue[1..]);
    }
  }

  lemma {:induction false} ConsumeIgnoresQty(lots: seq<Lot>, queue: seq<nat>, f: LotFill, g: LotFill, remaining: real)
    requires InRange(queue, |lots|) && g == f.(qty := g.qty)
    ensures Consume(lots, queue, f, remaining) == Consume(lots, queue, g, remaining)
    decreases |queue|
  {
    if queue != [] && remaining > 0.0 {
      var i := queue[0];
      var qty := Min(lots[i].qtyOpen, remaining);
      ConsumeIgnoresQty(lots[i := Reduced(lots[i], f, qty)], queue[1..], f, g, remaining - qty);
    }
  }

  lemma {:induction false} ConsumeExtends(lots: seq<Lot>, more: seq<Lot>, queue: seq<nat>, f: LotFill, remaining: real)
    requires InRange(queue, |lots|)
    ensures var w := Consume(lots, queue, f, remaining);
            Consume(lots + more, queue, f, remaining) == w.(lots := w.lots + more)
    decreases |queue|
  {
    if queue != [] && remaining > 0.0 {
      var i := queue[0];
      var qty := Min(lots[i].qtyOpen, remaining);
      var row := Reduced(lots[i], f, qty);
      ConsumeExtends(lots[i := row], more, queue[1..], f, remaining - qty);
      assert (lots + more)[i := row] == lots[i := row] + more;
    }
  }

  lemma OpenedSums(lots: seq<Lot>, f: LotFill, weight: Lot -> real)
    ensures Sum(Opened(lots, f), weight) ==
            if Opened(lots, f) == [] then 0.0 else weight(NewLot(f, WalkOf(lots, f).remaining))
  {
    var w := WalkOf(lots, f);
    SumPrepend(NewLot(f, w.remaining), [], weight);
    assert [NewLot(f, w.remaining)] + [] == [NewLot(f, w.remaining)];
  }

  lemma SplitFillRows(lots: seq<Lot>, f: LotFill, g: LotFill)
    requires f.qty > 0.0 && g.qty > 0.0 && g == f.(qty := g.qty)
    ensures var whole := f.(qty := f.qty + g.qty);
            var kept := WalkOf(lots, whole).lots;
            && LotsAfter(lots, whole) == kept + Opened(lots, whole)
            && LotsAfter(LotsAfter(lots, f), g) == kept + (Opened(lots, f) + Opened(LotsAfter(lots, f), g))
            && |kept| == |lots|
  {
    SecondWalk(lots, f, g);
  }

  lemma SplitFillPnl(lots: seq<Lot>, f: LotFill, g: LotFill)
    requires f.qty > 0.0 && g.qty > 0.0 && g == f.(qty := g.qty)
    ensures var whole := f.(qty := f.qty + g.qty);
            Sum(WalkOf(lots, f).closes, ClosePnl()) + Sum(WalkOf(LotsAfter(lots, f), g).closes, ClosePnl())
            == Sum(WalkOf(lots, whole).closes, ClosePnl())
  {
    var whole := f.(qty := f.qty + g.qty);
    var middle := LotsAfter(lots, f);
    var kept := WalkOf(lots, whole).lots;
    SplitFillRows(lots, f, g);
    WalkMatchesLots(lots, f);
    WalkMatchesLots(middle, g);
    WalkMatchesLots(lots, whole);
    OpenedSums(lots, f, LotPnl());
    OpenedSums(middle, g, LotPnl());
    OpenedSums(lots, whole, LotPnl());
    SumConcat(kept, Opened(lots, f) + Opened(middle, g), LotPnl());
    SumConcat(Opened(lots, f), Opened(middle, g), LotPnl());
    SumConcat(kept, Opened(lots, whole), LotPnl());
  }

  lemma SplitFillQuantities(lots: seq<Lot>, f: LotFill, g: LotFill)
    requires f.qty > 0.0 && g.qty > 0.0 && g == f.(qty := g.qty)
    ensures var whole := f.(qty := f.qty + g.qty);
            var middle := LotsAfter(lots, f);
            && Sum(Opened(lots, f), OriginalQty()) + Sum(Opened(middle, g), OriginalQty())
               == Sum(Opened(lots, whole), OriginalQty())
            && Unapplied(lots, f) + Unapplied(middle, g) == Unapplied(lots, whole)
  {
    var whole := f.(qty := f.qty + g.qty);
    SecondWalk(lots, f, g);
    OpenedSums(lots, f, OriginalQty());
    OpenedSums(LotsAfter(lots, f), g, OriginalQty());
    OpenedSums(lots, whole, OriginalQty());
  }

  /** Lot by lot, the two fills' closes add up to the one's. */
  lemma SplitFillCloses(lots: seq<Lot>, f: LotFill, g: LotFill, i: nat)
    requires f.qty > 0.0 && g.qty > 0.0 && g == f.(qty := g.qty) && i < |lots|
    ensures var first, second := WalkOf(lots, f).closes, WalkOf(LotsAfter(lots, f), g).closes;
            var whole := WalkOf(lots, f.(qty := f.qty + g.qty)).closes;
            && Sum(first, ClosedQty(i)) + Sum(second, ClosedQty(i)) == Sum(whole, ClosedQty(i))
            && Sum(first, ClosedPnl(i)) + Sum(second, ClosedPnl(i)) == Sum(whole, ClosedPnl(i))
  {
    hide Consume, OpenLots, Opened;
    var whole, middle := f.(qty := f.qty + g.qty), LotsAfter(lots, f);
    SplitFillRows(lots, f, g);
    ClosesTakeFromLot(lots, OpenLots(lots, f, |lots|), f, f.qty, i);
    ClosesTakeFromLot(middle, OpenLots(middle, g, |middle|), g, g.qty, i);
    ClosesTakeFromLot(lots, OpenLots(lots, whole, |lots|), whole, whole.qty, i);
    assert LotsAfter(middle, g)[i] == LotsAfter(lots, whole)[i];
    assert middle[i] == WalkOf(lots, f).lots[i];
  }

  /** Applying `a` and then `b` at one price and time equals applying `a + b`: every lot row that was
      there, what is closed on each lot and at what P&L, the parked quantity and the quantity newly opened
      are the same. */
  lemma SplitFillIsOneFill(lots: seq<Lot>, f: LotFill, g: LotFill)
    requires f.qty > 0.0 && g.qty > 0.0 && g == f.(qty := g.qty)
    ensures var whole := f.(qty := f.qty + g.qty);
            var middle := LotsAfter(lots, f);
            var two, one := LotsAfter(middle, g), LotsAfter(lots, whole);
            && |lots| <= |two| && |lots| <= |one|
            && two[..|lots|] == one[..|lots|]
            && Sum(two[|lots|..], OriginalQty()) == Sum(one[|lots|..], OriginalQty())
            && Unapplied(lots, f) + Unapplied(middle, g) == Unapplied(lots, whole)
            && Sum(WalkOf(lots, f).closes, ClosePnl()) + Sum(WalkOf(middle, g).closes, ClosePnl())
               == Sum(WalkOf(lots, whole).closes, ClosePnl())
            && forall i :: 0 <= i < |lots| ==>
                 && Sum(WalkOf(lots, f).closes, ClosedQty(i)) + Sum(WalkOf(middle, g).closes, ClosedQty(i))
                    == Sum(WalkOf(lots, whole).closes, ClosedQty(i))
                 && Sum(WalkOf(lots, f).closes, ClosedPnl(i)) + Sum(WalkOf(middle, g).closes, ClosedPnl(i))
                    == Sum(WalkOf(lots, whole).closes, ClosedPnl(i))
  {
    forall i | 0 <= i < |lots|
      ensures Sum(WalkOf(lots, f).closes, ClosedQty(i)) + Sum(WalkOf(LotsAfter(lots, f), g).closes, ClosedQty(i))
              == Sum(WalkOf(lots, f.(qty := f.qty + g.qty)).closes, ClosedQty(i))
      ensures Sum(WalkOf(lots, f).closes, ClosedPnl(i)) + Sum(WalkOf(LotsAfter(lots, f), g).closes, ClosedPnl(i))
              == Sum(WalkOf(lots, f.(qty := f.qty + g.qty)).closes, ClosedPnl(i))
    {
      SplitFillCloses(lots, f, g, i);
    }
    var whole := f.(qty := f.qty + g.qty);
    var middle := LotsAfter(lots, f);
    var two, one := LotsAfter(middle, g), LotsAfter(lots, whole);
    SplitFillPnl(lots, f, g);
    SplitFillQuantities(lots, f, g);
    SplitFillRows(lots, f, g);
    var kept := WalkOf(lots, whole).lots;
    assert one[..|lots|] == kept && one[|lots|..] == Opened(lots, whole);
    assert two[..|lots|] == kept && two[|lots|..] == Opened(lots, f) + Opened(middle, g);
    SumConcat(Opened(lots, f), Opened(middle, g), OriginalQty());
  }
}
