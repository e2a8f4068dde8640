/** Fill-or-kill's read-only walk over the levels. With self-trade prevention it looks at every order;
    without, it reads only each level's 64-bit total, which is exact while no level holds 2^64 or more. */
module BookFillable {
  import opened Types
  import opened BookSpec
  import opened BookInvariant
  import opened Ladders
  import opened OrderStores
  import opened BookStates
  import opened BookSteps
  import opened BookPlaces
  import PriceBitmaps

  /** What the level totals of some rungs add up to. */
  function Totals(l: Ladder): nat {
    if l == [] then 0 else TotalQty(l[0]) % U64 + Totals(l[1..])
  }

  /** The walk's answer from rung r on, when n rungs are within the limit. */
  ghost predicate Verdict(l: Ladder, n: nat, t: Taker, r: nat, need: nat)
    requires n <= |l|
  {
    if t.stp == NoStp then r < n && need <= Totals(l[r..n])
    else r <= |l| && Fillable(Concat(l[r..]), t, need)
  }

  lemma VerdictSkip(l: Ladder, n: nat, t: Taker, r: nat, need: nat)
    requires n <= |l| && r < |l| && l[r] == [] && need > 0
    ensures Verdict(l, n, t, r, need) <==> Verdict(l, n, t, r + 1, need)
  {
    assert l[r..][1..] == l[r + 1..];
    assert Concat(l[r..]) == Concat(l[r + 1..]);
    if r < n {
      assert l[r..n][1..] == l[r + 1..n];
      assert Totals(l[r..n]) == TotalQty([]) % U64 + Totals(l[r + 1..n]);
    }
  }

  lemma {:induction false} VerdictSkipTo(l: Ladder, n: nat, t: Taker, r: nat, end: nat, need: nat)
    requires n <= |l| && r <= end <= |l| && need > 0
    requires forall k :: r <= k < end ==> l[k] == []
    ensures Verdict(l, n, t, r, need) <==> Verdict(l, n, t, end, need)
    decreases end - r
  {
    if r < end {
      VerdictSkip(l, n, t, r, need);
      VerdictSkipTo(l, n, t, r + 1, end, need);
    }
  }

  /** Past the limit nothing more fills. */
  lemma {:induction false} VerdictEnd(cfg: Config, l: Ladder, n: nat, t: Taker, r: nat, need: nat)
    requires Priced(cfg, Opposite(t.side), l) && n <= |l| && n <= r && need > 0
    requires InBand(cfg, t.limit) && n == RankOf(cfg, Opposite(t.side), t.limit) + 1
    ensures !Verdict(l, n, t, r, need)
    decreases |l| - r
  {
    if r < |l| {
      if l[r] == [] {
        VerdictSkip(l, n, t, r, need);
        VerdictEnd(cfg, l, n, t, r + 1, need);
      } else {
        assert AllAt(l[r], RankPrice(cfg, Opposite(t.side), r));
        assert Concat(l[r..])[0] == l[r][0];
      }
    }
  }

  /** One level by its total. */
  lemma VerdictTotal(l: Ladder, n: nat, t: Taker, r: nat, need: nat)
    requires n <= |l| && r < n && t.stp == NoStp && need > 0
    ensures var total := TotalQty(l[r]) % U64;
      Verdict(l, n, t, r, need) <==> total >= need || Verdict(l, n, t, r + 1, need - total)
  {
    assert l[r..n][1..] == l[r + 1..n];
    assert Totals(l[r..n]) == TotalQty(l[r]) % U64 + Totals(l[r + 1..n]);
  }

  /** One level's orders, then the rungs behind it. */
  lemma VerdictLevel(l: Ladder, n: nat, t: Taker, r: nat, need: nat)
    requires n <= |l| && r < |l| && t.stp != NoStp
    ensures Verdict(l, n, t, r, need) <==> Fillable(l[r] + Concat(l[r + 1..]), t, need)
  {
    assert l[r..][1..] == l[r + 1..];
  }

  // What the totals mean.

  lemma {:induction false} TotalConcat(a: seq<Order>, b: seq<Order>)
    ensures TotalQty(a + b) == TotalQty(a) + TotalQty(b)
  {
    if a == [] {
      assert a + b == b;
    } else {
      assert (a + b)[1..] == a[1..] + b;
      TotalConcat(a[1..], b);
    }
  }

  /** No level within n rungs holds 2^64 or more. */
  ghost predicate TotalsFit(l: Ladder, n: nat)
    requires n <= |l|
  {
    forall r :: 0 <= r < n ==> TotalQty(l[r]) < U64
  }

  /** The level totals never overstate what rests, and are exact if and only if no level overflows. */
  lemma {:induction false} TotalsExact(l: Ladder)
    ensures Totals(l) <= TotalQty(Concat(l))
    ensures Totals(l) == TotalQty(Concat(l)) <==> TotalsFit(l, |l|)
  {
    if l != [] {
      TotalsExact(l[1..]);
      TotalConcat(l[0], Concat(l[1..]));
      assert TotalsFit(l, |l|) <==> TotalQty(l[0]) < U64 && TotalsFit(l[1..], |l[1..]|) by {
        assert forall r :: 0 <= r < |l[1..]| ==> l[1..][r] == l[r + 1];
        if TotalQty(l[0]) < U64 && TotalsFit(l[1..], |l[1..]|) {
          forall r | 0 <= r < |l| ensures TotalQty(l[r]) < U64 {
            assert r > 0 ==> l[1..][r - 1] == l[r];
          }
        }
        if TotalsFit(l, |l|) {
          forall r | 0 <= r < |l[1..]| ensures TotalQty(l[1..][r]) < U64 {
            assert l[1..][r] == l[r + 1];
          }
        }
      }
    }
  }

  /** Without self-trade prevention a queue fills a need exactly when enough of it is within the limit. */
  lemma {:induction false} FillableRun(a: seq<Order>, b: seq<Order>, t: Taker, need: nat)
    requires t.stp == NoStp && need > 0 && forall k :: 0 <= k < |a| ==> Reaches(t.side, t.limit, a[k].price)
    ensures Fillable(a + b, t, need) <==> TotalQty(a) >= need || Fillable(b, t, need - TotalQty(a))
  {
    if a == [] {
      assert a + b == b;
    } else {
      assert (a + b)[1..] == a[1..] + b;
      if a[0].qty < need {
        FillableRun(a[1..], b, t, need - a[0].qty);
      }
    }
  }

  lemma {:induction false} ConcatWithin(cfg: Config, side: Side, l: Ladder, limit: int)
    requires |l| <= cfg.numLevels && forall r :: 0 <= r < |l| ==> AllAt(l[r], RankPrice(cfg, side, r))
    requires |l| <= RankOf(cfg, side, limit) + 1
    ensures forall k :: 0 <= k < |Concat(l)| ==> Reaches(Opposite(side), limit, Concat(l)[k].price)
    decreases |l|
  {
    if l != [] {
      var m := |l| - 1;
      ConcatWithin(cfg, side, l[..m], limit);
      assert l == l[..m] + [l[m]];
      ConcatSplit(l[..m], [l[m]]);
      assert Concat([l[m]]) == l[m] + Concat([l[m]][1..]);
      assert AllAt(l[m], RankPrice(cfg, side, m));
    }
  }

  /** Reading totals instead of orders never gives a wrong yes, and gives a wrong no only for a quantity
      between what the totals within the limit hold and what really rests there. */
  lemma TotalsVerdict(cfg: Config, l: Ladder, t: Taker, need: nat)
    requires Priced(cfg, Opposite(t.side), l) && t.stp == NoStp && need > 0 && InBand(cfg, t.limit)
    ensures var n := RankOf(cfg, Opposite(t.side), t.limit) + 1;
      && n <= |l| && (Fillable(Concat(l), t, need) <==> TotalQty(Concat(l[..n])) >= need)
      && (Verdict(l, n, t, 0, need) <==> Totals(l[..n]) >= need)
      && Totals(l[..n]) <= TotalQty(Concat(l[..n]))
      && (TotalsFit(l, n) <==> Totals(l[..n]) == TotalQty(Concat(l[..n])))
  {
    var side := Opposite(t.side);
    var n := RankOf(cfg, side, t.limit) + 1;
    assert l == l[..n] + l[n..];
    ConcatSplit(l[..n], l[n..]);
    ConcatWithin(cfg, side, l[..n], t.limit);
    FillableRun(Concat(l[..n]), Concat(l[n..]), t, need);
    if TotalQty(Concat(l[..n])) < need {
      assert !Fillable(Concat(l[n..]), t, need - TotalQty(Concat(l[..n]))) by {
        BeyondFills(cfg, l, n, t, need - TotalQty(Concat(l[..n])));
      }
    }
    TotalsExact(l[..n]);
    assert l[0..n] == l[..n];
    assert TotalsFit(l, n) <==> TotalsFit(l[..n], n);
  }

  /** Exactly when the totals answer every 64-bit quantity as the orders would: no level within the limit
      holds 2^64 or more, or the totals there already cover the largest quantity there is. */
  lemma TotalsRightIff(cfg: Config, l: Ladder, t: Taker)
    requires Priced(cfg, Opposite(t.side), l) && t.stp == NoStp && InBand(cfg, t.limit)
    ensures var n := RankOf(cfg, Opposite(t.side), t.limit) + 1;
      n <= |l| &&
      ((forall need: nat :: 0 < need < U64 ==> (Verdict(l, n, t, 0, need) <==> Fillable(Concat(l), t, need)))
       <==> TotalsFit(l, n) || Totals(l[..n]) >= U64 - 1)
  {
    var n := RankOf(cfg, Opposite(t.side), t.limit) + 1;
    forall need: nat | 0 < need ensures
      n <= |l| && (Verdict(l, n, t, 0, need) <==> Totals(l[..n]) >= need)
      && (Fillable(Concat(l), t, need) <==> TotalQty(Concat(l[..n])) >= need)
    {
      TotalsVerdict(cfg, l, t, need);
    }
    TotalsVerdict(cfg, l, t, 1);
    var w := Totals(l[..n]) + 1;
    assert !Verdict(l, n, t, 0, w);
  }

  lemma BeyondFills(cfg: Config, l: Ladder, n: nat, t: Taker, need: nat)
    requires Priced(cfg, Opposite(t.side), l) && need > 0 && InBand(cfg, t.limit)
    requires n == RankOf(cfg, Opposite(t.side), t.limit) + 1
    ensures n <= |l| && !Fillable(Concat(l[n..]), t, need)
  {
    var q := Concat(l[n..]);
    forall r | 0 <= r < |l[n..]| ensures AllAt(l[n..][r], RankPrice(cfg, Opposite(t.side), n + r)) {
      assert AllAt(l[n + r], RankPrice(cfg, Opposite(t.side), n + r));
    }
    ConcatPrices(cfg, Opposite(t.side), l[n..], n, t.limit);
    assert q != [] ==> Better(Opposite(t.side), t.limit, q[0].price);
  }

  // The walk over the book's own levels.

  lemma {:induction false} SumIsTotal(recs: seq<Rec>, q: seq<nat>, price: int)
    ensures TotalQty(Orders(recs, q, price)) == Sum(recs, q)
  {
    if q != [] {
      assert Orders(recs, q, price)[1..] == Orders(recs, q[1..], price);
      SumIsTotal(recs, q[1..], price);
    }
  }

  ghost predicate NextAfter(st: State, side: Side, i: int, j: int) {
    if side == Buy then PriceBitmaps.IsPrev(st.bids, i - 1, j) else PriceBitmaps.IsNext(st.asks, |st.levels|, i + 1, j)
  }

  /** A marked level, or one past the last. */
  ghost predicate OnWalk(cfg: Config, st: State, side: Side, i: int) {
    i in Marked(st, side) || i == if side == Buy then -1 else cfg.numLevels
  }

  lemma WalkStart(cfg: Config, st: State, t: Taker, n: nat, need: nat)
    requires Inv(cfg, st) && n <= cfg.numLevels && need > 0
    ensures var side := Opposite(t.side);
      var l, r := LadderOf(cfg, st, side), RankAt(cfg, side, Best(st, side));
      OnWalk(cfg, st, side, Best(st, side)) && 0 <= r <= |l|
        && (Verdict(l, n, t, 0, need) <==> Verdict(l, n, t, r, need))
  {
    hide BookOk, Abs, SlotsOk, IndexOk, Others, Verdict;
    var side := Opposite(t.side);
    var l, r := LadderOf(cfg, st, side), RankAt(cfg, side, Best(st, side));
    forall k: nat | k < r ensures l[k] == [] {
      AheadOfBest(cfg, st, side, k);
    }
    VerdictSkipTo(l, n, t, 0, r, need);
  }

  lemma WalkNext(cfg: Config, st: State, t: Taker, n: nat, i: int, j: int, need: nat)
    requires Inv(cfg, st) && n <= cfg.numLevels && need > 0
    requires i in Marked(st, Opposite(t.side)) && NextAfter(st, Opposite(t.side), i, j)
    ensures var side := Opposite(t.side);
      var l, r, r' := LadderOf(cfg, st, side), RankAt(cfg, side, i), RankAt(cfg, side, j);
      OnWalk(cfg, st, side, j) && 0 <= r < r' <= |l| && (Verdict(l, n, t, r + 1, need) <==> Verdict(l, n, t, r', need))
  {
    hide BookOk, Abs, SlotsOk, IndexOk, Others, Verdict, Orders;
    var side := Opposite(t.side);
    var l, r, r' := LadderOf(cfg, st, side), RankAt(cfg, side, i), RankAt(cfg, side, j);
    forall k: nat | r < k < r' ensures l[k] == [] {
      assert LevelAt(cfg, side, k) !in Marked(st, side);
    }
    VerdictSkipTo(l, n, t, r + 1, r', need);
  }

  /** What a marked level shows the walk. */
  lemma WalkLevel(cfg: Config, st: State, side: Side, i: nat)
    requires Inv(cfg, st) && i in Marked(st, side)
    ensures i < |st.levels| == |st.queues|
    ensures var l, r, q := LadderOf(cfg, st, side), RankAt(cfg, side, i), st.queues[i];
      && 0 <= r < |l| && l[r] == Orders(st.recs, q, cfg.minPrice + i)
      && st.levels[i].qty == TotalQty(l[r]) % U64 && st.levels[i].head == HeadOf(q) && NextLinked(st.recs, q)
  {
    hide BookOk, Abs, SlotsOk, IndexOk, Orders, Others, QueueOk, EndsOk, NextLinked;
    OthersSplit(cfg, st, i);
    QueueShows(st, i);
    SumIsTotal(st.recs, st.queues[i], cfg.minPrice + i);
  }

  lemma QueueShows(st: State, i: nat)
    requires i < |st.queues| == |st.levels| && QueueOk(st, i) && EndsOk(st, i)
    ensures st.levels[i].qty == Sum(st.recs, st.queues[i]) % U64 && st.levels[i].head == HeadOf(st.queues[i])
    ensures NextLinked(st.recs, st.queues[i])
  {
  }
}
