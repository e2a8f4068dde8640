/** What the 64-bit level totals change: the one command on which the optimised book departs from the
    specification, and exactly when. */
module MissedFills {
  import opened Types
  import opened BookSpec
  import opened BookInvariant
  import opened Ladders
  import opened LevelNotes
  import opened BookStates
  import opened BookFillable

  // ---- quantities within a limit ----

  /** What the totals of the best n levels add up to, each kept in a 64-bit word. */
  function WordsWithin(cfg: Config, side: Side, q: seq<Order>, n: nat): nat {
    if n == 0 then 0
    else WordsWithin(cfg, side, q, n - 1) + LevelTotal(q, RankPrice(cfg, side, n - 1)) % U64
  }

  /** What really rests at the best n levels. */
  function QtyWithin(cfg: Config, side: Side, q: seq<Order>, n: nat): nat {
    if n == 0 then 0
    else QtyWithin(cfg, side, q, n - 1) + LevelTotal(q, RankPrice(cfg, side, n - 1))
  }

  /** What rests within an incoming order's limit. */
  function Reached(q: seq<Order>, t: Taker): nat {
    if q == [] then 0
    else (if Reaches(t.side, t.limit, q[0].price) then q[0].qty else 0) + Reached(q[1..], t)
  }

  /** How many levels an incoming order's limit takes in. */
  function LevelsWithin(cfg: Config, t: Taker): int {
    RankOf(cfg, Opposite(t.side), t.limit) + 1
  }

  lemma {:induction false} QtyHead(cfg: Config, side: Side, q: seq<Order>, n: nat)
    requires q != []
    ensures QtyWithin(cfg, side, q, n) == QtyWithin(cfg, side, q[1..], n)
      + if 0 <= RankOf(cfg, side, q[0].price) < n then q[0].qty else 0
    decreases n
  {
    if n > 0 {
      QtyHead(cfg, side, q, n - 1);
    }
  }

  lemma {:induction false} NoQty(cfg: Config, side: Side, n: nat)
    ensures QtyWithin(cfg, side, [], n) == 0
    decreases n
  {
    if n > 0 {
      NoQty(cfg, side, n - 1);
    }
  }

  /** Level by level or order by order, the same quantity is within the limit. */
  lemma {:induction false} ReachedIsWithin(cfg: Config, q: seq<Order>, t: Taker)
    requires OrdersOk(cfg, q) && InBand(cfg, t.limit)
    ensures LevelsWithin(cfg, t) >= 0 && Reached(q, t) == QtyWithin(cfg, Opposite(t.side), q, LevelsWithin(cfg, t))
    decreases |q|
  {
    var n: nat := LevelsWithin(cfg, t);
    if q == [] {
      NoQty(cfg, Opposite(t.side), n);
    } else {
      ReachedIsWithin(cfg, q[1..], t);
      QtyHead(cfg, Opposite(t.side), q, n);
    }
  }

  /** The words never overstate, and are exact if no level within them overflows. */
  lemma {:induction false} WordsBelow(cfg: Config, side: Side, q: seq<Order>, n: nat)
    ensures WordsWithin(cfg, side, q, n) <= QtyWithin(cfg, side, q, n)
    ensures TotalQty(q) < U64 ==> WordsWithin(cfg, side, q, n) == QtyWithin(cfg, side, q, n)
    decreases n
  {
    if n > 0 {
      WordsBelow(cfg, side, q, n - 1);
      LevelBelow(q, RankPrice(cfg, side, n - 1));
    }
  }

  lemma {:induction false} LevelBelow(q: seq<Order>, px: int)
    ensures LevelTotal(q, px) <= TotalQty(q)
  {
    if q != [] {
      LevelBelow(q[1..], px);
    }
  }

  lemma {:induction false} NoneReached(q: seq<Order>, t: Taker)
    requires forall k :: 0 <= k < |q| ==> !Reaches(t.side, t.limit, q[k].price)
    ensures Reached(q, t) == 0
  {
    if q != [] {
      NoneReached(q[1..], t);
    }
  }

  /** Without self-trade prevention a quantity is fillable exactly when that much rests within the limit. */
  lemma {:induction false} FillableIsReached(q: seq<Order>, t: Taker, need: nat)
    requires Sorted(Opposite(t.side), q) && t.stp == NoStp && need > 0
    ensures Fillable(q, t, need) <==> need <= Reached(q, t)
    decreases |q|
  {
    if q != [] {
      if Reaches(t.side, t.limit, q[0].price) {
        if q[0].qty < need {
          FillableIsReached(q[1..], t, need - q[0].qty);
        }
      } else {
        assert forall k :: 0 < k < |q| ==> !Better(Opposite(t.side), q[k].price, q[0].price);
        NoneReached(q, t);
      }
    }
  }

  // ---- the ladder's totals ----

  lemma {:induction false} SumAt(q: seq<Order>, px: int)
    requires AllAt(q, px)
    ensures LevelTotal(q, px) == TotalQty(q)
  {
    if q != [] {
      SumAt(q[1..], px);
    }
  }

  lemma {:induction false} SumBeyond(cfg: Config, side: Side, l: Ladder, from: nat, px: int)
    requires forall k :: 0 <= k < |l| ==>
        AllAt(l[k], RankPrice(cfg, side, from + k)) && RankPrice(cfg, side, from + k) != px
    ensures LevelTotal(Concat(l), px) == 0
    decreases |l|
  {
    if l != [] {
      assert AllAt(l[0], RankPrice(cfg, side, from + 0)) && RankPrice(cfg, side, from + 0) != px;
      NoneAt(l[0], px);
      forall k | 0 <= k < |l[1..]|
        ensures AllAt(l[1..][k], RankPrice(cfg, side, from + 1 + k)) && RankPrice(cfg, side, from + 1 + k) != px
      {
        assert AllAt(l[k + 1], RankPrice(cfg, side, from + (k + 1))) && RankPrice(cfg, side, from + (k + 1)) != px;
      }
      SumBeyond(cfg, side, l[1..], from + 1, px);
      TotalAppend(l[0], Concat(l[1..]), px);
    }
  }

  /** What rests at a price is what its rung holds. */
  lemma RungTotal(cfg: Config, side: Side, l: Ladder, r: nat)
    requires Priced(cfg, side, l) && r < |l|
    ensures LevelTotal(Concat(l), RankPrice(cfg, side, r)) == TotalQty(l[r])
  {
    var px := RankPrice(cfg, side, r);
    ConcatAt(l, r);
    assert forall k :: 0 <= k < |l[..r]| ==> l[..r][k] == l[k];
    SumBeyond(cfg, side, l[..r], 0, px);
    var tail := l[r + 1..];
    forall k | 0 <= k < |tail|
      ensures AllAt(tail[k], RankPrice(cfg, side, r + 1 + k)) && RankPrice(cfg, side, r + 1 + k) != px
    {
      assert AllAt(l[r + 1 + k], RankPrice(cfg, side, r + 1 + k));
    }
    SumBeyond(cfg, side, l[r + 1..], r + 1, px);
    assert AllAt(l[r], RankPrice(cfg, side, r));
    SumAt(l[r], px);
    TotalAppend(Concat(l[..r]), l[r], px);
    TotalAppend(Concat(l[..r]) + l[r], Concat(l[r + 1..]), px);
  }

  lemma {:induction false} TotalsAppend(l: Ladder, q: seq<Order>)
    ensures Totals(l + [q]) == Totals(l) + TotalQty(q) % U64
    decreases |l|
  {
    if l == [] {
      assert [] + [q] == [q] && [q][1..] == [];
    } else {
      assert (l + [q])[1..] == l[1..] + [q];
      TotalsAppend(l[1..], q);
    }
  }

  /** The words of a ladder's rungs are the words of its prices. */
  lemma {:induction false} WordsAre(cfg: Config, side: Side, l: Ladder, n: nat)
    requires Priced(cfg, side, l) && n <= |l|
    ensures WordsWithin(cfg, side, Concat(l), n) == Totals(l[..n])
    decreases n
  {
    if n > 0 {
      hide Concat, TotalQty, LevelTotal;
      WordsAre(cfg, side, l, n - 1);
      RungTotal(cfg, side, l, n - 1);
      TotalsAppend(l[..n - 1], l[n - 1]);
      assert l[..n] == l[..n - 1] + [l[n - 1]];
    }
  }

  /** What the walk from the best level decides on a sound book. */
  lemma FokDecision(cfg: Config, st: State, t: Taker, limit: nat, need: nat)
    requires Inv(cfg, st) && limit < cfg.numLevels && t.limit == cfg.minPrice + limit && need > 0
    ensures var opp := Opposite(t.side);
      var l, n, q := LadderOf(cfg, st, opp), RankAt(cfg, opp, limit) + 1, Resting(Abs(cfg, st), opp);
      && 0 <= n <= |l| && n == LevelsWithin(cfg, t)
      && (t.stp != NoStp ==> (Verdict(l, n, t, 0, need) <==> Fillable(q, t, need)))
      && (t.stp == NoStp ==>
            && (Verdict(l, n, t, 0, need) <==> need <= WordsWithin(cfg, opp, q, n))
            && WordsWithin(cfg, opp, q, n) <= Reached(q, t)
            && (Fillable(q, t, need) <==> need <= Reached(q, t)))
  {
    var opp := Opposite(t.side);
    var l, n, q := LadderOf(cfg, st, opp), RankAt(cfg, opp, limit) + 1, Resting(Abs(cfg, st), opp);
    assert q == Concat(l) && BookOk(cfg, Abs(cfg, st)) && |l| == cfg.numLevels > 0;
    SideSorted(cfg, Abs(cfg, st), opp);
    LadderPriced(cfg, st, opp);
    hide Inv, Abs, LadderOf, Concat, Fillable, Totals, WordsWithin, Reached;
    assert l[0..] == l && l[0..n] == l[..n];
    if t.stp == NoStp {
      WordsAre(cfg, opp, l, n);
      WordsBelow(cfg, opp, q, n);
      ReachedIsWithin(cfg, q, t);
      FillableIsReached(q, t, need);
    }
  }

  // ---- the departure ----

  /** A fill-or-kill without self-trade prevention, for a quantity that rests within its limit but that the
      level totals no longer show. */
  predicate Missed(cfg: Config, b: Book, c: Command) {
    && c.kind == NewOrder && c.tif == Fok && AddReject(cfg, b, c) == NoReason && EffectiveStp(c.flags, cfg.stp) == NoStp
    && var q, t := Resting(b, Opposite(c.side)), AddTaker(cfg, c);
       && LevelsWithin(cfg, t) >= 0
       && WordsWithin(cfg, Opposite(c.side), q, LevelsWithin(cfg, t)) < c.qty <= Reached(q, t)
  }

  /** An accepted fill-or-kill killed. */
  function Killed(cfg: Config, b: Book, c: Command): Outcome {
    var px := if c.ordType == Market then 0 else c.price;
    Outcome(b, [AcceptedEvent(cfg.symbol, c.orderId, c.side, px, c.qty),
                CanceledEvent(cfg.symbol, c.orderId, c.side, px, c.qty, FokUnfilled)])
  }

  /** The rules with 64-bit level totals: as specified, but that a missed fill is killed. */
  function FastApply(cfg: Config, b: Book, c: Command): Outcome {
    if Missed(cfg, b, c) then Killed(cfg, b, c) else Apply(cfg, b, c)
  }

  lemma {:induction false} SweepNotKilled(q: seq<Order>, t: Taker, qty: nat)
    ensures !Mentions(Sweep(q, t, qty).events, FokUnfilled)
    decreases |q|
  {
    if qty != 0 && q != [] && Reaches(t.side, t.limit, q[0].price) {
      SweepNotKilled(q[1..], t, qty);
      if q[0].qty <= qty {
        SweepNotKilled(q[1..], t, qty - q[0].qty);
      }
    }
  }

  lemma MarketBand(cfg: Config, b: Book, c: Command)
    requires cfg.numLevels > 0 && AddReject(cfg, b, c) == NoReason
    ensures InBand(cfg, LimitOf(cfg, c))
  {
  }

  /** Exactly then do the events differ: a missed fill is killed where the specification fills it. */
  lemma DiffersIff(cfg: Config, b: Book, c: Command)
    requires BookOk(cfg, b)
    ensures FastApply(cfg, b, c).events == Apply(cfg, b, c).events <==> !Missed(cfg, b, c)
  {
    hide BookOk, EffectiveStp, WordsWithin, AddReject;
    if Missed(cfg, b, c) {
      var q, t := Resting(b, Opposite(c.side)), AddTaker(cfg, c);
      SideSorted(cfg, b, Opposite(c.side));
      FillableIsReached(q, t, c.qty);
      FokFills(cfg, b, c);
    }
  }

  lemma SideSorted(cfg: Config, b: Book, side: Side)
    requires BookOk(cfg, b)
    ensures Sorted(side, Resting(b, side)) && OrdersOk(cfg, Resting(b, side))
  {
  }

  /** A fillable fill-or-kill ends without a FokUnfilled. */
  lemma FokFills(cfg: Config, b: Book, c: Command)
    requires c.kind == NewOrder && c.tif == Fok && AddReject(cfg, b, c) == NoReason && c.qty > 0
    requires Fillable(Resting(b, Opposite(c.side)), AddTaker(cfg, c), c.qty)
    ensures Apply(cfg, b, c).events != Killed(cfg, b, c).events
  {
    hide Sweep, Fillable, AddReject;
    var q, t := Resting(b, Opposite(c.side)), AddTaker(cfg, c);
    FillableExact(q, t, c.qty);
    SweepNotKilled(q, t, c.qty);
    var es := Apply(cfg, b, c).events;
    var r := Sweep(q, t, c.qty);
    assert es[1..] == r.events;
    assert Killed(cfg, b, c).events[1..][0].reason == FokUnfilled;
    assert Mentions(Killed(cfg, b, c).events[1..], FokUnfilled);
  }

  /** With less than 2^64 resting in all, no fill is missed. */
  lemma SmallNeverMissed(cfg: Config, b: Book, c: Command)
    requires BookOk(cfg, b) && BookQty(b) < U64 && cfg.numLevels > 0
    ensures !Missed(cfg, b, c)
  {
    if Missed(cfg, b, c) {
      var q, t := Resting(b, Opposite(c.side)), AddTaker(cfg, c);
      MarketBand(cfg, b, c);
      SideSorted(cfg, b, Opposite(c.side));
      ReachedIsWithin(cfg, q, t);
      WordsBelow(cfg, Opposite(c.side), q, LevelsWithin(cfg, t));
      assert false;
    }
  }

  // ---- over whole runs ----

  function RunFast(cfg: Config, cmds: seq<Command>): (r: Run)
    ensures |r.events| == |cmds|
  {
    if cmds == [] then Run(EmptyBook, [])
    else
      var before := RunFast(cfg, cmds[..|cmds| - 1]);
      var z := FastApply(cfg, before.book, cmds[|cmds| - 1]);
      Run(z.book, before.events + [z.events])
  }

  /** The two engines: one keeps to the specification, the other reads 64-bit level totals. */
  datatype Rules = Exact | Words

  function Answer(rules: Rules, cfg: Config, b: Book, c: Command): Outcome {
    if rules == Exact then Apply(cfg, b, c) else FastApply(cfg, b, c)
  }

  function RunOf(rules: Rules, cfg: Config, cmds: seq<Command>): Run {
    if rules == Exact then RunAll(cfg, cmds) else RunFast(cfg, cmds)
  }

  lemma RunStep(rules: Rules, cfg: Config, cmds: seq<Command>)
    requires cmds != []
    ensures var before := RunOf(rules, cfg, cmds[..|cmds| - 1]);
      var z := Answer(rules, cfg, before.book, cmds[|cmds| - 1]);
      RunOf(rules, cfg, cmds) == Run(z.book, before.events + [z.events])
  {
    hide Apply, FastApply;
  }

  /** A killed fill leaves the book as it is; its order was not in it. */
  lemma AnswerIs(rules: Rules, cfg: Config, b: Book, c: Command)
    ensures Answer(rules, cfg, b, c) == Apply(cfg, b, c)
      || (c.kind == NewOrder && AddReject(cfg, b, c) == NoReason && Answer(rules, cfg, b, c) == Killed(cfg, b, c))
  {
    hide Apply, Killed, AddReject, EffectiveStp;
  }

  lemma AnswerOk(rules: Rules, cfg: Config, b: Book, c: Command)
    requires BookOk(cfg, b)
    ensures BookOk(cfg, Answer(rules, cfg, b, c).book)
  {
    hide Apply, BookOk, Missed;
    ApplyOk(cfg, b, c);
  }

  /** Under either engine's rules, the book is sound all along every run. */
  lemma {:induction false} RunsOk(rules: Rules, cfg: Config, cmds: seq<Command>)
    ensures BookOk(cfg, RunOf(rules, cfg, cmds).book)
    decreases |cmds|
  {
    hide Answer, BookOk;
    if cmds == [] {
      EmptySound(cfg);
    } else {
      RunsOk(rules, cfg, cmds[..|cmds| - 1]);
      RunStep(rules, cfg, cmds);
      AnswerOk(rules, cfg, RunOf(rules, cfg, cmds[..|cmds| - 1]).book, cmds[|cmds| - 1]);
    }
  }

  /** No fill is missed at any point of the specification's own run. */
  ghost predicate NeverMissed(cfg: Config, cmds: seq<Command>) {
    forall i :: 0 <= i < |cmds| ==> !Missed(cfg, RunAll(cfg, cmds[..i]).book, cmds[i])
  }

  lemma NeverBefore(cfg: Config, cmds: seq<Command>)
    requires cmds != []
    ensures var n := |cmds| - 1;
      NeverMissed(cfg, cmds) <==> NeverMissed(cfg, cmds[..n]) && !Missed(cfg, RunAll(cfg, cmds[..n]).book, cmds[n])
  {
    hide RunAll, Missed;
    var n := |cmds| - 1;
    forall i | 0 <= i < n ensures cmds[..n][..i] == cmds[..i] {
    }
    if NeverMissed(cfg, cmds[..n]) && !Missed(cfg, RunAll(cfg, cmds[..n]).book, cmds[n]) {
      forall i | 0 <= i < |cmds| ensures !Missed(cfg, RunAll(cfg, cmds[..i]).book, cmds[i]) {
        if i < n {
          assert !Missed(cfg, RunAll(cfg, cmds[..n][..i]).book, cmds[..n][i]);
        }
      }
    }
    if NeverMissed(cfg, cmds) {
      forall i | 0 <= i < n ensures !Missed(cfg, RunAll(cfg, cmds[..n][..i]).book, cmds[..n][i]) {
        assert !Missed(cfg, RunAll(cfg, cmds[..i]).book, cmds[i]);
      }
    }
  }

  /** Two runs emit the same events, command by command, if and only if the specification's run never comes
      to a missed fill; then they also hold the same book. */
  lemma {:induction false} RunsAgreeIff(cfg: Config, cmds: seq<Command>)
    ensures RunFast(cfg, cmds).events == RunAll(cfg, cmds).events <==> NeverMissed(cfg, cmds)
    ensures NeverMissed(cfg, cmds) ==> RunFast(cfg, cmds) == RunAll(cfg, cmds)
    decreases |cmds|
  {
    hide Missed, Apply, BookOk, NeverMissed;
    if cmds == [] {
      assert NeverMissed(cfg, cmds) by { NothingMissed(cfg); }
    } else {
      var n := |cmds| - 1;
      RunsAgreeIff(cfg, cmds[..n]);
      NeverBefore(cfg, cmds);
      RunOk(cfg, cmds[..n]);
      DiffersIff(cfg, RunAll(cfg, cmds[..n]).book, cmds[n]);
      var f, r := RunFast(cfg, cmds).events, RunAll(cfg, cmds).events;
      assert f[..n] == RunFast(cfg, cmds[..n]).events && r[..n] == RunAll(cfg, cmds[..n]).events;
      assert f[n] == FastApply(cfg, RunFast(cfg, cmds[..n]).book, cmds[n]).events;
      assert r[n] == Apply(cfg, RunAll(cfg, cmds[..n]).book, cmds[n]).events;
    }
  }

  lemma NothingMissed(cfg: Config)
    ensures NeverMissed(cfg, [])
  {
  }

  /** Streams that never have 2^64 resting at once never miss a fill. */
  lemma SmallRunsAgree(cfg: Config, cmds: seq<Command>)
    requires cfg.numLevels > 0 && forall i :: 0 <= i < |cmds| ==> BookQty(RunAll(cfg, cmds[..i]).book) < U64
    ensures RunFast(cfg, cmds) == RunAll(cfg, cmds)
  {
    hide RunAll, Missed, BookQty, BookOk;
    forall i | 0 <= i < |cmds| ensures !Missed(cfg, RunAll(cfg, cmds[..i]).book, cmds[i]) {
      RunOk(cfg, cmds[..i]);
      SmallNeverMissed(cfg, RunAll(cfg, cmds[..i]).book, cmds[i]);
    }
    RunsAgreeIff(cfg, cmds);
  }

  /** Under either engine's rules and in every configuration: from a sound book with nothing at price 0, a command
      notes every level it changes if and only if nothing rests at price 0 after it. */
  lemma AnswerNotedIff(rules: Rules, cfg: Config, b: Book, c: Command)
    requires BookOk(cfg, b) && ZeroFree(b)
    ensures var z := Answer(rules, cfg, b, c); AllNoted(cfg, b, c, z) <==> ZeroFree(z.book)
  {
    hide Apply, BookOk, Missed, ZeroFree, LeftBehind;
    CommandNotedIff(cfg, b, c);
  }

  // ---- a stream that misses a fill ----

  function HalfSell(id: nat, px: int): Command {
    Command(NewOrder, id, px, U64 / 2, 0, 0, Sell, Limit, Day, 0, 0, 0)
  }

  /** Two sells of 2^63 at one price, then a fill-or-kill buy of one lot. */
  function MissingStream(px: int): seq<Command> {
    [HalfSell(1, px), HalfSell(2, px), Command(NewOrder, 3, px, 1, 0, 0, Buy, Limit, Fok, 0, 0, 0)]
  }

  lemma RestsFirst(cfg: Config, px: int)
    requires InBand(cfg, px) && cfg.maxOrders >= 2
    ensures RunAll(cfg, MissingStream(px)[..1]).book == Book([], [Order(1, U64 / 2, 0, px)])
  {
    var cmds := MissingStream(px);
    assert cmds[..1][..0] == [];
    assert RunAll(cfg, cmds[..1][..0]).book == EmptyBook;
  }

  lemma RestsSecond(cfg: Config, px: int)
    requires InBand(cfg, px) && cfg.maxOrders >= 2
    ensures RunAll(cfg, MissingStream(px)[..2]).book == Book([], [Order(1, U64 / 2, 0, px), Order(2, U64 / 2, 0, px)])
  {
    hide RunAll;
    var cmds := MissingStream(px);
    RestsFirst(cfg, px);
    assert cmds[..2][..1] == cmds[..1];
    RunLast(cfg, cmds[..2]);
    var q := [Order(1, U64 / 2, 0, px)];
    var o := Order(2, U64 / 2, 0, px);
    assert Insert(q, Sell, o) == [q[0]] + Insert(q[1..], Sell, o);
    assert Insert(q, Sell, o) == [Order(1, U64 / 2, 0, px), o];
  }

  lemma RunLast(cfg: Config, cmds: seq<Command>)
    requires cmds != []
    ensures var before := RunAll(cfg, cmds[..|cmds| - 1]).book;
      RunAll(cfg, cmds).book == Apply(cfg, before, cmds[|cmds| - 1]).book
  {
  }

  lemma {:induction false} OnlyHere(cfg: Config, q: seq<Order>, n: nat)
    requires forall k :: 0 <= k < |q| ==> RankOf(cfg, Sell, q[k].price) >= n
    ensures WordsWithin(cfg, Sell, q, n) == 0
    decreases n
  {
    if n > 0 {
      OnlyHere(cfg, q, n - 1);
      NoneAt(q, RankPrice(cfg, Sell, n - 1));
    }
  }

  /** The whole 2^64 at that price reads as zero: the books' events differ on the third command. */
  lemma FillMissed(cfg: Config, px: int)
    requires InBand(cfg, px) && cfg.maxOrders >= 2 && cfg.stp == NoStp
    ensures RunFast(cfg, MissingStream(px)).events != RunAll(cfg, MissingStream(px)).events
  {
    hide RunAll, RunFast, Missed;
    var cmds := MissingStream(px);
    RestsSecond(cfg, px);
    MissedThird(cfg, px);
    assert !NeverMissed(cfg, cmds);
    RunsAgreeIff(cfg, cmds);
  }

  lemma MissedThird(cfg: Config, px: int)
    requires InBand(cfg, px) && cfg.stp == NoStp
    ensures Missed(cfg, Book([], [Order(1, U64 / 2, 0, px), Order(2, U64 / 2, 0, px)]), MissingStream(px)[2])
  {
    var half := U64 / 2;
    var q, c := [Order(1, half, 0, px), Order(2, half, 0, px)], MissingStream(px)[2];
    var b, t := Book([], q), AddTaker(cfg, c);
    var n := LevelsWithin(cfg, t);
    OnlyHere(cfg, q, n - 1);
    assert q[1..] == [q[1]] && q[1..][1..] == [];
    assert LevelTotal(q, px) == half + LevelTotal(q[1..], px);
    assert LevelTotal(q[1..], px) == half + LevelTotal([], px);
    assert RankPrice(cfg, Sell, n - 1) == px;
    assert WordsWithin(cfg, Sell, q, n) == 0;
    assert Reached(q, t) == half + Reached(q[1..], t);
  }
}
