/** The level-2 mirror: an external book's level totals kept as one synthetic order per level in the
    matching engine. Reductions go in on both sides before any addition, so a diff whose end state is
    uncrossed never makes the engine trade. */
module Mirrors {
  import opened Types
  import opened BookSpec
  import opened BookInvariant
  import opened Ladders

  /** `bids[i]` and `asks[i]` are the totals mirrored at level i; `book` is the engine's book. */
  datatype Mirror = Mirror(bids: seq<nat>, asks: seq<nat>, book: Book)

  datatype Update = Update(px: int, qty: nat)

  function Totals(m: Mirror, side: Side): seq<nat> {
    if side == Buy then m.bids else m.asks
  }

  function WithTotals(m: Mirror, side: Side, qs: seq<nat>): Mirror {
    if side == Buy then m.(bids := qs) else m.(asks := qs)
  }

  /** Ids are derived from level and side, so they need no table. */
  function IdFor(i: nat, side: Side): nat {
    2 * i + (if side == Sell then 1 else 0) + 1
  }

  function LevelOf(cfg: Config, side: Side, r: int): int {
    if side == Buy then cfg.numLevels - 1 - r else r
  }

  /** The one order that stands for level i. */
  function Standing(cfg: Config, side: Side, qs: seq<nat>, i: nat): seq<Order> {
    if i < |qs| && qs[i] > 0 then [Order(IdFor(i, side), qs[i], 0, cfg.minPrice + i)] else []
  }

  function Rungs(cfg: Config, side: Side, qs: seq<nat>): (l: Ladder)
    ensures |l| == cfg.numLevels
  {
    seq(cfg.numLevels, r requires 0 <= r < cfg.numLevels => Standing(cfg, side, qs, LevelOf(cfg, side, r)))
  }

  ghost predicate Shape(cfg: Config, m: Mirror) {
    |m.bids| == cfg.numLevels && |m.asks| == cfg.numLevels && cfg.stp == NoStp
  }

  /** The engine's book is exactly the mirrored totals, one order a level. */
  ghost predicate MirrorOk(cfg: Config, m: Mirror) {
    && Shape(cfg, m) && BookOk(cfg, m.book)
    && m.book == Book(Concat(Rungs(cfg, Buy, m.bids)), Concat(Rungs(cfg, Sell, m.asks)))
  }

  ghost predicate Uncrossed(bids: seq<nat>, asks: seq<nat>) {
    forall i, j :: 0 <= i < |bids| && 0 <= j < |asks| && bids[i] > 0 && asks[j] > 0 ==> i < j
  }

  function Count(qs: seq<nat>): nat {
    if qs == [] then 0 else Count(qs[..|qs| - 1]) + if qs[|qs| - 1] > 0 then 1 else 0
  }

  function Base(cfg: Config, kind: MsgType, side: Side, i: nat, qty: nat): Command {
    Command(kind, IdFor(i, side), cfg.minPrice + i, qty, 0, cfg.symbol, side, Limit, Day, 0, 0, 0)
  }

  /** Brings one level to a total. */
  function SetLevel(cfg: Config, m: Mirror, side: Side, i: nat, qty: nat, allowAdd: bool): (Mirror, seq<Event>)
    requires i < |Totals(m, side)|
  {
    var cur := Totals(m, side)[i];
    var m1 := WithTotals(m, side, Totals(m, side)[i := qty]);
    if qty == 0 then
      if cur == 0 then (m1, [])
      else
        var z := Apply(cfg, m.book, Base(cfg, Cancel, side, i, qty));
        (m1.(book := z.book), z.events)
    else if cur == 0 then
      if !allowAdd then (m, [])
      else
        var z := Apply(cfg, m.book, Base(cfg, NewOrder, side, i, qty));
        (m1.(book := z.book), z.events)
    else
      var z := Apply(cfg, m.book, Base(cfg, Modify, side, i, qty));
      (m1.(book := z.book), z.events)
  }

  /** One update in one of the two passes: reductions first, then the rest. */
  function Touch(cfg: Config, m: Mirror, side: Side, u: Update, additions: bool): (Mirror, seq<Event>) {
    var rel := u.px - cfg.minPrice;
    if rel < 0 || rel >= |Totals(m, side)| then (m, [])
    else if (u.qty < Totals(m, side)[rel]) != additions then SetLevel(cfg, m, side, rel, u.qty, additions)
    else (m, [])
  }

  function Pass(cfg: Config, m: Mirror, side: Side, ups: seq<Update>, additions: bool): (Mirror, seq<Event>)
    decreases |ups|
  {
    if ups == [] then (m, [])
    else
      var (m1, now) := Touch(cfg, m, side, ups[0], additions);
      var (m2, later) := Pass(cfg, m1, side, ups[1..], additions);
      (m2, now + later)
  }

  function ApplyDiff(cfg: Config, m: Mirror, bids: seq<Update>, asks: seq<Update>): (Mirror, seq<Event>) {
    var (m1, e1) := Pass(cfg, m, Buy, bids, false);
    var (m2, e2) := Pass(cfg, m1, Sell, asks, false);
    var (m3, e3) := Pass(cfg, m2, Buy, bids, true);
    var (m4, e4) := Pass(cfg, m3, Sell, asks, true);
    (m4, e1 + e2 + e3 + e4)
  }

  // ---- one level ----

  lemma RungAt(cfg: Config, side: Side, qs: seq<nat>, i: nat)
    requires i < |qs| == cfg.numLevels
    ensures var r := RankOf(cfg, side, cfg.minPrice + i);
      0 <= r < cfg.numLevels && LevelOf(cfg, side, r) == i && Rungs(cfg, side, qs)[r] == Standing(cfg, side, qs, i)
  {
  }

  lemma RungsSet(cfg: Config, side: Side, qs: seq<nat>, i: nat, qty: nat)
    requires i < |qs| == cfg.numLevels
    ensures var r := RankOf(cfg, side, cfg.minPrice + i);
      && 0 <= r < cfg.numLevels
      && Rungs(cfg, side, qs[i := qty]) == Rungs(cfg, side, qs)[r := Standing(cfg, side, qs[i := qty], i)]
  {
    var r, l, l' := RankOf(cfg, side, cfg.minPrice + i), Rungs(cfg, side, qs), Rungs(cfg, side, qs[i := qty]);
    forall k | 0 <= k < |l| ensures l'[k] == l[r := Standing(cfg, side, qs[i := qty], i)][k] {
      assert k != r ==> LevelOf(cfg, side, k) != i;
    }
  }

  lemma RungsPriced(cfg: Config, side: Side, qs: seq<nat>)
    requires |qs| == cfg.numLevels
    ensures Priced(cfg, side, Rungs(cfg, side, qs))
  {
  }

  /** A level's order is in the book exactly when its total is not zero. */
  lemma StandsIff(cfg: Config, m: Mirror, side: Side, i: nat)
    requires MirrorOk(cfg, m) && i < cfg.numLevels
    ensures Contains(m.book, IdFor(i, side)) <==> Totals(m, side)[i] > 0
  {
    hide Concat, BookOk;
    var id := IdFor(i, side);
    forall s: Side ensures HasId(Resting(m.book, s), id) <==> s == side && Totals(m, side)[i] > 0 {
      var qs := Totals(m, s);
      var l := Rungs(cfg, s, qs);
      ConcatHas(l, id);
      RungAt(cfg, side, Totals(m, side), i);
      if Totals(m, side)[i] > 0 && s == side {
        assert l[RankOf(cfg, side, cfg.minPrice + i)][0].id == id;
      }
    }
    assert Contains(m.book, id) <==> HasId(Resting(m.book, Buy), id) || HasId(Resting(m.book, Sell), id);
  }

  /** Where the order of a level stands. */
  lemma StandsAt(cfg: Config, m: Mirror, side: Side, i: nat) returns (p: nat)
    requires MirrorOk(cfg, m) && i < cfg.numLevels && Totals(m, side)[i] > 0
    ensures var q, id := Resting(m.book, side), IdFor(i, side);
      && Contains(m.book, id) && SideOf(m.book, id) == side && p < |q| && Find(q, id) == p
      && q[p] == Order(id, Totals(m, side)[i], 0, cfg.minPrice + i)
      && RemoveAt(q, p) == Concat(Rungs(cfg, side, Totals(m, side)[i := 0]))
      && forall qty: nat :: qty > 0 ==> q[p := q[p].(qty := qty)] == Concat(Rungs(cfg, side, Totals(m, side)[i := qty]))
  {
    hide Concat, Find, RemoveAt;
    var qs, id := Totals(m, side), IdFor(i, side);
    var l, r := Rungs(cfg, side, qs), RankOf(cfg, side, cfg.minPrice + i);
    RungAt(cfg, side, qs, i);
    RungPosition(l, r, 0);
    p := |Concat(l[..r])|;
    FindIs(Resting(m.book, side), p);
    StandsIff(cfg, m, side, i);
    IdsByDisjoint(m.book.bids, m.book.asks);
    RungsSet(cfg, side, qs, i, 0);
    NoneLeft(l[r]);
    forall qty: nat | qty > 0 ensures Resting(m.book, side)[p := Resting(m.book, side)[p].(qty := qty)]
                                   == Concat(Rungs(cfg, side, qs[i := qty])) {
      RungsSet(cfg, side, qs, i, qty);
      RungUpdate(l, r, 0, l[r][0].(qty := qty));
      assert l[r][0 := l[r][0].(qty := qty)] == Standing(cfg, side, qs[i := qty], i);
    }
  }

  lemma NoneLeft(q: seq<Order>)
    requires |q| == 1
    ensures RemoveAt(q, 0) == []
  {
  }

  /** No incoming order at a level crosses when no opposite total stands at or inside it. */
  lemma NoCross(cfg: Config, m: Mirror, side: Side, i: nat)
    requires MirrorOk(cfg, m) && i < cfg.numLevels
    requires var opp := Totals(m, Opposite(side));
      forall j :: 0 <= j < |opp| && opp[j] > 0 ==> if side == Buy then i < j else j < i
    ensures !Crosses(m.book, side, cfg.minPrice + i)
  {
    hide BookOk;
    var opp := Opposite(side);
    var l := Rungs(cfg, opp, Totals(m, opp));
    forall k | 0 <= k < |Concat(l)| ensures !Reaches(side, cfg.minPrice + i, Concat(l)[k].price) {
      var o := Concat(l)[k];
      assert HasId(Concat(l), o.id);
      var r := PlaceIn(l, k);
      var j := LevelOf(cfg, opp, r);
      assert l[r] == Standing(cfg, opp, Totals(m, opp), j);
    }
  }

  lemma {:induction false} PlaceIn(l: Ladder, k: nat) returns (r: nat)
    requires k < |Concat(l)|
    ensures r < |l| && Concat(l)[k] in l[r]
    decreases |l|
  {
    if k < |l[0]| {
      r := 0;
    } else {
      var s := PlaceIn(l[1..], k - |l[0]|);
      r := s + 1;
    }
  }

  // ---- counting ----

  lemma {:induction false} CountSet(qs: seq<nat>, i: nat, qty: nat)
    requires i < |qs|
    ensures Count(qs[i := qty]) + (if qs[i] > 0 then 1 else 0) == Count(qs) + if qty > 0 then 1 else 0
    decreases |qs|
  {
    var m := |qs| - 1;
    if i < m {
      CountSet(qs[..m], i, qty);
      assert qs[i := qty][..m] == qs[..m][i := qty];
    } else {
      assert qs[i := qty][..m] == qs[..m];
    }
  }

  lemma {:induction false} CountBelow(qs: seq<nat>, bound: seq<nat>)
    requires |qs| == |bound| && forall i :: 0 <= i < |qs| ==> qs[i] <= bound[i]
    ensures Count(qs) <= Count(bound)
    decreases |qs|
  {
    if qs != [] {
      CountBelow(qs[..|qs| - 1], bound[..|qs| - 1]);
    }
  }

  lemma {:induction false} ConcatCount(l: Ladder)
    requires forall r :: 0 <= r < |l| ==> |l[r]| <= 1
    ensures |Concat(l)| == NonEmpty(l)
    decreases |l|
  {
    if l != [] {
      ConcatCount(l[1..]);
    }
  }

  function NonEmpty(l: Ladder): nat {
    if l == [] then 0 else (if l[0] != [] then 1 else 0) + NonEmpty(l[1..])
  }

  lemma {:induction false} NonEmptySplit(a: Ladder, b: Ladder)
    ensures NonEmpty(a + b) == NonEmpty(a) + NonEmpty(b)
    decreases |a|
  {
    if a == [] {
      assert a + b == b;
    } else {
      assert (a + b)[1..] == a[1..] + b;
      NonEmptySplit(a[1..], b);
    }
  }

  /** As many non-empty rungs as non-zero totals, whichever way the ladder runs. */
  lemma {:induction false} CountRungs(side: Side, l: Ladder, qs: seq<nat>)
    requires |l| == |qs|
    requires forall i :: 0 <= i < |qs| ==> (l[if side == Buy then |qs| - 1 - i else i] != [] <==> qs[i] > 0)
    ensures NonEmpty(l) == Count(qs)
    decreases |qs|
  {
    if qs != [] {
      var m := |qs| - 1;
      if side == Buy {
        forall i | 0 <= i < m ensures l[1..][m - 1 - i] != [] <==> qs[..m][i] > 0 {
          assert l[1..][m - 1 - i] == l[|qs| - 1 - i];
        }
        CountRungs(side, l[1..], qs[..m]);
        assert l[|qs| - 1 - m] == l[0];
      } else {
        CountRungs(side, l[..m], qs[..m]);
        assert l == l[..m] + [l[m]];
        NonEmptySplit(l[..m], [l[m]]);
        assert NonEmpty([l[m]]) == (if l[m] != [] then 1 else 0) + NonEmpty([l[m]][1..]);
      }
    }
  }

  lemma SideCount(cfg: Config, side: Side, qs: seq<nat>)
    requires |qs| == cfg.numLevels
    ensures |Concat(Rungs(cfg, side, qs))| == Count(qs)
  {
    var l := Rungs(cfg, side, qs);
    ConcatCount(l);
    forall i | 0 <= i < |qs| ensures l[if side == Buy then |qs| - 1 - i else i] != [] <==> qs[i] > 0 {
      RungAt(cfg, side, qs, i);
    }
    CountRungs(side, l, qs);
  }

  // ---- setting a level ----

  ghost predicate NoTrade(es: seq<Event>) {
    forall k :: 0 <= k < |es| ==> es[k].kind != Trade && es[k].kind != Rejected && es[k].reason != BookFull
  }

  lemma SidesBook(cfg: Config, m: Mirror, side: Side, qs: seq<nat>, b: Book)
    requires MirrorOk(cfg, m) && |qs| == cfg.numLevels && BookOk(cfg, b)
    requires b == WithResting(m.book, side, Concat(Rungs(cfg, side, qs)))
    ensures MirrorOk(cfg, WithTotals(m, side, qs).(book := b))
  {
    hide Concat, BookOk;
  }

  lemma CancelLevel(cfg: Config, m: Mirror, side: Side, i: nat)
    requires MirrorOk(cfg, m) && i < cfg.numLevels && Totals(m, side)[i] > 0
    ensures var (m', es) := SetLevel(cfg, m, side, i, 0, false);
      MirrorOk(cfg, m') && m' == WithTotals(m, side, Totals(m, side)[i := 0]).(book := m'.book) && NoTrade(es)
  {
    hide Concat, Find, RemoveAt, BookOk, Contains, Rungs, MirrorOk;
    var p := StandsAt(cfg, m, side, i);
    MirrorFacts(cfg, m);
    ApplyOk(cfg, m.book, Base(cfg, Cancel, side, i, 0));
    SidesBook(cfg, m, side, Totals(m, side)[i := 0], Apply(cfg, m.book, Base(cfg, Cancel, side, i, 0)).book);
  }

  lemma MirrorFacts(cfg: Config, m: Mirror)
    requires MirrorOk(cfg, m)
    ensures Shape(cfg, m) && BookOk(cfg, m.book)
    ensures |m.book.bids| + |m.book.asks| == Count(m.bids) + Count(m.asks)
  {
    hide BookOk;
    SideCount(cfg, Buy, m.bids);
    SideCount(cfg, Sell, m.asks);
  }

  /** An order that does not cross executes by resting. */
  lemma RestsWhole(cfg: Config, b: Book, t: Taker, px: int, qty: nat)
    requires !Crosses(b, t.side, t.limit) && qty > 0
    ensures Execute(cfg, b, t, px, qty, true) == Rest(cfg, b, t.side, Order(t.id, qty, t.owner, t.limit))
  {
    var none: seq<Event> := [];
    var z := Rest(cfg, b, t.side, Order(t.id, qty, t.owner, t.limit));
    assert none + z.events == z.events;
    assert WithResting(b, Opposite(t.side), Resting(b, Opposite(t.side))) == b;
  }

  lemma AddLevel(cfg: Config, m: Mirror, side: Side, i: nat, qty: nat)
    requires MirrorOk(cfg, m) && i < cfg.numLevels && Totals(m, side)[i] == 0 && qty > 0
    requires !Crosses(m.book, side, cfg.minPrice + i) && Count(m.bids) + Count(m.asks) < cfg.maxOrders
    ensures var (m', es) := SetLevel(cfg, m, side, i, qty, true);
      MirrorOk(cfg, m') && m' == WithTotals(m, side, Totals(m, side)[i := qty]).(book := m'.book) && NoTrade(es)
  {
    hide Concat, BookOk, Contains, Insert, Crosses, Execute, MirrorOk, Rungs;
    var qs, c, o := Totals(m, side), Base(cfg, NewOrder, side, i, qty), Order(IdFor(i, side), qty, 0, cfg.minPrice + i);
    StandsIff(cfg, m, side, i);
    MirrorFacts(cfg, m);
    RestsWhole(cfg, m.book, AddTaker(cfg, c), c.price, qty);
    InsertLevel(cfg, m, side, qs, i, qty);
    ApplyOk(cfg, m.book, c);
    MirrorSide(cfg, m, side);
    SidesBook(cfg, m, side, qs[i := qty], Apply(cfg, m.book, c).book);
  }

  lemma MirrorSide(cfg: Config, m: Mirror, side: Side)
    requires MirrorOk(cfg, m)
    ensures Resting(m.book, side) == Concat(Rungs(cfg, side, Totals(m, side)))
  {
    hide Concat, Rungs;
  }

  /** Behind nothing at its own level: the level's order enters where the ladder has it. */
  lemma InsertLevel(cfg: Config, m: Mirror, side: Side, qs: seq<nat>, i: nat, qty: nat)
    requires i < |qs| == cfg.numLevels && qs[i] == 0 && qty > 0
    ensures Insert(Concat(Rungs(cfg, side, qs)), side, Order(IdFor(i, side), qty, 0, cfg.minPrice + i))
         == Concat(Rungs(cfg, side, qs[i := qty]))
  {
    hide Concat, Insert;
    var o := Order(IdFor(i, side), qty, 0, cfg.minPrice + i);
    RungsPriced(cfg, side, qs);
    InsertRung(cfg, side, Rungs(cfg, side, qs), o);
    RungAt(cfg, side, qs, i);
    RungsSet(cfg, side, qs, i, qty);
    assert [] + [o] == [o];
  }

  lemma ShrinkLevel(cfg: Config, m: Mirror, side: Side, i: nat, qty: nat, allowAdd: bool)
    requires MirrorOk(cfg, m) && i < cfg.numLevels && 0 < qty <= Totals(m, side)[i]
    ensures var (m', es) := SetLevel(cfg, m, side, i, qty, allowAdd);
      MirrorOk(cfg, m') && m' == WithTotals(m, side, Totals(m, side)[i := qty]).(book := m'.book) && NoTrade(es)
  {
    hide Concat, Find, RemoveAt, BookOk, Contains, Rungs, MirrorOk;
    var p := StandsAt(cfg, m, side, i);
    MirrorFacts(cfg, m);
    ApplyOk(cfg, m.book, Base(cfg, Modify, side, i, qty));
    SidesBook(cfg, m, side, Totals(m, side)[i := qty], Apply(cfg, m.book, Base(cfg, Modify, side, i, qty)).book);
  }

  /** Growth takes the order out and puts it back, larger. */
  lemma GrowLevel(cfg: Config, m: Mirror, side: Side, i: nat, qty: nat)
    requires MirrorOk(cfg, m) && i < cfg.numLevels && 0 < Totals(m, side)[i] < qty
    requires !Crosses(m.book, side, cfg.minPrice + i)
    ensures var (m', es) := SetLevel(cfg, m, side, i, qty, true);
      MirrorOk(cfg, m') && m' == WithTotals(m, side, Totals(m, side)[i := qty]).(book := m'.book) && NoTrade(es)
  {
    hide Concat, Find, RemoveAt, BookOk, Contains, Rungs, MirrorOk, Insert, Execute, Crosses;
    var qs, c := Totals(m, side), Base(cfg, Modify, side, i, qty);
    var p := StandsAt(cfg, m, side, i);
    MirrorFacts(cfg, m);
    var b0 := WithResting(m.book, side, RemoveAt(Resting(m.book, side), p));
    var t := Taker(cfg.symbol, c.orderId, 0, side, c.price, cfg.stp);
    OneFewer(cfg, m.book, side, p);
    CrossesSame(m.book, b0, side, c.price);
    RestsWhole(cfg, b0, t, c.price, qty);
    MirrorFits(cfg, m);
    InsertLevel(cfg, m, side, qs[i := 0], i, qty);
    var cleared: seq<nat> := qs[i := 0];
    assert cleared[i := qty] == qs[i := qty];
    ApplyOk(cfg, m.book, c);
    SidesBook(cfg, m, side, qs[i := qty], Apply(cfg, m.book, c).book);
  }

  lemma OneFewer(cfg: Config, b: Book, side: Side, p: nat)
    requires p < |Resting(b, side)|
    ensures var b0 := WithResting(b, side, RemoveAt(Resting(b, side), p));
      |b0.bids| + |b0.asks| + 1 == |b.bids| + |b.asks|
  {
  }

  lemma CrossesSame(b: Book, b0: Book, side: Side, limit: int)
    requires Resting(b0, Opposite(side)) == Resting(b, Opposite(side))
    ensures Crosses(b0, side, limit) == Crosses(b, side, limit)
  {
  }

  lemma MirrorFits(cfg: Config, m: Mirror)
    requires MirrorOk(cfg, m)
    ensures |m.book.bids| + |m.book.asks| <= cfg.maxOrders
  {
    hide Concat, Rungs;
  }

  // ---- whole diffs ----

  /** The total a side's updates ask for at level i, if they mention it. */
  function Target(cfg: Config, ups: seq<Update>, i: nat): Option<nat> {
    if ups == [] then None
    else if ups[0].px == cfg.minPrice + i then Some(ups[0].qty)
    else Target(cfg, ups[1..], i)
  }

  ghost predicate Distinct(ups: seq<Update>) {
    forall a, b :: 0 <= a < b < |ups| ==> ups[a].px != ups[b].px
  }

  /** A side's totals once all its updates are in. */
  function EndState(cfg: Config, qs: seq<nat>, ups: seq<Update>): (e: seq<nat>)
    ensures |e| == |qs|
  {
    seq(|qs|, i requires 0 <= i < |qs| => match Target(cfg, ups, i) case Some(v) => v case None => qs[i])
  }

  function Lower(a: nat, b: nat): nat {
    if a < b then a else b
  }

  /** A mirror within uncrossed bounds that fit the engine. */
  ghost predicate Within(cfg: Config, m: Mirror, bids: seq<nat>, asks: seq<nat>) {
    && Shape(cfg, m) && |bids| == cfg.numLevels && |asks| == cfg.numLevels
    && Uncrossed(bids, asks) && Count(bids) + Count(asks) <= cfg.maxOrders
    && (forall i :: 0 <= i < |bids| ==> m.bids[i] <= bids[i]) && (forall i :: 0 <= i < |asks| ==> m.asks[i] <= asks[i])
  }

  lemma WithinNoCross(cfg: Config, m: Mirror, bids: seq<nat>, asks: seq<nat>, side: Side, i: nat)
    requires MirrorOk(cfg, m) && Within(cfg, m, bids, asks) && i < cfg.numLevels
    requires (if side == Buy then bids else asks)[i] > 0
    ensures !Crosses(m.book, side, cfg.minPrice + i)
  {
    NoCross(cfg, m, side, i);
  }

  /** With its level still empty, a level within the bounds has room. */
  lemma WithinRoom(cfg: Config, m: Mirror, bids: seq<nat>, asks: seq<nat>, side: Side, i: nat)
    requires Within(cfg, m, bids, asks) && i < cfg.numLevels
    requires Totals(m, side)[i] == 0 && (if side == Buy then bids else asks)[i] > 0
    ensures Count(m.bids) + Count(m.asks) < cfg.maxOrders
  {
    var more := Totals(m, side)[i := 1];
    CountSet(Totals(m, side), i, 1);
    if side == Buy {
      CountBelow(more, bids);
      CountBelow(m.asks, asks);
    } else {
      CountBelow(m.bids, bids);
      CountBelow(more, asks);
    }
  }

  /** An update in the band asks for no more than the bound at its level. */
  ghost predicate Fits(cfg: Config, u: Update, bound: seq<nat>) {
    0 <= u.px - cfg.minPrice < |bound| ==> u.qty <= bound[u.px - cfg.minPrice]
  }

  /** One update in one pass: takes its level down to the lower of the two totals, or up to its own. */
  lemma TouchOk(cfg: Config, m: Mirror, side: Side, u: Update, additions: bool, bids: seq<nat>, asks: seq<nat>)
    requires MirrorOk(cfg, m) && Within(cfg, m, bids, asks)
    requires additions ==> Fits(cfg, u, if side == Buy then bids else asks)
    ensures var (m', es) := Touch(cfg, m, side, u, additions);
      && MirrorOk(cfg, m') && Within(cfg, m', bids, asks) && NoTrade(es)
      && Totals(m', Opposite(side)) == Totals(m, Opposite(side))
      && forall i: nat :: i < cfg.numLevels ==>
           Totals(m', side)[i] == if u.px != cfg.minPrice + i then Totals(m, side)[i]
                                  else if !additions then Lower(u.qty, Totals(m, side)[i])
                                  else if u.qty < Totals(m, side)[i] then Totals(m, side)[i] else u.qty
  {
    hide MirrorOk, Count, Concat, BookOk, SetLevel;
    MirrorFacts(cfg, m);
    var rel := u.px - cfg.minPrice;
    if 0 <= rel < cfg.numLevels && (u.qty < Totals(m, side)[rel]) != additions {
      TouchLevel(cfg, m, side, rel, u.qty, additions, bids, asks);
    }
  }

  lemma TouchLevel(cfg: Config, m: Mirror, side: Side, i: nat, qty: nat, additions: bool, bids: seq<nat>,
                   asks: seq<nat>)
    requires MirrorOk(cfg, m) && Within(cfg, m, bids, asks) && i < cfg.numLevels && i < |Totals(m, side)|
    requires (qty < Totals(m, side)[i]) != additions
    requires additions ==> qty <= (if side == Buy then bids else asks)[i]
    ensures var (m', es) := SetLevel(cfg, m, side, i, qty, additions);
      MirrorOk(cfg, m') && m' == WithTotals(m, side, Totals(m, side)[i := qty]).(book := m'.book) && NoTrade(es)
  {
    hide MirrorOk, Count, Concat, BookOk, Crosses;
    var cur := Totals(m, side)[i];
    if qty == 0 && cur > 0 {
      CancelLevel(cfg, m, side, i);
    } else if qty == 0 {
      assert Totals(m, side)[i := 0] == Totals(m, side);
    } else if qty <= cur {
      ShrinkLevel(cfg, m, side, i, qty, additions);
    } else {
      WithinNoCross(cfg, m, bids, asks, side, i);
      if cur == 0 {
        WithinRoom(cfg, m, bids, asks, side, i);
        AddLevel(cfg, m, side, i, qty);
      } else {
        GrowLevel(cfg, m, side, i, qty);
      }
    }
  }

  lemma {:induction false} TargetNone(cfg: Config, ups: seq<Update>, i: nat)
    requires forall a :: 0 <= a < |ups| ==> ups[a].px != cfg.minPrice + i
    ensures Target(cfg, ups, i) == None
    decreases |ups|
  {
    if ups != [] {
      TargetNone(cfg, ups[1..], i);
    }
  }

  lemma TradeFree(a: seq<Event>, b: seq<Event>)
    requires NoTrade(a) && NoTrade(b)
    ensures NoTrade(a + b)
  {
  }

  /** What a whole pass leaves at each level. */
  function AfterPass(cfg: Config, ups: seq<Update>, i: nat, cur: nat, additions: bool): nat {
    match Target(cfg, ups, i)
    case None => cur
    case Some(v) => if additions then (if v < cur then cur else v) else Lower(v, cur)
  }

  lemma {:induction false} PassOk(cfg: Config, m: Mirror, side: Side, ups: seq<Update>, additions: bool, bids: seq<nat>,
                                  asks: seq<nat>)
    requires MirrorOk(cfg, m) && Within(cfg, m, bids, asks) && Distinct(ups)
    requires additions ==> forall a :: 0 <= a < |ups| ==> Fits(cfg, ups[a], if side == Buy then bids else asks)
    ensures var (m', es) := Pass(cfg, m, side, ups, additions);
      && MirrorOk(cfg, m') && Within(cfg, m', bids, asks) && NoTrade(es)
      && Totals(m', Opposite(side)) == Totals(m, Opposite(side))
      && forall i: nat :: i < cfg.numLevels ==>
           Totals(m', side)[i] == AfterPass(cfg, ups, i, Totals(m, side)[i], additions)
    decreases |ups|
  {
    hide MirrorOk, Touch, Uncrossed, Count;
    if ups != [] {
      var u, rest := ups[0], ups[1..];
      TouchOk(cfg, m, side, u, additions, bids, asks);
      var (m1, now) := Touch(cfg, m, side, u, additions);
      assert forall a :: 0 <= a < |rest| ==> rest[a] == ups[a + 1];
      PassOk(cfg, m1, side, rest, additions, bids, asks);
      var (m2, later) := Pass(cfg, m1, side, rest, additions);
      TradeFree(now, later);
      forall i: nat | i < cfg.numLevels
        ensures Totals(m2, side)[i] == AfterPass(cfg, ups, i, Totals(m, side)[i], additions)
      {
        if u.px == cfg.minPrice + i {
          TargetNone(cfg, rest, i);
        }
      }
    }
  }

  /** With distinct levels, the target of a level is its own update. */
  lemma {:induction false} TargetIs(cfg: Config, ups: seq<Update>, a: nat, i: nat)
    requires Distinct(ups) && a < |ups| && ups[a].px == cfg.minPrice + i
    ensures Target(cfg, ups, i) == Some(ups[a].qty)
    decreases |ups|
  {
    if a > 0 {
      assert forall k :: 0 <= k < |ups[1..]| ==> ups[1..][k] == ups[k + 1];
      TargetIs(cfg, ups[1..], a - 1, i);
    }
  }

  /** The mirror never trades: from an uncrossed mirror, a diff with distinct levels whose end state is
      uncrossed and fits the engine produces no trade and no rejection at any step, and leaves the engine
      holding exactly the diffed totals, one order a level. */
  lemma NeverTrades(cfg: Config, m: Mirror, bids: seq<Update>, asks: seq<Update>)
    requires MirrorOk(cfg, m) && Distinct(bids) && Distinct(asks)
    requires var eb, ea := EndState(cfg, m.bids, bids), EndState(cfg, m.asks, asks);
      Uncrossed(eb, ea) && Count(eb) + Count(ea) <= cfg.maxOrders
    ensures var (m', es) := ApplyDiff(cfg, m, bids, asks);
      && MirrorOk(cfg, m') && NoTrade(es)
      && m'.bids == EndState(cfg, m.bids, bids) && m'.asks == EndState(cfg, m.asks, asks)
  {
    hide MirrorOk, Pass, Count, Uncrossed, Distinct;
    MirrorFacts(cfg, m);
    var eb, ea := EndState(cfg, m.bids, bids), EndState(cfg, m.asks, asks);
    StartWithin(cfg, m);
    PassOk(cfg, m, Buy, bids, false, m.bids, m.asks);
    var (m1, e1) := Pass(cfg, m, Buy, bids, false);
    PassOk(cfg, m1, Sell, asks, false, m.bids, m.asks);
    var (m2, e2) := Pass(cfg, m1, Sell, asks, false);
    UpdatesBelow(cfg, m.bids, bids);
    UpdatesBelow(cfg, m.asks, asks);
    assert Within(cfg, m2, eb, ea);
    PassOk(cfg, m2, Buy, bids, true, eb, ea);
    var (m3, e3) := Pass(cfg, m2, Buy, bids, true);
    PassOk(cfg, m3, Sell, asks, true, eb, ea);
    var (m4, e4) := Pass(cfg, m3, Sell, asks, true);
    assert m4.bids == eb;
    assert m4.asks == ea;
    TradeFree(e1, e2);
    TradeFree(e1 + e2, e3);
    TradeFree(e1 + e2 + e3, e4);
  }

  lemma UpdatesBelow(cfg: Config, qs: seq<nat>, ups: seq<Update>)
    requires Distinct(ups) && |qs| == cfg.numLevels
    ensures forall a :: 0 <= a < |ups| ==> Fits(cfg, ups[a], EndState(cfg, qs, ups))
  {
    forall a | 0 <= a < |ups| ensures Fits(cfg, ups[a], EndState(cfg, qs, ups)) {
      if 0 <= ups[a].px - cfg.minPrice < cfg.numLevels {
        TargetIs(cfg, ups, a, ups[a].px - cfg.minPrice);
      }
    }
  }

  /** A sound mirror is within its own totals. */
  lemma StartWithin(cfg: Config, m: Mirror)
    requires MirrorOk(cfg, m)
    ensures Within(cfg, m, m.bids, m.asks)
  {
    MirrorFacts(cfg, m);
    forall i, j | 0 <= i < |m.bids| && 0 <= j < |m.asks| && m.bids[i] > 0 && m.asks[j] > 0 ensures i < j {
      var p := StandsAt(cfg, m, Buy, i);
      var q := StandsAt(cfg, m, Sell, j);
      BestFirst(cfg, m.book, p, q);
    }
  }

  lemma BestFirst(cfg: Config, b: Book, p: nat, q: nat)
    requires BookOk(cfg, b) && p < |b.bids| && q < |b.asks|
    ensures b.bids[p].price < b.asks[q].price
  {
    assert !Better(Buy, b.bids[p].price, b.bids[0].price);
    assert !Better(Sell, b.asks[q].price, b.asks[0].price);
  }

  // ---- fresh and seeded mirrors, and whole runs ----

  function Fresh(cfg: Config): Mirror {
    Mirror(Zeros(cfg.numLevels), Zeros(cfg.numLevels), EmptyBook)
  }

  function Zeros(n: nat): (qs: seq<nat>)
    ensures |qs| == n
  {
    seq(n, _ => 0)
  }

  lemma FreshOk(cfg: Config)
    requires cfg.stp == NoStp
    ensures MirrorOk(cfg, Fresh(cfg))
  {
    hide Concat, Rungs;
    NothingStands(cfg, Buy);
    NothingStands(cfg, Sell);
  }

  lemma NothingStands(cfg: Config, side: Side)
    ensures Concat(Rungs(cfg, side, Zeros(cfg.numLevels))) == []
  {
    hide Concat;
    ConcatEmpty(Rungs(cfg, side, Zeros(cfg.numLevels)));
  }

  /** Seeding sets one side's levels in the order the snapshot lists them. */
  function SeedSide(cfg: Config, m: Mirror, side: Side, ups: seq<Update>): (Mirror, seq<Event>)
    decreases |ups|
  {
    if ups == [] then (m, [])
    else
      var rel := ups[0].px - cfg.minPrice;
      var (m1, now) :=
        if rel < 0 || rel >= |Totals(m, side)| then (m, []) else SetLevel(cfg, m, side, rel, ups[0].qty, true);
      var (m2, later) := SeedSide(cfg, m1, side, ups[1..]);
      (m2, now + later)
  }

  lemma SeedNext(cfg: Config, m: Mirror, side: Side, ups: seq<Update>, i: nat)
    requires i <= |ups|
    ensures SeedSide(cfg, m, side, ups[i..]) ==
      if i == |ups| then (m, [])
      else
        var rel := ups[i].px - cfg.minPrice;
        var (m1, now) :=
          if rel < 0 || rel >= |Totals(m, side)| then (m, []) else SetLevel(cfg, m, side, rel, ups[i].qty, true);
        var (m2, later) := SeedSide(cfg, m1, side, ups[i + 1..]);
        (m2, now + later)
  {
    assert i < |ups| ==> ups[i..][1..] == ups[i + 1..];
  }

  /** Drops everything and starts again from a snapshot. */
  function Seed(cfg: Config, bids: seq<Update>, asks: seq<Update>): (Mirror, seq<Event>) {
    var (m1, e1) := SeedSide(cfg, Fresh(cfg), Buy, bids);
    var (m2, e2) := SeedSide(cfg, m1, Sell, asks);
    (m2, e1 + e2)
  }

  /** On levels still empty, seeding is the adding pass of a diff. */
  lemma {:induction false} SeedIsPass(cfg: Config, m: Mirror, side: Side, ups: seq<Update>)
    requires Distinct(ups) && forall a :: 0 <= a < |ups| ==> Unset(cfg, Totals(m, side), ups[a])
    ensures SeedSide(cfg, m, side, ups) == Pass(cfg, m, side, ups, true)
    decreases |ups|
  {
    hide SetLevel;
    if ups != [] {
      var m1 := Touch(cfg, m, side, ups[0], true).0;
      assert Unset(cfg, Totals(m, side), ups[0]);
      forall a | 0 <= a < |ups[1..]| ensures Unset(cfg, Totals(m1, side), ups[1..][a]) {
        assert ups[1..][a] == ups[a + 1] && Unset(cfg, Totals(m, side), ups[a + 1]) && ups[0].px != ups[a + 1].px;
        TouchElsewhere(cfg, m, side, ups[0], ups[a + 1]);
      }
      assert forall a :: 0 <= a < |ups[1..]| ==> ups[1..][a] == ups[a + 1];
      SeedIsPass(cfg, m1, side, ups[1..]);
    }
  }

  ghost predicate Unset(cfg: Config, qs: seq<nat>, u: Update) {
    0 <= u.px - cfg.minPrice < |qs| ==> qs[u.px - cfg.minPrice] == 0
  }

  lemma TouchElsewhere(cfg: Config, m: Mirror, side: Side, u: Update, v: Update)
    requires u.px != v.px && Unset(cfg, Totals(m, side), v)
    ensures Unset(cfg, Totals(Touch(cfg, m, side, u, true).0, side), v)
  {
    hide Apply;
  }

  /** What a mirror is fed: a snapshot to start again from, or a diff. */
  datatype Feed = Reseed(bids: seq<Update>, asks: seq<Update>) | Diff(bids: seq<Update>, asks: seq<Update>)

  function Feeding(cfg: Config, m: Mirror, f: Feed): (Mirror, seq<Event>) {
    match f
    case Reseed(bids, asks) => Seed(cfg, bids, asks)
    case Diff(bids, asks) => ApplyDiff(cfg, m, bids, asks)
  }

  /** The totals a feed leads to. */
  function EndTotals(cfg: Config, m: Mirror, f: Feed): (seq<nat>, seq<nat>) {
    match f
    case Reseed(bids, asks) => (EndState(cfg, Zeros(cfg.numLevels), bids), EndState(cfg, Zeros(cfg.numLevels), asks))
    case Diff(bids, asks) => (EndState(cfg, m.bids, bids), EndState(cfg, m.asks, asks))
  }

  /** Distinct levels on each side, and an end state that is uncrossed and fits the engine. */
  ghost predicate Proper(cfg: Config, m: Mirror, f: Feed) {
    && Distinct(f.bids) && Distinct(f.asks)
    && var (eb, ea) := EndTotals(cfg, m, f);
       Uncrossed(eb, ea) && Count(eb) + Count(ea) <= cfg.maxOrders
  }

  lemma FreshWithin(cfg: Config, eb: seq<nat>, ea: seq<nat>)
    requires cfg.stp == NoStp && |eb| == cfg.numLevels && |ea| == cfg.numLevels
    requires Uncrossed(eb, ea) && Count(eb) + Count(ea) <= cfg.maxOrders
    ensures Within(cfg, Fresh(cfg), eb, ea)
  {
  }

  /** Seeding never trades, and leaves exactly the snapshot's totals. */
  lemma SeedNeverTrades(cfg: Config, bids: seq<Update>, asks: seq<Update>)
    requires cfg.stp == NoStp && Proper(cfg, Fresh(cfg), Reseed(bids, asks))
    ensures var (m, es) := Seed(cfg, bids, asks);
      MirrorOk(cfg, m) && NoTrade(es) && (m.bids, m.asks) == EndTotals(cfg, m, Reseed(bids, asks))
  {
    hide MirrorOk, Pass, Count, Uncrossed, Distinct, SeedSide;
    var z := Zeros(cfg.numLevels);
    var eb, ea := EndState(cfg, z, bids), EndState(cfg, z, asks);
    FreshOk(cfg);
    FreshWithin(cfg, eb, ea);
    UpdatesBelow(cfg, z, bids);
    UpdatesBelow(cfg, z, asks);
    SeedIsPass(cfg, Fresh(cfg), Buy, bids);
    PassOk(cfg, Fresh(cfg), Buy, bids, true, eb, ea);
    var (m1, e1) := SeedSide(cfg, Fresh(cfg), Buy, bids);
    SeedIsPass(cfg, m1, Sell, asks);
    PassOk(cfg, m1, Sell, asks, true, eb, ea);
    var (m2, e2) := SeedSide(cfg, m1, Sell, asks);
    assert m2.bids == eb;
    assert m2.asks == ea;
    TradeFree(e1, e2);
  }

  function RunMirror(cfg: Config, feeds: seq<Feed>): (Mirror, seq<Event>) {
    if feeds == [] then (Fresh(cfg), [])
    else
      var (m, es) := RunMirror(cfg, feeds[..|feeds| - 1]);
      var (m1, now) := Feeding(cfg, m, feeds[|feeds| - 1]);
      (m1, es + now)
  }

  ghost predicate AllProper(cfg: Config, feeds: seq<Feed>) {
    forall i :: 0 <= i < |feeds| ==> Proper(cfg, RunMirror(cfg, feeds[..i]).0, feeds[i])
  }

  lemma ProperBefore(cfg: Config, feeds: seq<Feed>)
    requires feeds != [] && AllProper(cfg, feeds)
    ensures AllProper(cfg, feeds[..|feeds| - 1])
    ensures Proper(cfg, RunMirror(cfg, feeds[..|feeds| - 1]).0, feeds[|feeds| - 1])
  {
    hide Proper, RunMirror;
    var n := |feeds| - 1;
    forall i | 0 <= i < n ensures Proper(cfg, RunMirror(cfg, feeds[..n][..i]).0, feeds[..n][i]) {
      assert feeds[..n][..i] == feeds[..i];
      assert Proper(cfg, RunMirror(cfg, feeds[..i]).0, feeds[i]);
    }
  }

  /** The mirror never trades: from a fresh mirror, over any run of snapshots and diffs each with distinct
      levels and an uncrossed end state that fits, no step trades or rejects, and after each the engine
      holds exactly the totals fed, one order a level. */
  lemma {:induction false} RunNeverTrades(cfg: Config, feeds: seq<Feed>)
    requires cfg.stp == NoStp && AllProper(cfg, feeds)
    ensures var (m, es) := RunMirror(cfg, feeds); MirrorOk(cfg, m) && NoTrade(es)
    ensures feeds != [] ==>
      var before, m := RunMirror(cfg, feeds[..|feeds| - 1]).0, RunMirror(cfg, feeds).0;
      (m.bids, m.asks) == EndTotals(cfg, before, feeds[|feeds| - 1])
    decreases |feeds|
  {
    hide MirrorOk, AllProper, Seed, ApplyDiff, Count, Uncrossed, Distinct;
    if feeds == [] {
      FreshOk(cfg);
    } else {
      var n := |feeds| - 1;
      ProperBefore(cfg, feeds);
      RunNeverTrades(cfg, feeds[..n]);
      var (m, es) := RunMirror(cfg, feeds[..n]);
      match feeds[n]
      case Reseed(bids, asks) =>
        SeedNeverTrades(cfg, bids, asks);
        TradeFree(es, Seed(cfg, bids, asks).1);
      case Diff(bids, asks) =>
        NeverTrades(cfg, m, bids, asks);
        TradeFree(es, ApplyDiff(cfg, m, bids, asks).1);
    }
  }
}
