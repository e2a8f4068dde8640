/** Order ids are only names: matching never looks at anything about them but equality, so renaming a
    book's ids renames what every command does, and nothing else. */
module Renaming {
  import opened Types
  import opened BookSpec
  import opened BookInvariant
  import opened Ladders
  import opened LevelNotes
  import opened MissedFills

  type Names = nat -> nat

  function RenQ(q: seq<Order>, f: Names): (r: seq<Order>)
    ensures |r| == |q|
  {
    seq(|q|, k requires 0 <= k < |q| => q[k].(id := f(q[k].id)))
  }

  function RenBook(b: Book, f: Names): Book {
    Book(RenQ(b.bids, f), RenQ(b.asks, f))
  }

  /** A maker id of 0 stands for none. */
  function RenEvent(e: Event, f: Names): Event {
    e.(orderId := f(e.orderId), makerId := if e.makerId == 0 then 0 else f(e.makerId))
  }

  function RenEvents(es: seq<Event>, f: Names): (r: seq<Event>)
    ensures |r| == |es|
  {
    seq(|es|, k requires 0 <= k < |es| => RenEvent(es[k], f))
  }

  ghost predicate NonZero(q: seq<Order>) {
    forall k :: 0 <= k < |q| ==> q[k].id != 0
  }

  lemma RenConcat(a: seq<Event>, b: seq<Event>, f: Names)
    ensures RenEvents(a + b, f) == RenEvents(a, f) + RenEvents(b, f)
  {
  }

  lemma RenTail(q: seq<Order>, f: Names)
    requires q != []
    ensures RenQ(q, f)[0] == q[0].(id := f(q[0].id)) && RenQ(q, f)[1..] == RenQ(q[1..], f)
  {
  }

  function RenTaker(t: Taker, f: Names): Taker {
    t.(id := f(t.id))
  }

  function RenResult(r: SweepResult, f: Names): SweepResult {
    r.(queue := RenQ(r.queue, f), events := RenEvents(r.events, f))
  }

  lemma {:induction false} RenSweep(q: seq<Order>, t: Taker, qty: nat, f: Names)
    requires NonZero(q)
    ensures Sweep(RenQ(q, f), RenTaker(t, f), qty) == RenResult(Sweep(q, t, qty), f)
    decreases |q|
  {
    if qty != 0 && q != [] && Reaches(t.side, t.limit, q[0].price) {
      RenTail(q, f);
      var o := q[0];
      if t.stp != NoStp && o.owner == t.owner {
        RenSweepSelf(q, t, qty, f);
      } else if o.qty <= qty {
        RenSweep(q[1..], t, qty - o.qty, f);
        var r := Sweep(q[1..], t, qty - o.qty);
        RenConcat([TradeEvent(t.symbol, t.id, o.id, t.side, o.price, o.qty, 0)], r.events, f);
      } else {
        assert RenQ([o.(qty := o.qty - qty)] + q[1..], f) == [o.(qty := o.qty - qty, id := f(o.id))] + RenQ(q[1..], f);
      }
    }
  }

  lemma {:induction false} RenSweepSelf(q: seq<Order>, t: Taker, qty: nat, f: Names)
    requires NonZero(q) && q != [] && qty > 0 && RenQ(q, f)[1..] == RenQ(q[1..], f)
    ensures SweepSelf(RenQ(q, f), RenTaker(t, f), qty) == RenResult(SweepSelf(q, t, qty), f)
    decreases |q|, 0
  {
    var o, maker := q[0], Opposite(t.side);
    var gone := CanceledEvent(t.symbol, o.id, maker, o.price, o.qty, SelfTrade);
    if t.stp == CancelIncoming {
    } else if t.stp == DecrementCancel && o.qty > qty {
      assert RenQ([o.(qty := o.qty - qty)] + q[1..], f) == [o.(qty := o.qty - qty, id := f(o.id))] + RenQ(q[1..], f);
    } else if t.stp == DecrementCancel && o.qty < qty {
      RenSweep(q[1..], t, qty - o.qty, f);
      RenConcat([gone, StpDecrementEvent(t.symbol, t.id, t.side, t.limit, qty - o.qty)],
                Sweep(q[1..], t, qty - o.qty).events, f);
    } else if t.stp != DecrementCancel {
      RenSweep(q[1..], t, qty, f);
      RenConcat([gone], Sweep(q[1..], t, qty).events, f);
    }
  }

  lemma {:induction false} RenFillable(q: seq<Order>, t: Taker, need: nat, f: Names)
    ensures Fillable(RenQ(q, f), RenTaker(t, f), need) == Fillable(q, t, need)
    decreases |q|
  {
    if q != [] {
      RenTail(q, f);
      RenFillable(q[1..], t, need, f);
      if q[0].qty < need {
        RenFillable(q[1..], t, need - q[0].qty, f);
      }
    }
  }

  lemma {:induction false} RenInsert(q: seq<Order>, side: Side, o: Order, f: Names)
    ensures RenQ(Insert(q, side, o), f) == Insert(RenQ(q, f), side, o.(id := f(o.id)))
    decreases |q|
  {
    if q != [] {
      RenTail(q, f);
      RenInsert(q[1..], side, o, f);
    }
  }

  /** The name of `id` is no other resting order's. */
  ghost predicate Tells(q: seq<Order>, id: nat, f: Names) {
    forall k :: 0 <= k < |q| && f(q[k].id) == f(id) ==> q[k].id == id
  }

  lemma {:induction false} RenFind(q: seq<Order>, id: nat, f: Names)
    requires Tells(q, id, f)
    ensures Find(RenQ(q, f), f(id)) == Find(q, id) && (HasId(RenQ(q, f), f(id)) <==> HasId(q, id))
    decreases |q|
  {
    FindHit(q, id);
    FindHit(RenQ(q, f), f(id));
    if q != [] {
      RenTail(q, f);
      RenFind(q[1..], id, f);
    }
  }

  lemma RenSides(b: Book, side: Side, f: Names)
    ensures Resting(RenBook(b, f), side) == RenQ(Resting(b, side), f)
  {
  }

  lemma RenWith(b: Book, side: Side, q: seq<Order>, f: Names)
    ensures RenBook(WithResting(b, side, q), f) == WithResting(RenBook(b, f), side, RenQ(q, f))
  {
    hide RenQ;
  }

  ghost predicate BookNonZero(b: Book) {
    NonZero(b.bids) && NonZero(b.asks)
  }

  ghost predicate BookTells(b: Book, id: nat, f: Names) {
    Tells(b.bids, id, f) && Tells(b.asks, id, f)
  }

  function RenOutcome(z: Outcome, f: Names): Outcome {
    Outcome(RenBook(z.book, f), RenEvents(z.events, f))
  }

  lemma RenExecute(cfg: Config, b: Book, t: Taker, px: int, qty: nat, mayRest: bool, f: Names)
    requires BookNonZero(b)
    ensures Execute(cfg, RenBook(b, f), RenTaker(t, f), px, qty, mayRest)
        == RenOutcome(Execute(cfg, b, t, px, qty, mayRest), f)
  {
    hide Sweep, Insert, RenQ, RenEvents;
    var opp := Opposite(t.side);
    var q := Resting(b, opp);
    RenSides(b, opp, f);
    RenSweep(q, t, qty, f);
    var r := Sweep(q, t, qty);
    var b1 := WithResting(b, opp, r.queue);
    RenWith(b, opp, r.queue, f);
    hide RenBook;
    if r.left > 0 {
      if r.stop {
        RenLast(r.events, CanceledEvent(cfg.symbol, t.id, t.side, px, r.left, SelfTrade), f);
      } else if !mayRest {
        RenLast(r.events, CanceledEvent(cfg.symbol, t.id, t.side, px, r.left, IocExpired), f);
      } else {
        var o := Order(t.id, r.left, t.owner, t.limit);
        RenRest(cfg, b1, t.side, o, f);
        RenConcat(r.events, Rest(cfg, b1, t.side, o).events, f);
      }
    }
  }

  lemma RenLast(es: seq<Event>, e: Event, f: Names)
    ensures RenEvents(es + [e], f) == RenEvents(es, f) + [RenEvent(e, f)]
  {
  }

  lemma RenRest(cfg: Config, b: Book, side: Side, o: Order, f: Names)
    ensures Rest(cfg, RenBook(b, f), side, o.(id := f(o.id))) == RenOutcome(Rest(cfg, b, side, o), f)
  {
    hide RenQ, Insert;
    RenSides(b, side, f);
    RenInsert(Resting(b, side), side, o, f);
    RenWith(b, side, Insert(Resting(b, side), side, o), f);
    var none: seq<Event> := [];
    assert RenEvents(none, f) == none;
  }

  lemma RenRemove(q: seq<Order>, k: nat, f: Names)
    requires k < |q|
    ensures RenQ(RemoveAt(q, k), f) == RemoveAt(RenQ(q, f), k)
  {
  }

  function RenCommand(c: Command, f: Names): Command {
    c.(orderId := f(c.orderId))
  }

  /** Every command commutes with a renaming that keeps its own id apart from the resting ones. */
  lemma RenApply(cfg: Config, b: Book, c: Command, f: Names)
    requires BookNonZero(b) && BookTells(b, c.orderId, f)
    requires c.kind == NewOrder ==> (f(c.orderId) == 0 <==> c.orderId == 0)
    ensures Apply(cfg, RenBook(b, f), RenCommand(c, f)) == RenOutcome(Apply(cfg, b, c), f)
  {
    hide Add, CancelOrder, ModifyOrder, RenBook, RenEvents;
    match c.kind
    case NewOrder => RenAdd(cfg, b, c, f);
    case Cancel => RenCancel(cfg, b, c, f);
    case Modify => RenModify(cfg, b, c, f);
  }

  lemma RenContains(b: Book, id: nat, f: Names)
    requires BookTells(b, id, f)
    ensures Contains(RenBook(b, f), f(id)) == Contains(b, id) && SideOf(RenBook(b, f), f(id)) == SideOf(b, id)
  {
    RenFind(b.bids, id, f);
    RenFind(b.asks, id, f);
  }

  lemma RenAdd(cfg: Config, b: Book, c: Command, f: Names)
    requires BookNonZero(b) && BookTells(b, c.orderId, f) && c.kind == NewOrder
    requires f(c.orderId) == 0 <==> c.orderId == 0
    ensures Add(cfg, RenBook(b, f), RenCommand(c, f)) == RenOutcome(Add(cfg, b, c), f)
  {
    hide Execute, Fillable, Contains, RenBook, EffectiveStp;
    RenContains(b, c.orderId, f);
    RenCrosses(b, c.side, LimitOf(cfg, c), f);
    var bad := AddReject(cfg, b, c);
    assert AddReject(cfg, RenBook(b, f), RenCommand(c, f)) == bad;
    if bad == NoReason {
      var t, px := AddTaker(cfg, c), if c.ordType == Market then 0 else c.price;
      assert AddTaker(cfg, RenCommand(c, f)) == RenTaker(t, f);
      RenSides(b, Opposite(c.side), f);
      RenFillable(Resting(b, Opposite(c.side)), t, c.qty, f);
      RenExecute(cfg, b, t, px, c.qty, c.ordType == Limit && c.tif == Day, f);
      var z := Execute(cfg, b, t, px, c.qty, c.ordType == Limit && c.tif == Day);
      RenConcat([AcceptedEvent(cfg.symbol, c.orderId, c.side, px, c.qty)], z.events, f);
    }
  }

  lemma RenCrosses(b: Book, side: Side, limit: int, f: Names)
    ensures Crosses(RenBook(b, f), side, limit) == Crosses(b, side, limit)
  {
  }

  lemma RenCancel(cfg: Config, b: Book, c: Command, f: Names)
    requires BookNonZero(b) && BookTells(b, c.orderId, f)
    ensures CancelOrder(cfg, RenBook(b, f), RenCommand(c, f)) == RenOutcome(CancelOrder(cfg, b, c), f)
  {
    hide Contains, RenBook, Find, RemoveAt, RenQ;
    RenContains(b, c.orderId, f);
    if Contains(b, c.orderId) {
      var side := SideOf(b, c.orderId);
      RenOrder(b, side, c.orderId, f);
    }
  }

  /** The order with an id: renamed, it is at the same place. */
  lemma RenOrder(b: Book, side: Side, id: nat, f: Names)
    requires BookTells(b, id, f) && Contains(b, id) && side == SideOf(b, id)
    ensures var q := Resting(b, side);
      var k, q' := Find(q, id), Resting(RenBook(b, f), side);
      && k < |q| == |q'| && Find(q', f(id)) == k && q'[k] == q[k].(id := f(q[k].id)) && q[k].id == id
      && WithResting(RenBook(b, f), side, RemoveAt(q', k)) == RenBook(WithResting(b, side, RemoveAt(q, k)), f)
      && forall qty: nat :: WithResting(RenBook(b, f), side, q'[k := q'[k].(qty := qty)])
           == RenBook(WithResting(b, side, q[k := q[k].(qty := qty)]), f)
  {
    var q := Resting(b, side);
    FindHit(q, id);
    RenFind(q, id, f);
    RenSides(b, side, f);
    RenRemove(q, Find(q, id), f);
    RenWith(b, side, RemoveAt(q, Find(q, id)), f);
    hide RenQ, RenBook, Find, HasId, RemoveAt;
    forall qty: nat
      ensures WithResting(RenBook(b, f), side, RenQ(q, f)[Find(q, id) := RenQ(q, f)[Find(q, id)].(qty := qty)])
           == RenBook(WithResting(b, side, q[Find(q, id) := q[Find(q, id)].(qty := qty)]), f)
    {
      RenWith(b, side, q[Find(q, id) := q[Find(q, id)].(qty := qty)], f);
      RenShrink(q, Find(q, id), qty, f);
    }
  }

  lemma RenShrink(q: seq<Order>, k: nat, qty: nat, f: Names)
    requires k < |q|
    ensures RenQ(q[k := q[k].(qty := qty)], f) == RenQ(q, f)[k := RenQ(q, f)[k].(qty := qty)]
  {
  }

  lemma RenModify(cfg: Config, b: Book, c: Command, f: Names)
    requires BookNonZero(b) && BookTells(b, c.orderId, f)
    ensures ModifyOrder(cfg, RenBook(b, f), RenCommand(c, f)) == RenOutcome(ModifyOrder(cfg, b, c), f)
  {
    hide Contains, RenBook, Find, RemoveAt, RenQ, Execute;
    RenContains(b, c.orderId, f);
    if ModifyReject(cfg, b, c) == NoReason {
      var side := SideOf(b, c.orderId);
      RenOrder(b, side, c.orderId, f);
      var q := Resting(b, side);
      var k := Find(q, c.orderId);
      var modified := ModifiedEvent(cfg.symbol, c.orderId, side, c.price, c.qty);
      if !(c.price == q[k].price && c.qty <= q[k].qty) {
        var b0 := WithResting(b, side, RemoveAt(q, k));
        var t := Taker(cfg.symbol, c.orderId, q[k].owner, side, c.price, cfg.stp);
        RemovedNonZero(b, side, k);
        RenExecute(cfg, b0, t, c.price, c.qty, true, f);
        RenConcat([modified], Execute(cfg, b0, t, c.price, c.qty, true).events, f);
      }
    }
  }

  lemma RemovedNonZero(b: Book, side: Side, k: nat)
    requires BookNonZero(b) && k < |Resting(b, side)|
    ensures BookNonZero(WithResting(b, side, RemoveAt(Resting(b, side), k)))
  {
  }

  // ---- the same for the engine that reads level totals ----

  lemma {:induction false} RenTotal(q: seq<Order>, px: int, f: Names)
    ensures LevelTotal(RenQ(q, f), px) == LevelTotal(q, px)
  {
    if q != [] {
      RenTail(q, f);
      RenTotal(q[1..], px, f);
    }
  }

  lemma {:induction false} RenWords(cfg: Config, side: Side, q: seq<Order>, n: nat, f: Names)
    ensures WordsWithin(cfg, side, RenQ(q, f), n) == WordsWithin(cfg, side, q, n)
    decreases n
  {
    hide RenQ, LevelTotal;
    if n > 0 {
      RenWords(cfg, side, q, n - 1, f);
      RenTotal(q, RankPrice(cfg, side, n - 1), f);
    }
  }

  lemma {:induction false} RenReached(q: seq<Order>, t: Taker, f: Names)
    ensures Reached(RenQ(q, f), RenTaker(t, f)) == Reached(q, t)
    decreases |q|
  {
    if q != [] {
      RenTail(q, f);
      RenReached(q[1..], t, f);
    }
  }

  /** A fill is missed or not whatever the orders are called. */
  lemma RenMissed(cfg: Config, b: Book, c: Command, f: Names)
    requires BookTells(b, c.orderId, f)
    requires c.kind == NewOrder ==> (f(c.orderId) == 0 <==> c.orderId == 0)
    ensures Missed(cfg, RenBook(b, f), RenCommand(c, f)) == Missed(cfg, b, c)
  {
    hide Contains, RenBook, EffectiveStp, WordsWithin, Reached, BookTells;
    if c.kind == NewOrder {
      var q, t := Resting(b, Opposite(c.side)), AddTaker(cfg, c);
      RenContains(b, c.orderId, f);
      RenCrosses(b, c.side, LimitOf(cfg, c), f);
      RenSides(b, Opposite(c.side), f);
      assert AddTaker(cfg, RenCommand(c, f)) == RenTaker(t, f);
      RenReached(q, t, f);
      if LevelsWithin(cfg, t) >= 0 {
        RenWords(cfg, Opposite(c.side), q, LevelsWithin(cfg, t), f);
      }
    }
  }

  /** Every command of either engine commutes with a renaming that keeps its own id apart. */
  lemma RenFastApply(cfg: Config, b: Book, c: Command, f: Names)
    requires BookNonZero(b) && BookTells(b, c.orderId, f)
    requires c.kind == NewOrder ==> (f(c.orderId) == 0 <==> c.orderId == 0)
    ensures FastApply(cfg, RenBook(b, f), RenCommand(c, f)) == RenOutcome(FastApply(cfg, b, c), f)
  {
    hide Apply, RenBook, Missed, BookTells;
    RenApply(cfg, b, c, f);
    RenMissed(cfg, b, c, f);
  }

  // ---- which ids a command's events name ----

  ghost predicate Named(es: seq<Event>, id: nat) {
    exists k :: 0 <= k < |es| && (es[k].orderId == id || es[k].makerId == id)
  }

  lemma NamedConcat(a: seq<Event>, b: seq<Event>, id: nat)
    ensures Named(a + b, id) <==> Named(a, id) || Named(b, id)
  {
    if Named(b, id) {
      var k :| 0 <= k < |b| && (b[k].orderId == id || b[k].makerId == id);
      assert (a + b)[|a| + k] == b[k];
    }
    if Named(a, id) {
      var k :| 0 <= k < |a| && (a[k].orderId == id || a[k].makerId == id);
      assert (a + b)[k] == a[k];
    }
    if Named(a + b, id) {
      var k :| 0 <= k < |a + b| && ((a + b)[k].orderId == id || (a + b)[k].makerId == id);
      assert if k < |a| then a[k] == (a + b)[k] else b[k - |a|] == (a + b)[k];
    }
  }

  lemma NamedOne(e: Event, id: nat)
    ensures Named([e], id) <==> e.orderId == id || e.makerId == id
  {
    assert [e][0] == e;
  }

  /** A sweep names every maker it takes out, and no one but the makers and the taker. */
  lemma {:induction false} SweepNames(q: seq<Order>, t: Taker, qty: nat, id: nat)
    ensures HasId(q, id) && !HasId(Sweep(q, t, qty).queue, id) ==> Named(Sweep(q, t, qty).events, id)
    ensures Named(Sweep(q, t, qty).events, id) ==> id == 0 || id == t.id || HasId(q, id)
    decreases |q|
  {
    if qty != 0 && q != [] && Reaches(t.side, t.limit, q[0].price) {
      var o, r := q[0], Sweep(q, t, qty);
      HasIdHead(q, id);
      if t.stp != NoStp && o.owner == t.owner {
        SweepSelfNames(q, t, qty, id);
      } else if o.qty <= qty {
        SweepNames(q[1..], t, qty - o.qty, id);
        NamedConcat([TradeEvent(t.symbol, t.id, o.id, t.side, o.price, o.qty, 0)], Sweep(q[1..], t, qty - o.qty).events,
                    id);
        NamedOne(TradeEvent(t.symbol, t.id, o.id, t.side, o.price, o.qty, 0), id);
      } else {
        HasIdHead([o.(qty := o.qty - qty)] + q[1..], id);
        NamedOne(r.events[0], id);
      }
    }
  }

  lemma {:induction false} SweepSelfNames(q: seq<Order>, t: Taker, qty: nat, id: nat)
    requires q != [] && qty > 0 && (HasId(q, id) <==> q[0].id == id || HasId(q[1..], id))
    ensures HasId(q, id) && !HasId(SweepSelf(q, t, qty).queue, id) ==> Named(SweepSelf(q, t, qty).events, id)
    ensures Named(SweepSelf(q, t, qty).events, id) ==> id == 0 || id == t.id || HasId(q, id)
    decreases |q|, 0
  {
    var o, maker := q[0], Opposite(t.side);
    var gone := CanceledEvent(t.symbol, o.id, maker, o.price, o.qty, SelfTrade);
    NamedOne(gone, id);
    if t.stp == CancelIncoming {
    } else if t.stp == DecrementCancel && o.qty > qty {
      HasIdHead([o.(qty := o.qty - qty)] + q[1..], id);
      NamedOne(StpDecrementEvent(t.symbol, o.id, maker, o.price, o.qty - qty), id);
    } else if t.stp == DecrementCancel && o.qty < qty {
      var cut := StpDecrementEvent(t.symbol, t.id, t.side, t.limit, qty - o.qty);
      SweepNames(q[1..], t, qty - o.qty, id);
      NamedConcat([gone, cut], Sweep(q[1..], t, qty - o.qty).events, id);
      NamedConcat([gone], [cut], id);
      NamedOne(cut, id);
      assert [gone] + [cut] == [gone, cut];
    } else if t.stp != DecrementCancel {
      SweepNames(q[1..], t, qty, id);
      NamedConcat([gone], Sweep(q[1..], t, qty).events, id);
    }
  }

  lemma ExecuteNames(cfg: Config, b: Book, t: Taker, px: int, qty: nat, mayRest: bool, id: nat)
    ensures var z := Execute(cfg, b, t, px, qty, mayRest);
      && (Contains(b, id) && !Contains(z.book, id) ==> Named(z.events, id))
      && (Named(z.events, id) ==> id == 0 || id == t.id || Contains(b, id))
  {
    hide Sweep, Insert;
    var opp := Opposite(t.side);
    var r, z := Sweep(Resting(b, opp), t, qty), Execute(cfg, b, t, px, qty, mayRest);
    SweepNames(Resting(b, opp), t, qty, id);
    var last := z.events[|r.events|..];
    assert z.events == r.events + last;
    NamedConcat(r.events, last, id);
    if last != [] {
      NamedOne(last[0], id);
    }
    if r.left > 0 && !r.stop && mayRest {
      InsertKeeps(Resting(b, t.side), t.side, Order(t.id, r.left, t.owner, t.limit), id);
    }
  }

  lemma {:induction false} InsertKeeps(q: seq<Order>, side: Side, o: Order, id: nat)
    ensures HasId(Insert(q, side, o), id) <==> HasId(q, id) || o.id == id
    decreases |q|
  {
    HasIdHead(Insert(q, side, o), id);
    if q != [] {
      HasIdHead(q, id);
      if !Better(side, o.price, q[0].price) {
        InsertKeeps(q[1..], side, o, id);
        assert Insert(q, side, o)[1..] == Insert(q[1..], side, o);
      } else {
        assert Insert(q, side, o)[1..] == q;
      }
    }
  }

  /** An order that leaves the book is named in an event, and events name no one else's orders. */
  lemma ApplyNames(cfg: Config, b: Book, c: Command, id: nat)
    requires BookOk(cfg, b)
    ensures var z := Apply(cfg, b, c);
      && (Contains(b, id) && !Contains(z.book, id) ==> id == c.orderId || Named(z.events, id))
      && (Named(z.events, id) ==> id == 0 || id == c.orderId || Contains(b, id))
  {
    hide Execute, Fillable, EffectiveStp, BookOk, Find, RemoveAt;
    match c.kind
    case NewOrder =>
      var px := if c.ordType == Market then 0 else c.price;
      var t, rest := AddTaker(cfg, c), c.ordType == Limit && c.tif == Day;
      var accepted := AcceptedEvent(cfg.symbol, c.orderId, c.side, px, c.qty);
      ExecuteNames(cfg, b, t, px, c.qty, rest, id);
      NamedConcat([accepted], Execute(cfg, b, t, px, c.qty, rest).events, id);
      NamedOne(accepted, id);
    case Cancel =>
      if Contains(b, c.orderId) {
        var side := SideOf(b, c.orderId);
        FindHit(Resting(b, side), c.orderId);
        RemovedOk(cfg, b, side, Find(Resting(b, side), c.orderId));
      }
    case Modify =>
      if ModifyReject(cfg, b, c) == NoReason {
        ModifyNames(cfg, b, c, id);
      }
  }

  lemma ModifyNames(cfg: Config, b: Book, c: Command, id: nat)
    requires BookOk(cfg, b) && ModifyReject(cfg, b, c) == NoReason
    ensures var z := ModifyOrder(cfg, b, c);
      && (Contains(b, id) && !Contains(z.book, id) ==> id == c.orderId || Named(z.events, id))
      && (Named(z.events, id) ==> id == 0 || id == c.orderId || Contains(b, id))
  {
    hide Execute, BookOk, Find, RemoveAt, Contains;
    var side := SideOf(b, c.orderId);
    var q := Resting(b, side);
    FindHit(q, c.orderId);
    SideHas(b, c.orderId);
    var k := Find(q, c.orderId);
    var modified := ModifiedEvent(cfg.symbol, c.orderId, side, c.price, c.qty);
    NamedOne(modified, id);
    if c.price == q[k].price && c.qty <= q[k].qty {
      ShrunkHas(b, side, k, c.qty, id);
    } else {
      RemovedOk(cfg, b, side, k);
      var b0 := WithResting(b, side, RemoveAt(q, k));
      var t := Taker(cfg.symbol, c.orderId, q[k].owner, side, c.price, cfg.stp);
      ExecuteNames(cfg, b0, t, c.price, c.qty, true, id);
      NamedConcat([modified], Execute(cfg, b0, t, c.price, c.qty, true).events, id);
    }
  }

  lemma SideHas(b: Book, id: nat)
    requires Contains(b, id)
    ensures HasId(Resting(b, SideOf(b, id)), id)
  {
  }

  lemma ShrunkHas(b: Book, side: Side, k: nat, qty: nat, id: nat)
    requires k < |Resting(b, side)|
    ensures var q := Resting(b, side);
      Contains(WithResting(b, side, q[k := q[k].(qty := qty)]), id) <==> Contains(b, id)
  {
    var q := Resting(b, side);
    var q' := q[k := q[k].(qty := qty)];
    assert forall j :: 0 <= j < |q| ==> q'[j].id == q[j].id;
    if HasId(q, id) {
      var j :| 0 <= j < |q| && q[j].id == id;
      assert q'[j].id == id;
    }
  }

  lemma FastNames(cfg: Config, b: Book, c: Command, id: nat)
    requires BookOk(cfg, b)
    ensures var z := FastApply(cfg, b, c);
      && (Contains(b, id) && !Contains(z.book, id) ==> id == c.orderId || Named(z.events, id))
      && (Contains(z.book, id) ==> id == c.orderId || Contains(b, id))
      && (Named(z.events, id) ==> id == 0 || id == c.orderId || Contains(b, id))
  {
    hide Apply, BookOk, Missed, Contains;
    ApplyOk(cfg, b, c);
    ApplyNames(cfg, b, c, id);
  }
}
