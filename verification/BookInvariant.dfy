/** Every reachable book is sorted, uncrossed, within its band and capacity, with unique live ids. */
module BookInvariant {
  import opened Types
  import opened BookSpec

  /** r is q with its first |q| - |r| orders gone and the next one possibly smaller. */
  ghost predicate Consumed(q: seq<Order>, r: seq<Order>) {
    && |r| <= |q|
    && (r != [] ==> r[0] == q[|q| - |r|].(qty := r[0].qty) && 0 < r[0].qty <= q[|q| - |r|].qty)
    && forall i :: 0 < i < |r| ==> r[i] == q[i + |q| - |r|]
  }

  ghost predicate Positive(q: seq<Order>) {
    forall k :: 0 <= k < |q| ==> q[k].qty > 0
  }

  lemma ConsumedStep(q: seq<Order>, r: seq<Order>)
    requires q != [] && Consumed(q[1..], r)
    ensures Consumed(q, r)
  {
    forall i | 0 < i < |r| ensures r[i] == q[i + |q| - |r|] {
      assert r[i] == q[1..][i + |q[1..]| - |r|];
    }
  }

  lemma ConsumedShrink(q: seq<Order>, less: nat)
    requires q != [] && less < q[0].qty
    ensures Consumed(q, [q[0].(qty := q[0].qty - less)] + q[1..])
  {
  }

  lemma HeadConsumed(q: seq<Order>)
    requires q != [] && Positive(q)
    ensures Consumed(q, q[1..])
  {
  }

  lemma ConsumedNone(q: seq<Order>)
    requires Positive(q)
    ensures Consumed(q, q)
    ensures q != [] ==> Positive(q[1..])
  {
  }

  /** A sweep only removes orders from the head, shrinking at most one. */
  lemma {:induction false} SweepShape(q: seq<Order>, t: Taker, qty: nat)
    requires Positive(q)
    ensures Consumed(q, Sweep(q, t, qty).queue)
    ensures Sweep(q, t, qty).left <= qty
    decreases |q|, 1
  {
    ConsumedNone(q);
    if qty != 0 && q != [] && Reaches(t.side, t.limit, q[0].price) {
      if t.stp != NoStp && q[0].owner == t.owner {
        SweepSelfShape(q, t, qty);
      } else if q[0].qty > qty {
        ConsumedShrink(q, qty);
      } else {
        SweepShape(q[1..], t, qty - q[0].qty);
        ConsumedStep(q, Sweep(q[1..], t, qty - q[0].qty).queue);
      }
    }
  }

  lemma {:induction false} SweepSelfShape(q: seq<Order>, t: Taker, qty: nat)
    requires Positive(q) && q != [] && qty > 0
    ensures Consumed(q, SweepSelf(q, t, qty).queue)
    ensures SweepSelf(q, t, qty).left <= qty
    decreases |q|, 0
  {
    ConsumedNone(q);
    ConsumedNone(q[1..]);
    ConsumedStep(q, q[1..]);
    if t.stp == DecrementCancel && q[0].qty > qty {
      ConsumedShrink(q, qty);
    } else if t.stp == DecrementCancel && q[0].qty < qty {
      SweepShape(q[1..], t, qty - q[0].qty);
      ConsumedStep(q, Sweep(q[1..], t, qty - q[0].qty).queue);
    } else if t.stp != CancelIncoming && t.stp != DecrementCancel {
      SweepShape(q[1..], t, qty);
      ConsumedStep(q, Sweep(q[1..], t, qty).queue);
    }
  }

  /** A sweep stops for self-trade prevention only with quantity left, and an unstopped remainder can
      reach nothing more. */
  lemma {:induction false} SweepEnd(q: seq<Order>, t: Taker, qty: nat)
    ensures var r := Sweep(q, t, qty);
      && (r.stop ==> r.left > 0)
      && (r.left > 0 && !r.stop ==> r.queue == [] || !Reaches(t.side, t.limit, r.queue[0].price))
    decreases |q|
  {
    if qty != 0 && q != [] && Reaches(t.side, t.limit, q[0].price) {
      SweepEnd(q[1..], t, qty);
      if q[0].qty <= qty {
        SweepEnd(q[1..], t, qty - q[0].qty);
      }
    }
  }

  lemma ConsumedSideOk(cfg: Config, side: Side, q: seq<Order>, r: seq<Order>)
    requires SideOk(cfg, side, q) && Consumed(q, r)
    ensures SideOk(cfg, side, r)
    ensures forall id :: HasId(r, id) ==> HasId(q, id)
    ensures TotalQty(r) <= TotalQty(q)
  {
    var d := |q| - |r|;
    forall i, j | 0 <= i < j < |r| ensures !Better(side, r[j].price, r[i].price) && r[i].id != r[j].id {
      assert r[i].price == q[i + d].price && r[j].price == q[j + d].price;
      assert r[i].id == q[i + d].id && r[j].id == q[j + d].id;
    }
    forall k | 0 <= k < |r| ensures r[k].id != 0 && r[k].qty > 0 && InBand(cfg, r[k].price) {
      assert r[k].id == q[k + d].id && r[k].price == q[k + d].price;
      assert k > 0 ==> r[k] == q[k + d];
    }
    forall id | HasId(r, id) ensures HasId(q, id) {
      var k :| 0 <= k < |r| && r[k].id == id;
      assert q[k + d].id == id;
    }
    ConsumedTotal(q, r);
  }

  lemma {:induction false} ConsumedTotal(q: seq<Order>, r: seq<Order>)
    requires Consumed(q, r)
    ensures TotalQty(r) <= TotalQty(q)
    decreases |q|
  {
    if |q| > |r| {
      ConsumedTotal(q[1..], r);
    } else if r != [] {
      assert r[1..] == q[1..];
    }
  }

  /** Where an order enters a queue. */
  function Place(q: seq<Order>, side: Side, price: int): (p: nat)
    ensures p <= |q|
    ensures forall i :: 0 <= i < p ==> !Better(side, price, q[i].price)
    ensures p < |q| ==> Better(side, price, q[p].price)
  {
    if q == [] || Better(side, price, q[0].price) then 0 else 1 + Place(q[1..], side, price)
  }

  lemma {:induction false} InsertShape(q: seq<Order>, side: Side, o: Order)
    ensures Insert(q, side, o) == q[..Place(q, side, o.price)] + [o] + q[Place(q, side, o.price)..]
    decreases |q|
  {
    if q != [] && !Better(side, o.price, q[0].price) {
      InsertShape(q[1..], side, o);
      var p := Place(q[1..], side, o.price);
      assert q[..p + 1] == [q[0]] + q[1..][..p];
    }
  }

  /** q with o placed at p, behind everything at least as good and ahead of everything worse. */
  ghost predicate Placed(side: Side, q: seq<Order>, o: Order, p: nat, r: seq<Order>) {
    && p <= |q|
    && r == q[..p] + [o] + q[p..]
    && (forall i :: 0 <= i < p ==> !Better(side, o.price, q[i].price))
    && (forall i :: p <= i < |q| ==> Better(side, o.price, q[i].price))
  }

  lemma InsertPlaced(side: Side, q: seq<Order>, o: Order)
    requires Sorted(side, q)
    ensures Placed(side, q, o, Place(q, side, o.price), Insert(q, side, o))
  {
    InsertShape(q, side, o);
    var p := Place(q, side, o.price);
    forall i | p <= i < |q| ensures Better(side, o.price, q[i].price) {
      assert i > p ==> !Better(side, q[i].price, q[p].price);
    }
  }

  lemma PlacedSorted(side: Side, q: seq<Order>, o: Order, p: nat, r: seq<Order>)
    requires Sorted(side, q) && Placed(side, q, o, p, r)
    ensures Sorted(side, r)
  {
    forall i, j | 0 <= i < j < |r| ensures !Better(side, r[j].price, r[i].price) {
      assert r[i] == if i < p then q[i] else if i == p then o else q[i - 1];
      assert r[j] == if j < p then q[j] else if j == p then o else q[j - 1];
    }
  }

  lemma PlacedIds(side: Side, q: seq<Order>, o: Order, p: nat, r: seq<Order>)
    requires Placed(side, q, o, p, r)
    ensures forall id :: HasId(r, id) <==> id == o.id || HasId(q, id)
  {
    forall id | HasId(q, id) ensures HasId(r, id) {
      var k :| 0 <= k < |q| && q[k].id == id;
      assert r[if k < p then k else k + 1].id == id;
    }
    assert r[p].id == o.id;
    forall id | HasId(r, id) ensures id == o.id || HasId(q, id) {
      var k :| 0 <= k < |r| && r[k].id == id;
      assert r[k] == if k < p then q[k] else if k == p then o else q[k - 1];
    }
  }

  lemma PlacedUnique(side: Side, q: seq<Order>, o: Order, p: nat, r: seq<Order>)
    requires UniqueIds(q) && Placed(side, q, o, p, r) && !HasId(q, o.id)
    ensures UniqueIds(r)
  {
    forall i, j | 0 <= i < j < |r| ensures r[i].id != r[j].id {
      assert r[i] == if i < p then q[i] else if i == p then o else q[i - 1];
      assert r[j] == if j < p then q[j] else if j == p then o else q[j - 1];
    }
  }

  lemma InsertSideOk(cfg: Config, side: Side, q: seq<Order>, o: Order)
    requires SideOk(cfg, side, q)
    requires !HasId(q, o.id) && o.id != 0 && o.qty > 0 && InBand(cfg, o.price)
    ensures SideOk(cfg, side, Insert(q, side, o))
    ensures forall id :: HasId(Insert(q, side, o), id) <==> id == o.id || HasId(q, id)
    ensures |Insert(q, side, o)| == |q| + 1
  {
    var p, r := Place(q, side, o.price), Insert(q, side, o);
    InsertPlaced(side, q, o);
    PlacedSorted(side, q, o, p, r);
    PlacedIds(side, q, o, p, r);
    PlacedUnique(side, q, o, p, r);
    forall k | 0 <= k < |r| ensures r[k].id != 0 && r[k].qty > 0 && InBand(cfg, r[k].price) {
      assert r[k] == if k < p then q[k] else if k == p then o else q[k - 1];
    }
  }

  lemma RemoveSideOk(cfg: Config, side: Side, q: seq<Order>, k: nat)
    requires SideOk(cfg, side, q) && k < |q|
    ensures SideOk(cfg, side, RemoveAt(q, k))
    ensures forall id :: HasId(RemoveAt(q, k), id) <==> id != q[k].id && HasId(q, id)
    ensures TotalQty(RemoveAt(q, k)) + q[k].qty == TotalQty(q)
  {
    hide Better, TotalQty, HasId;
    var r := RemoveAt(q, k);
    assert forall j :: 0 <= j < |r| ==> r[j] == if j < k then q[j] else q[j + 1];
    RemoveIds(q, k);
    RemoveTotal(q, k);
  }

  lemma RemoveIds(q: seq<Order>, k: nat)
    requires k < |q| && UniqueIds(q)
    ensures forall id :: HasId(RemoveAt(q, k), id) <==> id != q[k].id && HasId(q, id)
  {
    var r := RemoveAt(q, k);
    forall id | HasId(q, id) && id != q[k].id ensures HasId(r, id) {
      var j :| 0 <= j < |q| && q[j].id == id;
      assert r[if j < k then j else j - 1].id == id;
    }
  }

  lemma {:induction false} RemoveTotal(q: seq<Order>, k: nat)
    requires k < |q|
    ensures TotalQty(RemoveAt(q, k)) + q[k].qty == TotalQty(q)
  {
    if k == 0 {
      assert RemoveAt(q, k) == q[1..];
    } else {
      RemoveTotal(q[1..], k - 1);
      assert RemoveAt(q, k) == [q[0]] + RemoveAt(q[1..], k - 1);
    }
  }

  lemma {:induction false} InsertTotal(q: seq<Order>, side: Side, o: Order)
    ensures TotalQty(Insert(q, side, o)) == TotalQty(q) + o.qty
    decreases |q|
  {
    if q != [] && !Better(side, o.price, q[0].price) {
      InsertTotal(q[1..], side, o);
    }
  }

  ghost predicate Free(b: Book, id: nat) {
    !Contains(b, id)
  }

  /** Executing an order whose id is not live keeps the book sound. */
  lemma ExecuteOk(cfg: Config, b: Book, t: Taker, px: int, qty: nat, mayRest: bool)
    requires BookOk(cfg, b) && Free(b, t.id) && t.id != 0
    requires mayRest ==> InBand(cfg, t.limit)
    ensures BookOk(cfg, Execute(cfg, b, t, px, qty, mayRest).book)
    ensures BookQty(Execute(cfg, b, t, px, qty, mayRest).book) <= BookQty(b) + qty
    ensures forall id :: Contains(Execute(cfg, b, t, px, qty, mayRest).book, id) ==> id == t.id || Contains(b, id)
  {
    var opp := Opposite(t.side);
    var q := Resting(b, opp);
    SweepShape(q, t, qty);
    SweepEnd(q, t, qty);
    var r := Sweep(q, t, qty);
    ConsumedSideOk(cfg, opp, q, r.queue);
    var b1 := WithResting(b, opp, r.queue);
    assert BookOk(cfg, b1) by { ConsumedBookOk(cfg, b, opp, r.queue); }
    if r.left > 0 && !r.stop && mayRest {
      RestOk(cfg, b1, t.side, Order(t.id, r.left, t.owner, t.limit));
    }
  }

  lemma BookBySides(b: Book, c: Book, side: Side)
    requires Resting(b, side) == Resting(c, side) && Resting(b, Opposite(side)) == Resting(c, Opposite(side))
    ensures b == c
  {
  }

  lemma HasIdHead(q: seq<Order>, id: nat)
    requires q != []
    ensures HasId(q, id) <==> id == q[0].id || HasId(q[1..], id)
  {
    if HasId(q[1..], id) {
      var k :| 0 <= k < |q[1..]| && q[1..][k].id == id;
      assert q[k + 1].id == id;
    }
    if HasId(q, id) {
      var k :| 0 <= k < |q| && q[k].id == id;
      assert k > 0 ==> q[1..][k - 1].id == id;
    }
  }

  /** After a sweep that may go on to rest: the id is still free and nothing within the limit is left. */
  lemma AfterSweep(cfg: Config, b: Book, t: Taker, qty: nat)
    requires BookOk(cfg, b) && !Contains(b, t.id)
    ensures var r := Sweep(Resting(b, Opposite(t.side)), t, qty);
      var b1 := WithResting(b, Opposite(t.side), r.queue);
      !Contains(b1, t.id) && (r.left > 0 && !r.stop ==> !Crosses(b1, t.side, t.limit))
  {
    hide Sweep;
    var q := Resting(b, Opposite(t.side));
    SweepShape(q, t, qty);
    SweepEnd(q, t, qty);
    ConsumedSideOk(cfg, Opposite(t.side), q, Sweep(q, t, qty).queue);
  }

  lemma ConsumedBookOk(cfg: Config, b: Book, side: Side, r: seq<Order>)
    requires BookOk(cfg, b) && Consumed(Resting(b, side), r)
    ensures BookOk(cfg, WithResting(b, side, r))
  {
    var q := Resting(b, side);
    ConsumedSideOk(cfg, side, q, r);
    if r != [] {
      var d := |q| - |r|;
      assert r[0].price == q[d].price;
      assert d > 0 ==> !Better(side, q[d].price, q[0].price);
    }
    forall i | 0 <= i < |r| ensures r[i].id == q[i + |q| - |r|].id {
    }
  }

  lemma DisjointByIds(p: seq<Order>, q: seq<Order>)
    requires forall id :: HasId(p, id) ==> !HasId(q, id)
    ensures DisjointIds(p, q) && DisjointIds(q, p)
  {
    forall i, j | 0 <= i < |p| && 0 <= j < |q| ensures p[i].id != q[j].id {
      assert HasId(p, p[i].id) && HasId(q, q[j].id);
    }
  }

  lemma IdsByDisjoint(p: seq<Order>, q: seq<Order>)
    requires DisjointIds(p, q)
    ensures forall id :: HasId(p, id) ==> !HasId(q, id)
  {
  }

  lemma RestUncrossed(b: Book, side: Side, o: Order)
    requires Uncrossed(b) && !Crosses(b, side, o.price)
    ensures Uncrossed(WithResting(b, side, Insert(Resting(b, side), side, o)))
  {
  }

  lemma RestOk(cfg: Config, b: Book, side: Side, o: Order)
    requires BookOk(cfg, b) && Free(b, o.id) && o.id != 0 && o.qty > 0 && InBand(cfg, o.price)
    requires !Crosses(b, side, o.price)
    ensures BookOk(cfg, Rest(cfg, b, side, o).book)
    ensures BookQty(Rest(cfg, b, side, o).book) <= BookQty(b) + o.qty
    ensures forall id :: Contains(Rest(cfg, b, side, o).book, id) ==> id == o.id || Contains(b, id)
  {
    if |b.bids| + |b.asks| < cfg.maxOrders {
      var q := Resting(b, side);
      InsertSideOk(cfg, side, q, o);
      InsertTotal(q, side, o);
      RestUncrossed(b, side, o);
      IdsByDisjoint(b.bids, b.asks);
      DisjointByIds(Insert(q, side, o), Resting(b, Opposite(side)));
    }
  }

  lemma RemovedOk(cfg: Config, b: Book, side: Side, k: nat)
    requires BookOk(cfg, b) && k < |Resting(b, side)|
    ensures BookOk(cfg, WithResting(b, side, RemoveAt(Resting(b, side), k)))
    ensures BookQty(WithResting(b, side, RemoveAt(Resting(b, side), k))) + Resting(b, side)[k].qty == BookQty(b)
    ensures forall id :: Contains(WithResting(b, side, RemoveAt(Resting(b, side), k)), id) <==>
      id != Resting(b, side)[k].id && Contains(b, id)
  {
    var q := Resting(b, side);
    RemoveSideOk(cfg, side, q, k);
    RemoveUncrossed(b, side, k);
    RemoveApart(q, Resting(b, Opposite(side)), k);
    hide SideOk, Uncrossed, DisjointIds, RemoveAt, TotalQty, HasId;
  }

  lemma RemoveUncrossed(b: Book, side: Side, k: nat)
    requires Uncrossed(b) && k < |Resting(b, side)| && Sorted(side, Resting(b, side))
    ensures Uncrossed(WithResting(b, side, RemoveAt(Resting(b, side), k)))
  {
    var q := Resting(b, side);
    assert |q| > 1 ==> !Better(side, q[1].price, q[0].price);
  }

  lemma RemoveApart(q: seq<Order>, other: seq<Order>, k: nat)
    requires k < |q| && (DisjointIds(q, other) || DisjointIds(other, q))
    ensures DisjointIds(RemoveAt(q, k), other) && DisjointIds(other, RemoveAt(q, k)) && !HasId(other, q[k].id)
  {
  }

  lemma ShrunkOk(cfg: Config, b: Book, side: Side, k: nat, qty: nat)
    requires BookOk(cfg, b) && k < |Resting(b, side)| && 0 < qty <= Resting(b, side)[k].qty
    ensures var q := Resting(b, side);
      var b' := WithResting(b, side, q[k := q[k].(qty := qty)]);
      && BookOk(cfg, b') && BookQty(b') + q[k].qty == BookQty(b) + qty
      && forall id :: Contains(b', id) <==> Contains(b, id)
  {
    var q := Resting(b, side);
    var q' := q[k := q[k].(qty := qty)];
    assert forall i :: 0 <= i < |q| ==> q'[i].id == q[i].id && q'[i].price == q[i].price;
    RemoveTotal(q, k);
    RemoveTotal(q', k);
    assert RemoveAt(q, k) == RemoveAt(q', k);
    forall id ensures HasId(q', id) <==> HasId(q, id) {
      if HasId(q, id) { var i :| 0 <= i < |q| && q[i].id == id; assert q'[i].id == id; }
    }
  }

  /** Every command keeps the book sound, and adds at most its own quantity and its own id. */
  lemma ApplyOk(cfg: Config, b: Book, c: Command)
    requires BookOk(cfg, b)
    ensures BookOk(cfg, Apply(cfg, b, c).book)
    ensures BookQty(Apply(cfg, b, c).book) <= BookQty(b) + c.qty
    ensures forall id :: Contains(Apply(cfg, b, c).book, id) ==> id == c.orderId || Contains(b, id)
  {
    match c.kind
    case NewOrder =>
      if AddReject(cfg, b, c) == NoReason {
        var px := if c.ordType == Market then 0 else c.price;
        ExecuteOk(cfg, b, AddTaker(cfg, c), px, c.qty, c.ordType == Limit && c.tif == Day);
      }
    case Cancel =>
      if Contains(b, c.orderId) {
        var side := SideOf(b, c.orderId);
        FindHit(Resting(b, side), c.orderId);
        RemovedOk(cfg, b, side, Find(Resting(b, side), c.orderId));
      }
    case Modify =>
      if ModifyReject(cfg, b, c) == NoReason {
        var side := SideOf(b, c.orderId);
        var q := Resting(b, side);
        FindHit(q, c.orderId);
        var k := Find(q, c.orderId);
        if c.price == q[k].price && c.qty <= q[k].qty {
          ShrunkOk(cfg, b, side, k, c.qty);
        } else {
          var b0 := WithResting(b, side, RemoveAt(q, k));
          RemovedOk(cfg, b, side, k);
          assert HasId(q, q[k].id);
          ExecuteOk(cfg, b0, Taker(cfg.symbol, c.orderId, q[k].owner, side, c.price, cfg.stp), c.price, c.qty, true);
        }
      }
  }

  function CommandQty(cmds: seq<Command>): nat {
    if cmds == [] then 0 else CommandQty(cmds[..|cmds| - 1]) + cmds[|cmds| - 1].qty
  }

  /** Over whole runs: every reachable book is sound and holds no more than was ever ordered. */
  lemma {:induction false} RunOk(cfg: Config, cmds: seq<Command>)
    ensures BookOk(cfg, RunAll(cfg, cmds).book)
    ensures BookQty(RunAll(cfg, cmds).book) <= CommandQty(cmds)
    decreases |cmds|
  {
    if cmds != [] {
      RunOk(cfg, cmds[..|cmds| - 1]);
      ApplyOk(cfg, RunAll(cfg, cmds[..|cmds| - 1]).book, cmds[|cmds| - 1]);
    }
  }

  ghost predicate Mentions(events: seq<Event>, r: Reason) {
    exists k :: 0 <= k < |events| && events[k].reason == r
  }

  lemma {:induction false} SweepReasons(q: seq<Order>, t: Taker, qty: nat)
    ensures !Mentions(Sweep(q, t, qty).events, BookFull)
    decreases |q|
  {
    if qty != 0 && q != [] && Reaches(t.side, t.limit, q[0].price) {
      SweepReasons(q[1..], t, qty);
      if q[0].qty <= qty {
        SweepReasons(q[1..], t, qty - q[0].qty);
      }
    }
  }

  /** With a place free, an execution never ends in BookFull. */
  lemma ExecuteHasRoom(cfg: Config, b: Book, t: Taker, px: int, qty: nat, mayRest: bool)
    requires |b.bids| + |b.asks| < cfg.maxOrders && Positive(Resting(b, Opposite(t.side)))
    ensures !Mentions(Execute(cfg, b, t, px, qty, mayRest).events, BookFull)
  {
    SweepReasons(Resting(b, Opposite(t.side)), t, qty);
    SweepShape(Resting(b, Opposite(t.side)), t, qty);
  }

  /** A modify can never end in BookFull: it frees a place before it asks for one. */
  lemma ModifyNeverBookFull(cfg: Config, b: Book, c: Command)
    requires BookOk(cfg, b)
    ensures !Mentions(ModifyOrder(cfg, b, c).events, BookFull)
  {
    if ModifyReject(cfg, b, c) == NoReason {
      var side := SideOf(b, c.orderId);
      var q := Resting(b, side);
      FindHit(q, c.orderId);
      var k := Find(q, c.orderId);
      if !(c.price == q[k].price && c.qty <= q[k].qty) {
        var b0 := WithResting(b, side, RemoveAt(q, k));
        ExecuteHasRoom(cfg, b0, Taker(cfg.symbol, c.orderId, q[k].owner, side, c.price, cfg.stp), c.price, c.qty, true);
      }
    }
  }

  /** The fill-or-kill walk is exact: it says yes exactly when the sweep resolves every lot, for every
      side and self-trade mode. */
  lemma {:induction false} FillableExact(q: seq<Order>, t: Taker, need: nat)
    requires need > 0
    ensures Fillable(q, t, need) <==> Sweep(q, t, need).left == 0
    decreases |q|
  {
    if q != [] && Reaches(t.side, t.limit, q[0].price) {
      FillableExact(q[1..], t, need);
      if q[0].qty < need {
        FillableExact(q[1..], t, need - q[0].qty);
      } else if q[0].qty == need {
        assert Sweep(q[1..], t, 0).left == 0;
      }
    }
  }

  /** Fill-or-kill is all or nothing: either the book is untouched and all of the order is canceled, or
      the sweep resolves all of it and nothing rests. */
  lemma FokAllOrNothing(cfg: Config, b: Book, c: Command)
    requires BookOk(cfg, b) && c.kind == NewOrder && c.tif == Fok && AddReject(cfg, b, c) == NoReason
    ensures var z := Add(cfg, b, c);
      var px := if c.ordType == Market then 0 else c.price;
      var r := Sweep(Resting(b, Opposite(c.side)), AddTaker(cfg, c), c.qty);
      if r.left == 0 then
        z == Outcome(WithResting(b, Opposite(c.side), r.queue),
                     [AcceptedEvent(cfg.symbol, c.orderId, c.side, px, c.qty)] + r.events)
      else
        z == Outcome(b, [AcceptedEvent(cfg.symbol, c.orderId, c.side, px, c.qty),
                         CanceledEvent(cfg.symbol, c.orderId, c.side, px, c.qty, FokUnfilled)])
  {
    FillableExact(Resting(b, Opposite(c.side)), AddTaker(cfg, c), c.qty);
  }
}
