/** A side of the book as a ladder: one queue per price, best price first. Both implementations keep
    their orders this way; the specification's single queue is the ladder laid end to end. */
module Ladders {
  import opened Types
  import opened BookSpec
  import opened BookInvariant

  type Ladder = seq<seq<Order>>

  function Concat(l: Ladder): seq<Order> {
    if l == [] then [] else l[0] + Concat(l[1..])
  }

  function RankPrice(cfg: Config, side: Side, r: int): int {
    if side == Buy then MaxPrice(cfg) - r else cfg.minPrice + r
  }

  function RankOf(cfg: Config, side: Side, price: int): int {
    if side == Buy then MaxPrice(cfg) - price else price - cfg.minPrice
  }

  predicate AllAt(q: seq<Order>, price: int) {
    forall k :: 0 <= k < |q| ==> q[k].price == price
  }

  ghost predicate Priced(cfg: Config, side: Side, l: Ladder) {
    && |l| == cfg.numLevels
    && forall r :: 0 <= r < |l| ==> AllAt(l[r], RankPrice(cfg, side, r))
  }

  lemma {:induction false} ConcatSplit(a: Ladder, b: Ladder)
    ensures Concat(a + b) == Concat(a) + Concat(b)
  {
    if a == [] {
      assert a + b == b;
    } else {
      assert (a + b)[1..] == a[1..] + b;
      ConcatSplit(a[1..], b);
      assert a[0] + Concat(a[1..]) + Concat(b) == a[0] + (Concat(a[1..]) + Concat(b));
    }
  }

  /** One rung replaced. */
  lemma ConcatWith(l: Ladder, r: nat, q: seq<Order>)
    requires r < |l|
    ensures Concat(l[r := q]) == Concat(l[..r]) + q + Concat(l[r + 1..])
  {
    var u := l[r := q];
    assert u == l[..r] + u[r..];
    ConcatSplit(l[..r], u[r..]);
    assert u[r..][1..] == l[r + 1..];
    assert Concat(l[..r]) + q + Concat(l[r + 1..]) == Concat(l[..r]) + (q + Concat(l[r + 1..]));
  }

  lemma ConcatAt(l: Ladder, r: nat)
    requires r < |l|
    ensures Concat(l) == Concat(l[..r]) + l[r] + Concat(l[r + 1..])
  {
    assert l[r := l[r]] == l;
    ConcatWith(l, r, l[r]);
  }

  lemma {:induction false} ConcatEmpty(l: Ladder)
    requires forall r :: 0 <= r < |l| ==> l[r] == []
    ensures Concat(l) == []
  {
    if l != [] {
      ConcatEmpty(l[1..]);
    }
  }

  /** Nothing before rung r: the queue starts there. */
  lemma FromRung(l: Ladder, r: nat)
    requires r <= |l| && forall k :: 0 <= k < r ==> l[k] == []
    ensures Concat(l) == Concat(l[r..])
    ensures r < |l| ==> Concat(l) == l[r] + Concat(l[r + 1..])
  {
    assert l == l[..r] + l[r..];
    ConcatSplit(l[..r], l[r..]);
    ConcatEmpty(l[..r]);
    assert r < |l| ==> l[r..][1..] == l[r + 1..];
  }

  lemma {:induction false} ConcatHas(l: Ladder, id: nat)
    ensures HasId(Concat(l), id) <==> exists r :: 0 <= r < |l| && HasId(l[r], id)
  {
    if l != [] {
      ConcatHas(l[1..], id);
      var a, b := l[0], Concat(l[1..]);
      HasIdAppend(a, b, id);
      if HasId(b, id) {
        var r :| 0 <= r < |l[1..]| && HasId(l[1..][r], id);
        assert HasId(l[r + 1], id);
      }
      forall r | 0 < r < |l| && HasId(l[r], id) ensures HasId(b, id) {
        assert HasId(l[1..][r - 1], id);
      }
    }
  }

  lemma HasIdAppend(a: seq<Order>, b: seq<Order>, id: nat)
    ensures HasId(a + b, id) <==> HasId(a, id) || HasId(b, id)
  {
    if HasId(a, id) {
      var k :| 0 <= k < |a| && a[k].id == id;
      assert (a + b)[k].id == id;
    }
    if HasId(b, id) {
      var k :| 0 <= k < |b| && b[k].id == id;
      assert (a + b)[|a| + k].id == id;
    }
    if HasId(a + b, id) {
      var k :| 0 <= k < |a + b| && (a + b)[k].id == id;
      assert if k < |a| then a[k].id == id else b[k - |a|].id == id;
    }
  }

  predicate NoneWorse(side: Side, q: seq<Order>, price: int) {
    forall k :: 0 <= k < |q| ==> !Better(side, price, q[k].price)
  }

  predicate AllWorse(side: Side, q: seq<Order>, price: int) {
    forall k :: 0 <= k < |q| ==> Better(side, price, q[k].price)
  }

  lemma {:induction false} InsertBetween(a: seq<Order>, b: seq<Order>, side: Side, o: Order)
    requires NoneWorse(side, a, o.price) && AllWorse(side, b, o.price)
    ensures Insert(a + b, side, o) == a + [o] + b
    decreases |a|
  {
    if a == [] {
      assert a + b == b;
    } else {
      assert (a + b)[1..] == a[1..] + b;
      InsertBetween(a[1..], b, side, o);
      assert [a[0]] + (a[1..] + [o] + b) == a + [o] + b;
    }
  }

  lemma {:induction false} ConcatPrices(cfg: Config, side: Side, l: Ladder, from: int, price: int)
    requires forall r :: 0 <= r < |l| ==> AllAt(l[r], RankPrice(cfg, side, from + r))
    ensures from + |l| <= RankOf(cfg, side, price) + 1 ==> NoneWorse(side, Concat(l), price)
    ensures from > RankOf(cfg, side, price) ==> AllWorse(side, Concat(l), price)
    decreases |l|
  {
    if l != [] {
      forall r | 0 <= r < |l[1..]| ensures AllAt(l[1..][r], RankPrice(cfg, side, from + 1 + r)) {
        assert AllAt(l[r + 1], RankPrice(cfg, side, from + (r + 1)));
      }
      ConcatPrices(cfg, side, l[1..], from + 1, price);
      assert AllAt(l[0], RankPrice(cfg, side, from + 0));
    }
  }

  lemma AroundRung(cfg: Config, side: Side, l: Ladder, price: int)
    requires Priced(cfg, side, l) && InBand(cfg, price)
    ensures var r := RankOf(cfg, side, price);
      && 0 <= r < |l| && NoneWorse(side, Concat(l[..r]), price) && NoneWorse(side, l[r], price)
      && AllWorse(side, Concat(l[r + 1..]), price)
  {
    var r := RankOf(cfg, side, price);
    ConcatPrices(cfg, side, l[..r], 0, price);
    var tail := l[r + 1..];
    forall k | 0 <= k < |tail| ensures AllAt(tail[k], RankPrice(cfg, side, r + 1 + k)) {
      assert tail[k] == l[r + 1 + k];
    }
    ConcatPrices(cfg, side, tail, r + 1, price);
    assert AllAt(l[r], RankPrice(cfg, side, r));
  }

  /** Joining the back of its price's rung is entering the queue behind every order as good. */
  lemma InsertRung(cfg: Config, side: Side, l: Ladder, o: Order)
    requires Priced(cfg, side, l) && InBand(cfg, o.price)
    ensures var r := RankOf(cfg, side, o.price);
      0 <= r < |l| && Insert(Concat(l), side, o) == Concat(l[r := l[r] + [o]])
  {
    var r := RankOf(cfg, side, o.price);
    AroundRung(cfg, side, l, o.price);
    ConcatAt(l, r);
    ConcatWith(l, r, l[r] + [o]);
    var a, b := Concat(l[..r]) + l[r], Concat(l[r + 1..]);
    InsertBetween(a, b, side, o);
    assert a + [o] + b == Concat(l[..r]) + (l[r] + [o]) + b;
  }

  /** Where an order of one rung stands in the whole queue. */
  lemma RungPosition(l: Ladder, r: nat, k: nat)
    requires r < |l| && k < |l[r]|
    ensures var p := |Concat(l[..r])| + k;
      && p < |Concat(l)| && Concat(l)[p] == l[r][k]
      && RemoveAt(Concat(l), p) == Concat(l[r := RemoveAt(l[r], k)])
  {
    var p := |Concat(l[..r])| + k;
    var a, b := Concat(l[..r]), Concat(l[r + 1..]);
    ConcatAt(l, r);
    ConcatWith(l, r, RemoveAt(l[r], k));
    assert RemoveAt(a + l[r] + b, p) == a + RemoveAt(l[r], k) + b;
  }

  lemma RungUpdate(l: Ladder, r: nat, k: nat, o: Order)
    requires r < |l| && k < |l[r]|
    ensures var p := |Concat(l[..r])| + k;
      p < |Concat(l)| && Concat(l)[p := o] == Concat(l[r := l[r][k := o]])
  {
    ConcatAt(l, r);
    ConcatWith(l, r, l[r][k := o]);
  }

  /** With unique ids, an id is found where it is. */
  lemma FindIs(q: seq<Order>, p: nat)
    requires UniqueIds(q) && p < |q|
    ensures Find(q, q[p].id) == p && HasId(q, q[p].id)
  {
    FindHit(q, q[p].id);
  }

  // Counting.

  function IdSet(q: seq<Order>): set<nat> {
    set k | 0 <= k < |q| :: q[k].id
  }

  lemma {:induction false} IdSetSize(q: seq<Order>)
    requires UniqueIds(q)
    ensures |IdSet(q)| == |q|
  {
    if q != [] {
      var n := |q| - 1;
      IdSetSize(q[..n]);
      assert IdSet(q) == IdSet(q[..n]) + {q[n].id};
      assert q[n].id !in IdSet(q[..n]);
    }
  }

  /** A book whose live ids are `ids` holds exactly that many orders. */
  lemma CountIds(b: Book, ids: set<nat>)
    requires UniqueIds(b.bids) && UniqueIds(b.asks) && DisjointIds(b.bids, b.asks)
    requires forall id :: Contains(b, id) <==> id in ids
    ensures |b.bids| + |b.asks| == |ids|
  {
    IdSetSize(b.bids);
    IdSetSize(b.asks);
    forall id ensures id in ids <==> id in IdSet(b.bids) + IdSet(b.asks) {
      assert id in IdSet(b.bids) <==> HasId(b.bids, id);
      assert id in IdSet(b.asks) <==> HasId(b.asks, id);
    }
    assert ids == IdSet(b.bids) + IdSet(b.asks);
    assert IdSet(b.bids) !! IdSet(b.asks);
  }
}
