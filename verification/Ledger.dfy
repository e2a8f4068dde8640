/** The event stream alone is a complete ledger of open quantity. */
module Ledger {
  import opened Types
  import opened BookSpec
  import opened BookInvariant
  import opened MissedFills

  /** Open quantity by order id. */
  type Balances = map<nat, nat>

  function SetOpen(l: Balances, id: nat, qty: nat): Balances {
    if qty == 0 then l - {id} else l[id := qty]
  }

  /** Posts one event; None when the event contradicts the balances. */
  function Post(l: Balances, e: Event): Option<Balances> {
    match e.kind
    case Accepted =>
      if e.orderId in l then None else Some(l[e.orderId := e.qty])
    case Rejected =>
      Some(l)
    case Trade =>
      if e.orderId == e.makerId || e.orderId !in l || e.makerId !in l then None
      else if e.qty == 0 || e.qty > l[e.orderId] || l[e.makerId] != e.qty + e.leaves then None
      else Some(SetOpen(SetOpen(l, e.orderId, l[e.orderId] - e.qty), e.makerId, e.leaves))
    case Canceled =>
      if e.orderId !in l || l[e.orderId] != e.qty then None else Some(l - {e.orderId})
    case Modified =>
      if e.orderId !in l || e.qty == 0 then None else Some(l[e.orderId := e.qty])
  }

  function PostAll(l: Balances, events: seq<Event>): Option<Balances>
    decreases |events|
  {
    if events == [] then Some(l)
    else
      match Post(l, events[0])
      case None => None
      case Some(l1) => PostAll(l1, events[1..])
  }

  function OpenIn(q: seq<Order>): Balances {
    if q == [] then map[] else OpenIn(q[1..])[q[0].id := q[0].qty]
  }

  function Open(b: Book): Balances {
    OpenIn(b.bids) + OpenIn(b.asks)
  }

  lemma {:induction false} OpenInHas(q: seq<Order>, id: nat)
    ensures id in OpenIn(q) <==> HasId(q, id)
    decreases |q|
  {
    if q != [] {
      OpenInHas(q[1..], id);
      HasIdHead(q, id);
    }
  }

  /** The balances hold exactly the live orders. */
  lemma OpenHas(b: Book, id: nat)
    ensures id in Open(b) <==> Contains(b, id)
  {
    OpenInHas(b.bids, id);
    OpenInHas(b.asks, id);
  }

  lemma UniqueHead(q: seq<Order>)
    requires q != [] && UniqueIds(q)
    ensures q[0].id !in OpenIn(q[1..]) && UniqueIds(q[1..])
  {
    OpenInHas(q[1..], q[0].id);
    assert forall k :: 0 <= k < |q[1..]| ==> q[1..][k] == q[k + 1];
  }

  lemma {:induction false} PostAllConcat(l: Balances, a: seq<Event>, b: seq<Event>)
    ensures PostAll(l, a + b) == match PostAll(l, a) case None => None case Some(m) => PostAll(m, b)
    decreases |a|
  {
    if a == [] {
      assert a + b == b;
    } else {
      assert (a + b)[1..] == a[1..] + b;
      match Post(l, a[0])
      case None =>
      case Some(m) => PostAllConcat(m, a[1..], b);
    }
  }

  lemma {:induction false} OpenInAt(q: seq<Order>, k: nat)
    requires UniqueIds(q) && k < |q|
    ensures q[k].id in OpenIn(q) && OpenIn(q)[q[k].id] == q[k].qty
  {
    if k > 0 {
      UniqueHead(q);
      assert q[1..][k - 1] == q[k];
      OpenInAt(q[1..], k - 1);
    }
  }

  /** The balances during a sweep: the orders not swept over, the queue, and the taker's remainder. */
  function During(rest: Balances, q: seq<Order>, id: nat, qty: nat): Balances {
    SetOpen(rest + OpenIn(q), id, qty)
  }

  ghost predicate Apart(rest: Balances, q: seq<Order>, id: nat) {
    id !in OpenIn(q) && id !in rest && OpenIn(q).Keys !! rest.Keys
  }

  lemma MapPush(l: Balances, m: Balances, id: nat, qty: nat)
    ensures l + m[id := qty] == (l + m)[id := qty]
  {
  }

  lemma MapPull(l: Balances, m: Balances, id: nat, qty: nat)
    requires id !in m
    ensures l[id := qty] + m == (l + m)[id := qty]
  {
  }

  lemma MapDrop(m: Balances, id: nat, qty: nat)
    requires id !in m
    ensures m[id := qty] - {id} == m
  {
  }

  /** Isolates the head of the queue in the balances. */
  lemma HeadOut(rest: Balances, q: seq<Order>, id: nat, less: nat)
    requires q != [] && UniqueIds(q) && Apart(rest, q, id) && less <= q[0].qty
    ensures var m, o := rest + OpenIn(q[1..]), q[0];
      && id !in m && o.id !in m && o.id != id
      && rest + OpenIn(q) == m[o.id := o.qty]
      && rest + OpenIn([o.(qty := o.qty - less)] + q[1..]) == m[o.id := o.qty - less]
      && Apart(rest, q[1..], id) && UniqueIds(q[1..])
  {
    UniqueHead(q);
    var o, q' := q[0], [q[0].(qty := q[0].qty - less)] + q[1..];
    assert q'[1..] == q[1..];
    MapPush(rest, OpenIn(q[1..]), o.id, o.qty);
    MapPush(rest, OpenIn(q[1..]), o.id, o.qty - less);
    assert o.id in OpenIn(q);
    assert OpenIn(q[1..]).Keys <= OpenIn(q).Keys;
  }

  lemma MapTrade(m: Balances, id: nat, qty: nat, maker: nat, size: nat, fill: nat)
    requires id !in m && maker !in m && id != maker && 0 < fill <= qty && fill <= size
    ensures var l := SetOpen(m[maker := size], id, qty);
      && id in l && maker in l && l[id] == qty && l[maker] == size
      && SetOpen(SetOpen(l, id, qty - fill), maker, size - fill)
           == SetOpen(SetOpen(m, maker, size - fill), id, qty - fill)
  {
  }

  lemma PostTrade(rest: Balances, q: seq<Order>, t: Taker, qty: nat, fill: nat)
    requires q != [] && UniqueIds(q) && 0 < fill <= qty && fill <= q[0].qty && Apart(rest, q, t.id)
    ensures var o := q[0];
      Post(During(rest, q, t.id, qty), TradeEvent(t.symbol, t.id, o.id, t.side, o.price, fill, o.qty - fill))
      == Some(During(rest, if fill == o.qty then q[1..] else [o.(qty := o.qty - fill)] + q[1..], t.id, qty - fill))
  {
    HeadOut(rest, q, t.id, fill);
    MapTrade(rest + OpenIn(q[1..]), t.id, qty, q[0].id, q[0].qty, fill);
    assert rest + OpenIn(q[1..]) - {q[0].id} == rest + OpenIn(q[1..]);
  }

  lemma PostSelfCancel(rest: Balances, q: seq<Order>, t: Taker, qty: nat)
    requires q != [] && UniqueIds(q) && qty > 0 && Apart(rest, q, t.id)
    ensures var o := q[0];
      Post(During(rest, q, t.id, qty), CanceledEvent(t.symbol, o.id, Opposite(t.side), o.price, o.qty, SelfTrade))
      == Some(During(rest, q[1..], t.id, qty))
  {
    HeadOut(rest, q, t.id, 0);
    assert During(rest, q, t.id, qty) - {q[0].id} == During(rest, q[1..], t.id, qty);
  }

  lemma PostDecrement(rest: Balances, q: seq<Order>, t: Taker, qty: nat, less: nat)
    requires q != [] && UniqueIds(q) && qty > 0 && 0 < less < q[0].qty && Apart(rest, q, t.id)
    ensures var o := q[0];
      Post(During(rest, q, t.id, qty), StpDecrementEvent(t.symbol, o.id, Opposite(t.side), o.price, o.qty - less))
      == Some(During(rest, [o.(qty := o.qty - less)] + q[1..], t.id, qty))
  {
    HeadOut(rest, q, t.id, less);
    var m: Balances, id: nat, size: nat := rest + OpenIn(q[1..]), q[0].id, q[0].qty;
    var before: Balances := m[id := size];
    assert before[t.id := qty][id := size - less] == m[id := size - less][t.id := qty];
  }

  lemma SweepStep(q: seq<Order>, t: Taker, qty: nat)
    requires q != [] && qty > 0 && Reaches(t.side, t.limit, q[0].price)
    requires !(t.stp != NoStp && q[0].owner == t.owner)
    ensures var o := q[0];
      var fill := if o.qty > qty then qty else o.qty;
      var e := TradeEvent(t.symbol, t.id, o.id, t.side, o.price, fill, o.qty - fill);
      var r := Sweep(q[1..], t, qty - fill);
      Sweep(q, t, qty) == if o.qty > qty then SweepResult([o.(qty := o.qty - qty)] + q[1..], 0, false, [e])
                          else r.(events := [e] + r.events)
  {
  }

  lemma PostAllCons(l: Balances, e: Event, m: Balances, events: seq<Event>)
    requires Post(l, e) == Some(m)
    ensures PostAll(l, [e] + events) == PostAll(m, events)
  {
    assert ([e] + events)[1..] == events;
  }

  /** A sweep's events take the balances from before it to after it. */
  lemma {:induction false} SweepPosts(rest: Balances, q: seq<Order>, t: Taker, qty: nat)
    requires UniqueIds(q) && Positive(q) && Apart(rest, q, t.id)
    ensures var r := Sweep(q, t, qty);
      PostAll(During(rest, q, t.id, qty), r.events) == Some(During(rest, r.queue, t.id, r.left))
    decreases |q|, 2
  {
    if qty != 0 && q != [] && Reaches(t.side, t.limit, q[0].price) {
      if t.stp != NoStp && q[0].owner == t.owner {
        SweepSelfPosts(rest, q, t, qty);
      } else {
        SweepTradePosts(rest, q, t, qty);
      }
    }
  }

  lemma {:induction false} SweepTradePosts(rest: Balances, q: seq<Order>, t: Taker, qty: nat)
    requires UniqueIds(q) && Positive(q) && Apart(rest, q, t.id)
    requires q != [] && qty > 0 && Reaches(t.side, t.limit, q[0].price)
    requires !(t.stp != NoStp && q[0].owner == t.owner)
    ensures var r := Sweep(q, t, qty);
      PostAll(During(rest, q, t.id, qty), r.events) == Some(During(rest, r.queue, t.id, r.left))
    decreases |q|, 1
  {
    var o, tail := q[0], q[1..];
    var fill := if o.qty > qty then qty else o.qty;
    var e := TradeEvent(t.symbol, t.id, o.id, t.side, o.price, fill, o.qty - fill);
    SweepStep(q, t, qty);
    assert 0 < fill;
    PostTrade(rest, q, t, qty, fill);
    HeadOut(rest, q, t.id, 0);
    PositiveTail(q);
    hide During, PostAll, Post, Positive, Apart, UniqueIds, Sweep;
    if o.qty <= qty {
      SweepPosts(rest, tail, t, qty - o.qty);
      PostAllCons(During(rest, q, t.id, qty), e, During(rest, tail, t.id, qty - o.qty),
                  Sweep(tail, t, qty - o.qty).events);
    } else {
      PostOne(During(rest, q, t.id, qty), e, During(rest, [o.(qty := o.qty - qty)] + tail, t.id, 0));
    }
  }

  lemma PositiveTail(q: seq<Order>)
    requires Positive(q) && q != []
    ensures Positive(q[1..])
  {
  }

  lemma PostOne(l: Balances, e: Event, m: Balances)
    requires Post(l, e) == Some(m)
    ensures PostAll(l, [e]) == Some(m)
  {
    PostAllCons(l, e, m, []);
    assert [e] + [] == [e];
  }

  lemma {:induction false} SweepSelfPosts(rest: Balances, q: seq<Order>, t: Taker, qty: nat)
    requires UniqueIds(q) && Positive(q) && q != [] && qty > 0 && Apart(rest, q, t.id)
    ensures var r := SweepSelf(q, t, qty);
      PostAll(During(rest, q, t.id, qty), r.events) == Some(During(rest, r.queue, t.id, r.left))
    decreases |q|, 1
  {
    var o, tail := q[0], q[1..];
    var l := During(rest, q, t.id, qty);
    HeadOut(rest, q, t.id, 0);
    if t.stp == CancelIncoming {
    } else if t.stp == DecrementCancel && o.qty > qty {
      PostDecrement(rest, q, t, qty, qty);
      PostAllCons(l, StpDecrementEvent(t.symbol, o.id, Opposite(t.side), o.price, o.qty - qty),
                  During(rest, [o.(qty := o.qty - qty)] + tail, t.id, qty), []);
    } else {
      SelfCancelPosts(rest, q, t, qty);
    }
  }

  lemma {:induction false} SelfCancelPosts(rest: Balances, q: seq<Order>, t: Taker, qty: nat)
    requires UniqueIds(q) && Positive(q) && q != [] && qty > 0 && Apart(rest, q, t.id)
    requires t.stp != CancelIncoming && (t.stp == DecrementCancel ==> q[0].qty <= qty)
    ensures var r := SweepSelf(q, t, qty);
      PostAll(During(rest, q, t.id, qty), r.events) == Some(During(rest, r.queue, t.id, r.left))
    decreases |q|, 0
  {
    var o, tail := q[0], q[1..];
    var l, m := During(rest, q, t.id, qty), During(rest, tail, t.id, qty);
    var gone := CanceledEvent(t.symbol, o.id, Opposite(t.side), o.price, o.qty, SelfTrade);
    HeadOut(rest, q, t.id, 0);
    PostSelfCancel(rest, q, t, qty);
    if t.stp != DecrementCancel {
      SweepPosts(rest, tail, t, qty);
      PostAllCons(l, gone, m, Sweep(tail, t, qty).events);
    } else if o.qty == qty {
      PostAllCons(l, gone, m, []);
    } else {
      var r := Sweep(tail, t, qty - o.qty);
      var later := [StpDecrementEvent(t.symbol, t.id, t.side, t.limit, qty - o.qty)] + r.events;
      assert SweepSelf(q, t, qty).events == [gone] + later && SweepSelf(q, t, qty).queue == r.queue;
      SweepPosts(rest, tail, t, qty - o.qty);
      PostTakerDecrement(rest, tail, t, qty, qty - o.qty, r.events);
      PostAllCons(l, gone, m, later);
    }
  }

  lemma PostTakerDecrement(rest: Balances, q: seq<Order>, t: Taker, qty: nat, left: nat, events: seq<Event>)
    requires qty > 0 && left > 0 && t.id !in rest && t.id !in OpenIn(q)
    ensures PostAll(During(rest, q, t.id, qty), [StpDecrementEvent(t.symbol, t.id, t.side, t.limit, left)] + events)
      == PostAll(During(rest, q, t.id, left), events)
  {
    var less := StpDecrementEvent(t.symbol, t.id, t.side, t.limit, left);
    assert (rest + OpenIn(q))[t.id := qty][t.id := left] == (rest + OpenIn(q))[t.id := left];
    PostAllCons(During(rest, q, t.id, qty), less, During(rest, q, t.id, left), events);
  }

  lemma {:induction false} OpenInConcat(p: seq<Order>, q: seq<Order>)
    ensures OpenIn(p + q) == OpenIn(q) + OpenIn(p)
    decreases |p|
  {
    if p == [] {
      assert p + q == q;
    } else {
      assert (p + q)[1..] == p[1..] + q;
      OpenInConcat(p[1..], q);
    }
  }

  lemma OpenInOne(o: Order)
    ensures OpenIn([o]) == map[o.id := o.qty]
  {
    assert OpenIn([o]) == OpenIn([o][1..])[o.id := o.qty];
  }

  lemma OpenInInsert(q: seq<Order>, side: Side, o: Order)
    requires !HasId(q, o.id)
    ensures OpenIn(Insert(q, side, o)) == OpenIn(q)[o.id := o.qty]
  {
    InsertShape(q, side, o);
    OpenInHas(q, o.id);
    var p := Place(q, side, o.price);
    var a, b := q[..p], q[p..];
    assert q == a + b;
    OpenInConcat(a, b);
    OpenInConcat(a, [o] + b);
    OpenInConcat([o], b);
    OpenInOne(o);
    assert a + [o] + b == a + ([o] + b);
  }

  /** The balances of a queue are those of its parts around one order, and that order's own. */
  lemma OpenInSplit(q: seq<Order>, k: nat)
    requires UniqueIds(q) && k < |q|
    ensures var m := OpenIn(q[k + 1..]) + OpenIn(q[..k]);
      && q[k].id !in m
      && OpenIn(q) == m[q[k].id := q[k].qty]
      && OpenIn(RemoveAt(q, k)) == m
  {
    AloneInParts(q, k);
    OpenInAround(q[..k], q[k], q[k + 1..]);
  }

  lemma AloneInParts(q: seq<Order>, k: nat)
    requires UniqueIds(q) && k < |q|
    ensures q[k].id !in OpenIn(q[..k]) && q[k].id !in OpenIn(q[k + 1..])
    ensures q == q[..k] + ([q[k]] + q[k + 1..])
  {
    OpenInHas(q[..k], q[k].id);
    OpenInHas(q[k + 1..], q[k].id);
  }

  lemma OpenInAround(a: seq<Order>, o: Order, b: seq<Order>)
    requires o.id !in OpenIn(a)
    ensures OpenIn(a + ([o] + b)) == (OpenIn(b) + OpenIn(a))[o.id := o.qty]
    ensures OpenIn(a + b) == OpenIn(b) + OpenIn(a)
  {
    OpenInConcat(a, [o] + b);
    assert ([o] + b)[1..] == b;
    MapPull(OpenIn(b), OpenIn(a), o.id, o.qty);
    OpenInConcat(a, b);
  }

  lemma OpenInRemove(q: seq<Order>, k: nat)
    requires UniqueIds(q) && k < |q|
    ensures OpenIn(RemoveAt(q, k)) == OpenIn(q) - {q[k].id}
  {
    OpenInSplit(q, k);
    MapDrop(OpenIn(q[k + 1..]) + OpenIn(q[..k]), q[k].id, q[k].qty);
  }

  lemma OpenInUpdate(q: seq<Order>, k: nat, qty: nat)
    requires UniqueIds(q) && k < |q|
    ensures OpenIn(q[k := q[k].(qty := qty)]) == OpenIn(q)[q[k].id := qty]
  {
    var q' := q[k := q[k].(qty := qty)];
    assert forall i :: 0 <= i < |q| ==> q'[i].id == q[i].id;
    OpenInSplit(q, k);
    OpenInSplit(q', k);
    assert q'[..k] == q[..k] && q'[k + 1..] == q[k + 1..];
  }

  lemma OpenDisjoint(b: Book)
    requires DisjointIds(b.bids, b.asks)
    ensures OpenIn(b.bids).Keys !! OpenIn(b.asks).Keys
  {
    IdsByDisjoint(b.bids, b.asks);
    forall id | id in OpenIn(b.bids) && id in OpenIn(b.asks) ensures false {
      OpenInHas(b.bids, id);
      OpenInHas(b.asks, id);
    }
  }

  /** The balances of the book on one side combine with those of the other in either order. */
  lemma OpenBySide(b: Book, side: Side)
    requires DisjointIds(b.bids, b.asks)
    ensures Open(b) == OpenIn(Resting(b, side)) + OpenIn(Resting(b, Opposite(side)))
    ensures OpenIn(Resting(b, side)).Keys !! OpenIn(Resting(b, Opposite(side))).Keys
  {
    OpenDisjoint(b);
  }

  /** Execution, posted to the balances of the book plus the order's own quantity. */
  lemma ExecutePosts(cfg: Config, b: Book, t: Taker, px: int, qty: nat, mayRest: bool)
    requires BookOk(cfg, b) && !Contains(b, t.id) && t.id != 0 && qty > 0
    requires mayRest ==> InBand(cfg, t.limit)
    ensures var z := Execute(cfg, b, t, px, qty, mayRest);
      PostAll(Open(b)[t.id := qty], z.events) == Some(Open(z.book))
  {
    var own, q := Resting(b, t.side), Resting(b, Opposite(t.side));
    var r := Sweep(q, t, qty);
    var b1 := WithResting(b, Opposite(t.side), r.queue);
    OpenBySide(b, t.side);
    OpenInHas(own, t.id);
    OpenInHas(q, t.id);
    assert Open(b)[t.id := qty] == During(OpenIn(own), q, t.id, qty);
    SweepPosts(OpenIn(own), q, t, qty);
    SweepShape(q, t, qty);
    ConsumedBookOk(cfg, b, Opposite(t.side), r.queue);
    ConsumedSideOk(cfg, Opposite(t.side), q, r.queue);
    OpenBySide(b1, t.side);
    RemainderPosts(cfg, b, t, px, qty, mayRest);
  }

  lemma PostCancel(l: Balances, sym: nat, id: nat, side: Side, px: int, qty: nat, why: Reason)
    requires id !in l
    ensures PostAll(l[id := qty], [CanceledEvent(sym, id, side, px, qty, why)]) == Some(l)
  {
    assert l[id := qty] - {id} == l;
    PostAllCons(l[id := qty], CanceledEvent(sym, id, side, px, qty, why), l, []);
  }

  lemma RemainderPosts(cfg: Config, b: Book, t: Taker, px: int, qty: nat, mayRest: bool)
    requires qty > 0
    requires var r := Sweep(Resting(b, Opposite(t.side)), t, qty);
      var b1 := WithResting(b, Opposite(t.side), r.queue);
      && BookOk(cfg, b1) && !Contains(b1, t.id)
      && Open(b1) == OpenIn(Resting(b, t.side)) + OpenIn(r.queue)
      && PostAll(Open(b)[t.id := qty], r.events) == Some(During(OpenIn(Resting(b, t.side)), r.queue, t.id, r.left))
    ensures var z := Execute(cfg, b, t, px, qty, mayRest);
      PostAll(Open(b)[t.id := qty], z.events) == Some(Open(z.book))
  {
    var own, q := Resting(b, t.side), Resting(b, Opposite(t.side));
    var r := Sweep(q, t, qty);
    var b1 := WithResting(b, Opposite(t.side), r.queue);
    var l, m := Open(b)[t.id := qty], Open(b1)[t.id := r.left];
    OpenHas(b1, t.id);
    if r.left == 0 {
      assert Open(b1) - {t.id} == Open(b1);
    } else if r.stop {
      PostCancel(Open(b1), cfg.symbol, t.id, t.side, px, r.left, SelfTrade);
      PostAllConcat(l, r.events, [CanceledEvent(cfg.symbol, t.id, t.side, px, r.left, SelfTrade)]);
    } else if !mayRest {
      PostCancel(Open(b1), cfg.symbol, t.id, t.side, px, r.left, IocExpired);
      PostAllConcat(l, r.events, [CanceledEvent(cfg.symbol, t.id, t.side, px, r.left, IocExpired)]);
    } else {
      var o := Order(t.id, r.left, t.owner, t.limit);
      RestPosts(cfg, b1, t.side, o);
      PostAllConcat(l, r.events, Rest(cfg, b1, t.side, o).events);
    }
  }

  lemma RestPosts(cfg: Config, b: Book, side: Side, o: Order)
    requires BookOk(cfg, b) && !Contains(b, o.id)
    ensures PostAll(Open(b)[o.id := o.qty], Rest(cfg, b, side, o).events) == Some(Open(Rest(cfg, b, side, o).book))
  {
    OpenHas(b, o.id);
    if |b.bids| + |b.asks| < cfg.maxOrders {
      OpenInInsert(Resting(b, side), side, o);
      OpenInHas(Resting(b, Opposite(side)), o.id);
      assert Open(Rest(cfg, b, side, o).book) == Open(b)[o.id := o.qty];
    } else {
      PostCancel(Open(b), cfg.symbol, o.id, side, o.price, o.qty, BookFull);
    }
  }

  /** Posting a command's events to the balances before it gives exactly the balances after it: no event
      contradicts them, and none is missing. */
  lemma ApplyPosts(cfg: Config, b: Book, c: Command)
    requires BookOk(cfg, b)
    ensures var z := Apply(cfg, b, c);
      PostAll(Open(b), z.events) == Some(Open(z.book))
  {
    match c.kind
    case NewOrder => AddPosts(cfg, b, c);
    case Cancel => CancelPosts(cfg, b, c);
    case Modify => ModifyPosts(cfg, b, c);
  }

  lemma AddPosts(cfg: Config, b: Book, c: Command)
    requires BookOk(cfg, b)
    ensures PostAll(Open(b), Add(cfg, b, c).events) == Some(Open(Add(cfg, b, c).book))
  {
    if AddReject(cfg, b, c) == NoReason {
      var px := if c.ordType == Market then 0 else c.price;
      var t := AddTaker(cfg, c);
      var accepted := AcceptedEvent(cfg.symbol, c.orderId, c.side, px, c.qty);
      OpenHas(b, c.orderId);
      if c.tif == Fok && !Fillable(Resting(b, Opposite(c.side)), t, c.qty) {
        var killed := CanceledEvent(cfg.symbol, c.orderId, c.side, px, c.qty, FokUnfilled);
        PostCancel(Open(b), cfg.symbol, c.orderId, c.side, px, c.qty, FokUnfilled);
        PostAllCons(Open(b), accepted, Open(b)[c.orderId := c.qty], [killed]);
        assert [accepted, killed] == [accepted] + [killed];
      } else {
        ExecutePosts(cfg, b, t, px, c.qty, c.ordType == Limit && c.tif == Day);
        PostAllCons(Open(b), accepted, Open(b)[c.orderId := c.qty],
                    Execute(cfg, b, t, px, c.qty, c.ordType == Limit && c.tif == Day).events);
      }
    }
  }

  lemma RemovedOpen(cfg: Config, b: Book, side: Side, k: nat)
    requires BookOk(cfg, b) && k < |Resting(b, side)|
    ensures var o := Resting(b, side)[k];
      && o.id in Open(b) && Open(b)[o.id] == o.qty
      && Open(WithResting(b, side, RemoveAt(Resting(b, side), k))) == Open(b) - {o.id}
  {
    var q := Resting(b, side);
    OpenInAt(q, k);
    OpenInRemove(q, k);
    OpenDisjoint(b);
  }

  lemma CancelPosts(cfg: Config, b: Book, c: Command)
    requires BookOk(cfg, b)
    ensures PostAll(Open(b), CancelOrder(cfg, b, c).events) == Some(Open(CancelOrder(cfg, b, c).book))
  {
    if Contains(b, c.orderId) {
      var side := SideOf(b, c.orderId);
      FindHit(Resting(b, side), c.orderId);
      RemovedOpen(cfg, b, side, Find(Resting(b, side), c.orderId));
    }
  }

  lemma ShrunkOpen(cfg: Config, b: Book, side: Side, k: nat, qty: nat)
    requires BookOk(cfg, b) && k < |Resting(b, side)|
    ensures var q := Resting(b, side);
      Open(WithResting(b, side, q[k := q[k].(qty := qty)])) == Open(b)[q[k].id := qty]
  {
    OpenInUpdate(Resting(b, side), k, qty);
    OpenInAt(Resting(b, side), k);
    OpenDisjoint(b);
  }

  /** The balances once an order has left the book to re-enter it with a new quantity. */
  lemma ReenterPosts(cfg: Config, b: Book, side: Side, k: nat, t: Taker, qty: nat)
    requires BookOk(cfg, b) && k < |Resting(b, side)| && Resting(b, side)[k].id == t.id
    requires qty > 0 && InBand(cfg, t.limit)
    ensures var z := Execute(cfg, WithResting(b, side, RemoveAt(Resting(b, side), k)), t, t.limit, qty, true);
      PostAll(Open(b)[t.id := qty], z.events) == Some(Open(z.book))
  {
    var b0 := WithResting(b, side, RemoveAt(Resting(b, side), k));
    assert Open(b0)[t.id := qty] == Open(b)[t.id := qty] by { RemovedOpen(cfg, b, side, k); }
    assert BookOk(cfg, b0) && !Contains(b0, t.id) && t.id != 0 by { RemovedOk(cfg, b, side, k); }
    ExecutePosts(cfg, b0, t, t.limit, qty, true);
  }

  lemma ModifyPosts(cfg: Config, b: Book, c: Command)
    requires BookOk(cfg, b)
    ensures PostAll(Open(b), ModifyOrder(cfg, b, c).events) == Some(Open(ModifyOrder(cfg, b, c).book))
  {
    if ModifyReject(cfg, b, c) == NoReason {
      var side := SideOf(b, c.orderId);
      var q := Resting(b, side);
      FindHit(q, c.orderId);
      var k := Find(q, c.orderId);
      RemovedOpen(cfg, b, side, k);
      var modified := ModifiedEvent(cfg.symbol, c.orderId, side, c.price, c.qty);
      if c.price == q[k].price && c.qty <= q[k].qty {
        ShrunkOpen(cfg, b, side, k, c.qty);
        PostAllCons(Open(b), modified, Open(b)[c.orderId := c.qty], []);
      } else {
        var t := Taker(cfg.symbol, c.orderId, q[k].owner, side, c.price, cfg.stp);
        ReenterPosts(cfg, b, side, k, t, c.qty);
        PostAllCons(Open(b), modified, Open(b)[c.orderId := c.qty],
                    Execute(cfg, WithResting(b, side, RemoveAt(q, k)), t, c.price, c.qty, true).events);
      }
    }
  }

  function Flatten(batches: seq<seq<Event>>): seq<Event> {
    if batches == [] then [] else Flatten(batches[..|batches| - 1]) + batches[|batches| - 1]
  }

  /** The same under either engine's rules. */
  lemma AnswerPosts(rules: Rules, cfg: Config, b: Book, c: Command)
    requires BookOk(cfg, b)
    ensures var z := Answer(rules, cfg, b, c);
      PostAll(Open(b), z.events) == Some(Open(z.book))
  {
    hide Apply, PostAll, BookOk, Answer;
    ApplyPosts(cfg, b, c);
    AnswerIs(rules, cfg, b, c);
    if Answer(rules, cfg, b, c) != Apply(cfg, b, c) {
      KilledPosts(cfg, b, c);
    }
  }

  lemma KilledPosts(cfg: Config, b: Book, c: Command)
    requires AddReject(cfg, b, c) == NoReason && c.kind == NewOrder
    ensures PostAll(Open(b), Killed(cfg, b, c).events) == Some(Open(b))
  {
    hide PostAll;
    var px := if c.ordType == Market then 0 else c.price;
    var accepted := AcceptedEvent(cfg.symbol, c.orderId, c.side, px, c.qty);
    var killed := CanceledEvent(cfg.symbol, c.orderId, c.side, px, c.qty, FokUnfilled);
    OpenHas(b, c.orderId);
    PostCancel(Open(b), cfg.symbol, c.orderId, c.side, px, c.qty, FokUnfilled);
    PostAllCons(Open(b), accepted, Open(b)[c.orderId := c.qty], [killed]);
    assert [accepted, killed] == [accepted] + [killed];
  }

  /** Over whole runs of either engine: the complete event stream, posted to nothing, is the open book. */
  lemma {:induction false} RunPosts(rules: Rules, cfg: Config, cmds: seq<Command>)
    ensures PostAll(map[], Flatten(RunOf(rules, cfg, cmds).events)) == Some(Open(RunOf(rules, cfg, cmds).book))
    decreases |cmds|
  {
    hide Answer, BookOk;
    if cmds != [] {
      var n := |cmds| - 1;
      var before := RunOf(rules, cfg, cmds[..n]);
      var last := Answer(rules, cfg, before.book, cmds[n]).events;
      RunPosts(rules, cfg, cmds[..n]);
      RunsOk(rules, cfg, cmds[..n]);
      RunStep(rules, cfg, cmds);
      AnswerPosts(rules, cfg, before.book, cmds[n]);
      assert RunOf(rules, cfg, cmds).events[..n] == before.events by { EventsBefore(rules, cfg, cmds); }
      PostAllConcat(map[], Flatten(before.events), last);
    } else {
      assert Open(EmptyBook) == map[];
    }
  }

  lemma EventsBefore(rules: Rules, cfg: Config, cmds: seq<Command>)
    requires cmds != []
    ensures var all, n := RunOf(rules, cfg, cmds).events, |cmds| - 1;
      |all| == n + 1 && all[..n] == RunOf(rules, cfg, cmds[..n]).events
  {
    hide Answer;
    RunStep(rules, cfg, cmds);
  }
}
