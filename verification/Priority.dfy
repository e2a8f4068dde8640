/** Price-time priority, stated against the event stream and against the history of the book. */
module Priority {
  import opened Types
  import opened BookSpec
  import opened BookInvariant
  import opened MissedFills
  import opened Ledger

  // ---- each trade takes the best order that is still open ----

  /** The maker of trade e is the first order of queue q still open in the balances l, and the limit
      reaches its price. */
  ghost predicate TakesFirst(q: seq<Order>, limit: int, l: Balances, e: Event) {
    exists j :: 0 <= j < |q| && TakesAt(q, limit, l, e, j)
  }

  ghost predicate TakesAt(q: seq<Order>, limit: int, l: Balances, e: Event, j: nat)
    requires j < |q|
  {
    && q[j].id == e.makerId && q[j].price == e.price && e.makerId in l
    && Reaches(e.side, limit, e.price)
    && forall i :: 0 <= i < j ==> q[i].id !in l
  }

  ghost predicate NoAccept(events: seq<Event>) {
    forall k :: 0 <= k < |events| ==> events[k].kind != Accepted
  }

  lemma {:induction false} SweepNoAccept(q: seq<Order>, t: Taker, qty: nat)
    ensures NoAccept(Sweep(q, t, qty).events)
    decreases |q|
  {
    if qty != 0 && q != [] && Reaches(t.side, t.limit, q[0].price) {
      SweepNoAccept(q[1..], t, qty);
      if q[0].qty <= qty {
        SweepNoAccept(q[1..], t, qty - q[0].qty);
      }
    }
  }

  /** Without Accepted events no balance appears. */
  lemma {:induction false} NothingOpens(l: Balances, events: seq<Event>, id: nat)
    requires NoAccept(events) && PostAll(l, events).Some? && id !in l
    ensures id !in PostAll(l, events).value
    decreases |events|
  {
    if events != [] {
      NothingOpens(Post(l, events[0]).value, events[1..], id);
    }
  }

  /** A run of events, its first k posted: how the balances stand just before event k. */
  ghost predicate Stands(l: Balances, events: seq<Event>, k: nat, m: Balances)
    requires k <= |events|
  {
    PostAll(l, events[..k]) == Some(m)
  }

  lemma StandsAfter(l: Balances, e: Event, m: Balances, events: seq<Event>, k: nat, n: Balances)
    requires Post(l, e) == Some(m) && k <= |events| && Stands(m, events, k, n)
    ensures Stands(l, [e] + events, k + 1, n)
  {
    assert ([e] + events)[..k + 1] == [e] + events[..k];
    PostAllCons(l, e, m, events[..k]);
  }

  /** Sweeping on past a head that has left the balances. */
  lemma TakesBehind(q: seq<Order>, limit: int, m: Balances, events: seq<Event>, k: nat, n: Balances)
    requires q != [] && k < |events| && NoAccept(events) && q[0].id !in m
    requires Stands(m, events, k, n) && TakesFirst(q[1..], limit, n, events[k])
    ensures TakesFirst(q, limit, n, events[k])
  {
    var j :| 0 <= j < |q[1..]| && TakesAt(q[1..], limit, n, events[k], j);
    NothingOpens(m, events[..k], q[0].id);
    forall i | 0 <= i < j + 1 ensures q[i].id !in n {
      assert i > 0 ==> q[i] == q[1..][i - 1];
    }
    assert TakesAt(q, limit, n, events[k], j + 1);
  }

  lemma {:induction false} SweepTakesFirst(rest: Balances, q: seq<Order>, t: Taker, qty: nat, k: nat)
    returns (m: Balances)
    requires UniqueIds(q) && Positive(q) && Apart(rest, q, t.id)
    requires k < |Sweep(q, t, qty).events|
    ensures Stands(During(rest, q, t.id, qty), Sweep(q, t, qty).events, k, m)
    ensures Sweep(q, t, qty).events[k].kind == Trade ==> TakesFirst(q, t.limit, m, Sweep(q, t, qty).events[k])
    decreases |q|, 2
  {
    hide TakesFirst, Stands;
    var o, tail := q[0], q[1..];
    var l, events := During(rest, q, t.id, qty), Sweep(q, t, qty).events;
    HeadOut(rest, q, t.id, 0);
    if t.stp != NoStp && o.owner == t.owner {
      m := SweepSelfTakesFirst(rest, q, t, qty, k);
    } else if k == 0 {
      FirstTakes(rest, q, t, qty);
      m := l;
    } else {
      SweepStep(q, t, qty);
      PostTrade(rest, q, t, qty, o.qty);
      m := SweepTakesFirst(rest, tail, t, qty - o.qty, k - 1);
      SweepBehind(rest, q, t, qty - o.qty, l, events[0], k - 1, m);
    }
  }

  lemma FirstTakes(rest: Balances, q: seq<Order>, t: Taker, qty: nat)
    requires UniqueIds(q) && Positive(q) && Apart(rest, q, t.id)
    requires Sweep(q, t, qty).events != [] && !(t.stp != NoStp && q[0].owner == t.owner)
    ensures var l, events := During(rest, q, t.id, qty), Sweep(q, t, qty).events;
      Stands(l, events, 0, l) && TakesFirst(q, t.limit, l, events[0])
  {
    var l, events := During(rest, q, t.id, qty), Sweep(q, t, qty).events;
    HeadOut(rest, q, t.id, 0);
    SweepStep(q, t, qty);
    assert TakesAt(q, t.limit, l, events[0], 0);
  }

  /** What holds k events into the sweep of the tail holds k + 1 events into [e] followed by it. */
  lemma SweepBehind(rest: Balances, q: seq<Order>, t: Taker, qty: nat, l: Balances, e: Event, k: nat, m: Balances)
    requires q != [] && UniqueIds(q) && Apart(rest, q, t.id)
    requires Post(l, e) == Some(During(rest, q[1..], t.id, qty))
    requires var events := Sweep(q[1..], t, qty).events;
      && k < |events| && Stands(During(rest, q[1..], t.id, qty), events, k, m)
      && (events[k].kind == Trade ==> TakesFirst(q[1..], t.limit, m, events[k]))
    ensures var events := [e] + Sweep(q[1..], t, qty).events;
      && Stands(l, events, k + 1, m)
      && (events[k + 1].kind == Trade ==> TakesFirst(q, t.limit, m, events[k + 1]))
  {
    var events := Sweep(q[1..], t, qty).events;
    HeadOut(rest, q, t.id, 0);
    SweepNoAccept(q[1..], t, qty);
    StandsAfter(l, e, During(rest, q[1..], t.id, qty), events, k, m);
    if events[k].kind == Trade {
      TakesBehind(q, t.limit, During(rest, q[1..], t.id, qty), events, k, m);
    }
  }

  lemma {:induction false} SweepSelfTakesFirst(rest: Balances, q: seq<Order>, t: Taker, qty: nat, k: nat)
    returns (m: Balances)
    requires UniqueIds(q) && Positive(q) && Apart(rest, q, t.id) && q != [] && qty > 0
    requires k < |SweepSelf(q, t, qty).events|
    ensures Stands(During(rest, q, t.id, qty), SweepSelf(q, t, qty).events, k, m)
    ensures SweepSelf(q, t, qty).events[k].kind == Trade ==> TakesFirst(q, t.limit, m, SweepSelf(q, t, qty).events[k])
    decreases |q|, 1
  {
    var o, tail := q[0], q[1..];
    var l, events := During(rest, q, t.id, qty), SweepSelf(q, t, qty).events;
    if k == 0 {
      m := l;
    } else if t.stp == DecrementCancel {
      m := SweepDecrementTakesFirst(rest, q, t, qty, k);
    } else {
      HeadOut(rest, q, t.id, 0);
      PostSelfCancel(rest, q, t, qty);
      m := SweepTakesFirst(rest, tail, t, qty, k - 1);
      SweepBehind(rest, q, t, qty, l, events[0], k - 1, m);
    }
  }

  lemma {:induction false} SweepDecrementTakesFirst(rest: Balances, q: seq<Order>, t: Taker, qty: nat, k: nat)
    returns (m: Balances)
    requires UniqueIds(q) && Positive(q) && Apart(rest, q, t.id) && q != [] && qty > 0
    requires t.stp == DecrementCancel && q[0].qty < qty && 0 < k < |SweepSelf(q, t, qty).events|
    ensures Stands(During(rest, q, t.id, qty), SweepSelf(q, t, qty).events, k, m)
    ensures SweepSelf(q, t, qty).events[k].kind == Trade ==> TakesFirst(q, t.limit, m, SweepSelf(q, t, qty).events[k])
    decreases |q|, 0
  {
    var o, tail := q[0], q[1..];
    var l, events := During(rest, q, t.id, qty), SweepSelf(q, t, qty).events;
    var l1, l2 := During(rest, tail, t.id, qty), During(rest, tail, t.id, qty - o.qty);
    hide TakesFirst, Stands;
    var later := [events[1]] + Sweep(tail, t, qty - o.qty).events;
    assert events == [events[0]] + later;
    HeadOut(rest, q, t.id, 0);
    PostSelfCancel(rest, q, t, qty);
    assert l1[t.id := qty - o.qty] == l2;
    if k == 1 {
      m := l1;
    } else {
      m := SweepTakesFirst(rest, tail, t, qty - o.qty, k - 2);
      SweepBehind(rest, q, t, qty - o.qty, l1, events[1], k - 2, m);
    }
    StandsAfter(l, events[0], l1, later, k - 1, m);
  }

  /** Event k of the stream takes the first order of q still open at that point. */
  ghost predicate TakesFirstAt(l: Balances, events: seq<Event>, k: nat, q: seq<Order>, limit: int)
    requires k < |events|
  {
    exists m :: Stands(l, events, k, m) && TakesFirst(q, limit, m, events[k])
  }

  /** Every trade of an executed order takes, at that instant, the first order still open on the
      opposite side; balances are the event stream's own. */
  lemma ExecuteTakesFirst(cfg: Config, b: Book, t: Taker, px: int, qty: nat, mayRest: bool, k: nat)
    requires BookOk(cfg, b) && !Contains(b, t.id) && qty > 0
    requires k < |Execute(cfg, b, t, px, qty, mayRest).events|
    requires Execute(cfg, b, t, px, qty, mayRest).events[k].kind == Trade
    ensures TakesFirstAt(Open(b)[t.id := qty], Execute(cfg, b, t, px, qty, mayRest).events, k,
                         Resting(b, Opposite(t.side)), t.limit)
  {
    var own, q := Resting(b, t.side), Resting(b, Opposite(t.side));
    var events, all := Sweep(q, t, qty).events, Execute(cfg, b, t, px, qty, mayRest).events;
    assert k < |events| && all[..k] == events[..k] && all[k] == events[k];
    OpenBySide(b, t.side);
    OpenInHas(own, t.id);
    OpenInHas(q, t.id);
    assert Open(b)[t.id := qty] == During(OpenIn(own), q, t.id, qty);
    var m := SweepTakesFirst(OpenIn(own), q, t, qty, k);
    assert Stands(Open(b)[t.id := qty], all, k, m);
  }

  /** The limit under which a command executes. */
  function ExecutionLimit(cfg: Config, c: Command): int {
    if c.kind == NewOrder then LimitOf(cfg, c) else c.price
  }

  lemma ShiftOne(l: Balances, e: Event, l1: Balances, events: seq<Event>, k: nat, q: seq<Order>, limit: int)
    requires Post(l, e) == Some(l1) && k < |events|
    requires TakesFirstAt(l1, events, k, q, limit)
    ensures TakesFirstAt(l, [e] + events, k + 1, q, limit)
  {
    var m :| Stands(l1, events, k, m) && TakesFirst(q, limit, m, events[k]);
    StandsAfter(l, e, l1, events, k, m);
    assert ([e] + events)[k + 1] == events[k];
  }

  /** Price-time priority of every command on every sound book: each trade's maker is the first order
      of the opposite side's queue that the events before it have left open, within the limit. */
  lemma TradesTakeFirst(cfg: Config, b: Book, c: Command, k: nat)
    requires BookOk(cfg, b) && k < |Apply(cfg, b, c).events| && Apply(cfg, b, c).events[k].kind == Trade
    ensures var events := Apply(cfg, b, c).events;
      TakesFirstAt(Open(b), events, k, Resting(b, Opposite(events[k].side)), ExecutionLimit(cfg, c))
  {
    match c.kind
    case NewOrder => AddTakesFirst(cfg, b, c, k);
    case Cancel =>
    case Modify => ModifyTakesFirst(cfg, b, c, k);
  }

  ghost predicate TradesOn(events: seq<Event>, side: Side) {
    forall k :: 0 <= k < |events| && events[k].kind == Trade ==> events[k].side == side
  }

  lemma {:induction false} SweepSides(q: seq<Order>, t: Taker, qty: nat)
    ensures TradesOn(Sweep(q, t, qty).events, t.side)
    decreases |q|
  {
    if qty != 0 && q != [] && Reaches(t.side, t.limit, q[0].price) {
      SweepSides(q[1..], t, qty);
      if q[0].qty <= qty {
        SweepSides(q[1..], t, qty - q[0].qty);
      }
    }
  }

  lemma AddTakesFirst(cfg: Config, b: Book, c: Command, k: nat)
    requires BookOk(cfg, b) && k < |Add(cfg, b, c).events| && Add(cfg, b, c).events[k].kind == Trade
    ensures var events := Add(cfg, b, c).events;
      TakesFirstAt(Open(b), events, k, Resting(b, Opposite(events[k].side)), LimitOf(cfg, c))
  {
    var px := if c.ordType == Market then 0 else c.price;
    var t := AddTaker(cfg, c);
    var rests := c.ordType == Limit && c.tif == Day;
    var z := Execute(cfg, b, t, px, c.qty, rests);
    OpenHas(b, c.orderId);
    SweepSides(Resting(b, Opposite(t.side)), t, c.qty);
    assert Add(cfg, b, c).events == [AcceptedEvent(cfg.symbol, c.orderId, c.side, px, c.qty)] + z.events;
    assert z.events[k - 1].kind == Trade && z.events[k - 1].side == t.side;
    ExecuteTakesFirst(cfg, b, t, px, c.qty, rests, k - 1);
    ShiftOne(Open(b), AcceptedEvent(cfg.symbol, c.orderId, c.side, px, c.qty), Open(b)[c.orderId := c.qty], z.events,
             k - 1, Resting(b, Opposite(t.side)), t.limit);
  }

  lemma ReenterTakesFirst(cfg: Config, b: Book, side: Side, i: nat, t: Taker, qty: nat, k: nat)
    requires BookOk(cfg, b) && i < |Resting(b, side)| && Resting(b, side)[i].id == t.id && t.side == side && qty > 0
    requires var z := Execute(cfg, WithResting(b, side, RemoveAt(Resting(b, side), i)), t, t.limit, qty, true);
      k < |z.events| && z.events[k].kind == Trade
    ensures var z := Execute(cfg, WithResting(b, side, RemoveAt(Resting(b, side), i)), t, t.limit, qty, true);
      z.events[k].side == side
      && TakesFirstAt(Open(b)[t.id := qty], z.events, k, Resting(b, Opposite(side)), t.limit)
  {
    var b0 := WithResting(b, side, RemoveAt(Resting(b, side), i));
    assert BookOk(cfg, b0) && !Contains(b0, t.id) by { RemovedOk(cfg, b, side, i); }
    assert Open(b0)[t.id := qty] == Open(b)[t.id := qty] by { RemovedOpen(cfg, b, side, i); }
    SweepSides(Resting(b0, Opposite(side)), t, qty);
    ExecuteTakesFirst(cfg, b0, t, t.limit, qty, true, k);
  }

  lemma ModifyTakesFirst(cfg: Config, b: Book, c: Command, k: nat)
    requires BookOk(cfg, b) && k < |ModifyOrder(cfg, b, c).events| && ModifyOrder(cfg, b, c).events[k].kind == Trade
    ensures var events := ModifyOrder(cfg, b, c).events;
      TakesFirstAt(Open(b), events, k, Resting(b, Opposite(events[k].side)), c.price)
  {
    var side := SideOf(b, c.orderId);
    var q := Resting(b, side);
    FindHit(q, c.orderId);
    var i := Find(q, c.orderId);
    var t := Taker(cfg.symbol, c.orderId, q[i].owner, side, c.price, cfg.stp);
    var z := Execute(cfg, WithResting(b, side, RemoveAt(q, i)), t, c.price, c.qty, true);
    var modified := ModifiedEvent(cfg.symbol, c.orderId, side, c.price, c.qty);
    assert ModifyOrder(cfg, b, c).events == [modified] + z.events;
    ReenterTakesFirst(cfg, b, side, i, t, c.qty, k - 1);
    assert c.orderId in Open(b) by { RemovedOpen(cfg, b, side, i); }
    ShiftOne(Open(b), modified, Open(b)[c.orderId := c.qty], z.events, k - 1, Resting(b, Opposite(side)), c.price);
  }

  // ---- the queues are in order of price, then of how long each order has held its place ----

  predicate Shrinks(b: Book, c: Command)
    requires Contains(b, c.orderId)
  {
    var q := Resting(b, SideOf(b, c.orderId));
    FindHit(q, c.orderId);
    var o := q[Find(q, c.orderId)];
    c.price == o.price && c.qty <= o.qty
  }

  /** Does this command, which leaves the book `after`, put its order at the back of a queue? */
  predicate Enters(cfg: Config, b: Book, c: Command, after: Book) {
    && Contains(after, c.orderId)
    && match c.kind
       case NewOrder => AddReject(cfg, b, c) == NoReason
       case Cancel => false
       case Modify => ModifyReject(cfg, b, c) == NoReason && !Shrinks(b, c)
  }

  /** For every id, the last command that put it at the back of a queue. */
  function EntryTimes(rules: Rules, cfg: Config, cmds: seq<Command>): map<nat, nat> {
    if cmds == [] then map[]
    else
      var n := |cmds| - 1;
      var before := EntryTimes(rules, cfg, cmds[..n]);
      var book := RunOf(rules, cfg, cmds[..n]).book;
      var after := Answer(rules, cfg, book, cmds[n]).book;
      if Enters(cfg, book, cmds[n], after) then before[cmds[n].orderId := n] else before
  }

  /** Strictly in order of price, then of entry. */
  ghost predicate Ranked(side: Side, q: seq<Order>, times: map<nat, nat>, now: nat) {
    && (forall k :: 0 <= k < |q| ==> q[k].id in times && times[q[k].id] < now)
    && forall i, j :: 0 <= i < j < |q| ==>
         Better(side, q[i].price, q[j].price) || (q[i].price == q[j].price && times[q[i].id] < times[q[j].id])
  }

  lemma RankedConsumed(side: Side, q: seq<Order>, r: seq<Order>, times: map<nat, nat>, now: nat)
    requires Ranked(side, q, times, now) && Consumed(q, r)
    ensures Ranked(side, r, times, now)
  {
    var d := |q| - |r|;
    assert forall k :: 0 <= k < |r| ==> r[k].id == q[k + d].id && r[k].price == q[k + d].price;
  }

  lemma RankedRemove(side: Side, q: seq<Order>, k: nat, times: map<nat, nat>, now: nat)
    requires Ranked(side, q, times, now) && k < |q|
    ensures Ranked(side, RemoveAt(q, k), times, now)
  {
    var r := RemoveAt(q, k);
    assert forall i :: 0 <= i < |r| ==> r[i] == q[if i < k then i else i + 1];
  }

  /** A later clock, and a new time for an id that is not in the queue, change nothing. */
  lemma RankedLater(side: Side, q: seq<Order>, times: map<nat, nat>, now: nat, id: nat)
    requires Ranked(side, q, times, now) && !HasId(q, id)
    ensures Ranked(side, q, times, now + 1) && Ranked(side, q, times[id := now], now + 1)
  {
    assert forall k :: 0 <= k < |q| ==> q[k].id != id;
  }

  lemma RankedPlaced(side: Side, q: seq<Order>, o: Order, p: nat, r: seq<Order>, times: map<nat, nat>, now: nat)
    requires Ranked(side, q, times[o.id := now], now + 1) && Placed(side, q, o, p, r)
    requires Ranked(side, q, times, now) && !HasId(q, o.id)
    ensures Ranked(side, r, times[o.id := now], now + 1)
  {
    assert forall k :: 0 <= k < |q| ==> q[k].id != o.id;
    assert forall i :: 0 <= i < |r| ==> r[i] == if i < p then q[i] else if i == p then o else q[i - 1];
    forall i, j | 0 <= i < j < |r|
      ensures Better(side, r[i].price, r[j].price)
        || (r[i].price == r[j].price && times[o.id := now][r[i].id] < times[o.id := now][r[j].id])
    {
      if i != p && j != p {
        assert r[i] == q[if i < p then i else i - 1] && r[j] == q[if j < p then j else j - 1];
      }
    }
  }

  ghost predicate BookRanked(b: Book, times: map<nat, nat>, now: nat) {
    Ranked(Buy, b.bids, times, now) && Ranked(Sell, b.asks, times, now)
  }

  /** The entry times after an execution at time `now`. */
  lemma ExecuteRanked(cfg: Config, b: Book, t: Taker, px: int, qty: nat, mayRest: bool, times: map<nat, nat>, now: nat)
    requires BookOk(cfg, b) && !Contains(b, t.id) && BookRanked(b, times, now)
    ensures var z := Execute(cfg, b, t, px, qty, mayRest).book;
      BookRanked(z, if Contains(z, t.id) then times[t.id := now] else times, now + 1)
  {
    var r := Sweep(Resting(b, Opposite(t.side)), t, qty);
    var b1 := WithResting(b, Opposite(t.side), r.queue);
    SweptRanked(cfg, b, t, qty, times, now);
    RestRanked(cfg, b1, t.side, Order(t.id, r.left, t.owner, t.limit), times, now);
  }

  lemma SweptRanked(cfg: Config, b: Book, t: Taker, qty: nat, times: map<nat, nat>, now: nat)
    requires BookOk(cfg, b) && !Contains(b, t.id) && BookRanked(b, times, now)
    ensures var b1 := WithResting(b, Opposite(t.side), Sweep(Resting(b, Opposite(t.side)), t, qty).queue);
      !Contains(b1, t.id) && BookRanked(b1, times, now) && Sorted(t.side, Resting(b1, t.side))
  {
    var opp := Opposite(t.side);
    var q := Resting(b, opp);
    SweepShape(q, t, qty);
    ConsumedSideOk(cfg, opp, q, Sweep(q, t, qty).queue);
    RankedConsumed(opp, q, Sweep(q, t, qty).queue, times, now);
  }

  lemma RestRanked(cfg: Config, b: Book, side: Side, o: Order, times: map<nat, nat>, now: nat)
    requires !Contains(b, o.id) && BookRanked(b, times, now) && Sorted(side, Resting(b, side))
    ensures var z := Rest(cfg, b, side, o).book;
      && BookRanked(z, if Contains(z, o.id) then times[o.id := now] else times, now + 1)
    ensures BookRanked(b, times, now + 1)
  {
    hide Ranked, Placed, Insert, Place, HasId;
    assert !HasId(Resting(b, side), o.id) && !HasId(Resting(b, Opposite(side)), o.id);
    var q := Resting(b, side);
    InsertPlaced(side, q, o);
    PlacedIds(side, q, o, Place(q, side, o.price), Insert(q, side, o));
    RankedLater(side, q, times, now, o.id);
    RankedLater(Opposite(side), Resting(b, Opposite(side)), times, now, o.id);
    RankedPlaced(side, q, o, Place(q, side, o.price), Insert(q, side, o), times, now);
  }

  lemma ApplyRanked(cfg: Config, b: Book, c: Command, times: map<nat, nat>, now: nat)
    requires BookOk(cfg, b) && BookRanked(b, times, now)
    ensures BookRanked(Apply(cfg, b, c).book,
                       if Enters(cfg, b, c, Apply(cfg, b, c).book) then times[c.orderId := now] else times, now + 1)
  {
    match c.kind
    case NewOrder =>
      AddRanked(cfg, b, c, times, now);
    case Cancel =>
      if Contains(b, c.orderId) {
        var side := SideOf(b, c.orderId);
        FindHit(Resting(b, side), c.orderId);
        RankedRemove(side, Resting(b, side), Find(Resting(b, side), c.orderId), times, now);
      }
    case Modify =>
      if ModifyReject(cfg, b, c) == NoReason {
        ModifyRanked(cfg, b, c, times, now);
      }
  }

  lemma AddRanked(cfg: Config, b: Book, c: Command, times: map<nat, nat>, now: nat)
    requires BookOk(cfg, b) && BookRanked(b, times, now) && c.kind == NewOrder
    ensures BookRanked(Add(cfg, b, c).book,
                       if Enters(cfg, b, c, Add(cfg, b, c).book) then times[c.orderId := now] else times, now + 1)
  {
    if AddReject(cfg, b, c) == NoReason {
      var px := if c.ordType == Market then 0 else c.price;
      ExecuteRanked(cfg, b, AddTaker(cfg, c), px, c.qty, c.ordType == Limit && c.tif == Day, times, now);
    }
  }

  lemma ModifyRanked(cfg: Config, b: Book, c: Command, times: map<nat, nat>, now: nat)
    requires BookOk(cfg, b) && BookRanked(b, times, now)
    requires c.kind == Modify && ModifyReject(cfg, b, c) == NoReason
    ensures BookRanked(Apply(cfg, b, c).book,
                       if Enters(cfg, b, c, Apply(cfg, b, c).book) then times[c.orderId := now] else times, now + 1)
  {
    var side := SideOf(b, c.orderId);
    var q := Resting(b, side);
    FindHit(q, c.orderId);
    var k := Find(q, c.orderId);
    if Shrinks(b, c) {
      var q' := q[k := q[k].(qty := c.qty)];
      assert forall i :: 0 <= i < |q| ==> q'[i].id == q[i].id && q'[i].price == q[i].price;
    } else {
      var b0 := WithResting(b, side, RemoveAt(q, k));
      assert BookOk(cfg, b0) && !Contains(b0, c.orderId) by { RemovedOk(cfg, b, side, k); }
      RankedRemove(side, q, k, times, now);
      ExecuteRanked(cfg, b0, Taker(cfg.symbol, c.orderId, q[k].owner, side, c.price, cfg.stp), c.price, c.qty, true,
                    times, now);
    }
  }

  /** The same under either engine's rules: a killed fill moves nothing. */
  lemma AnswerRanked(rules: Rules, cfg: Config, b: Book, c: Command, times: map<nat, nat>, now: nat)
    requires BookOk(cfg, b) && BookRanked(b, times, now)
    ensures var after := Answer(rules, cfg, b, c).book;
      BookRanked(after, if Enters(cfg, b, c, after) then times[c.orderId := now] else times, now + 1)
  {
    hide Apply, FastApply, BookRanked, BookOk, AddReject, Shrinks, ModifyReject;
    ApplyRanked(cfg, b, c, times, now);
    AnswerIs(rules, cfg, b, c);
    if Answer(rules, cfg, b, c) != Apply(cfg, b, c) {
      NotResting(cfg, b, c);
      RankedOn(b, times, now);
    }
  }

  lemma NotResting(cfg: Config, b: Book, c: Command)
    requires c.kind == NewOrder
    ensures AddReject(cfg, b, c) == NoReason ==> !Contains(b, c.orderId)
  {
  }

  lemma RankedOn(b: Book, times: map<nat, nat>, now: nat)
    requires BookRanked(b, times, now)
    ensures BookRanked(b, times, now + 1)
  {
  }

  /** Over whole runs of either engine: both queues are strictly ordered by price and then by how long each
      order has held its place, where only resting anew or re-entering loses the place. */
  lemma {:induction false} RunRanked(rules: Rules, cfg: Config, cmds: seq<Command>)
    ensures BookRanked(RunOf(rules, cfg, cmds).book, EntryTimes(rules, cfg, cmds), |cmds|)
    decreases |cmds|
  {
    hide Answer, Enters, BookOk;
    if cmds != [] {
      var n := |cmds| - 1;
      RunRanked(rules, cfg, cmds[..n]);
      RunsOk(rules, cfg, cmds[..n]);
      RunStep(rules, cfg, cmds);
      AnswerRanked(rules, cfg, RunOf(rules, cfg, cmds[..n]).book, cmds[n], EntryTimes(rules, cfg, cmds[..n]), n);
    }
  }

  // ---- over runs, each trade takes the best price and at it the longest wait ----

  /** The maker of trade e is open in the balances l, the limit reaches its price, and of all orders of the
      queue still open it alone has the best price and, at that price, the earliest entry. */
  ghost predicate TakesBest(side: Side, q: seq<Order>, limit: int, times: map<nat, nat>, l: Balances, e: Event) {
    exists j :: 0 <= j < |q| && BestAt(side, q, limit, times, l, e, j)
  }

  ghost predicate BestAt(side: Side, q: seq<Order>, limit: int, times: map<nat, nat>, l: Balances, e: Event, j: nat)
    requires j < |q|
  {
    && q[j].id == e.makerId && e.makerId in l && q[j].price == e.price && Reaches(e.side, limit, e.price)
    && forall i :: 0 <= i < |q| && i != j && q[i].id in l ==> GoesBefore(side, q[j], q[i], times)
  }

  predicate GoesBefore(side: Side, o: Order, x: Order, times: map<nat, nat>) {
    || Better(side, o.price, x.price)
    || (o.price == x.price && o.id in times && x.id in times && times[o.id] < times[x.id])
  }

  lemma FirstIsBest(side: Side, q: seq<Order>, limit: int, times: map<nat, nat>, now: nat, l: Balances, e: Event)
    requires Ranked(side, q, times, now) && TakesFirst(q, limit, l, e)
    ensures TakesBest(side, q, limit, times, l, e)
  {
    var j :| 0 <= j < |q| && TakesAt(q, limit, l, e, j);
    assert BestAt(side, q, limit, times, l, e, j);
  }

  /** A killed fill trades nothing. */
  lemma AnswerTakesFirst(rules: Rules, cfg: Config, b: Book, c: Command, k: nat)
    requires var events := Answer(rules, cfg, b, c).events;
      BookOk(cfg, b) && k < |events| && events[k].kind == Trade
    ensures var events := Answer(rules, cfg, b, c).events;
      TakesFirstAt(Open(b), events, k, Resting(b, Opposite(events[k].side)), ExecutionLimit(cfg, c))
  {
    hide Apply, FastApply, AddReject;
    AnswerIs(rules, cfg, b, c);
    TradesTakeFirst(cfg, b, c, k);
  }

  /** Price-time priority of every trade of every run of either engine: posting all events before the trade,
      from the first of the run on, gives balances in which its maker goes before every other opposite order
      still open, by price and then by the command that last put each at the back of a queue. */
  lemma TradesTakeBest(rules: Rules, cfg: Config, cmds: seq<Command>, c: Command, k: nat)
    requires var events := Answer(rules, cfg, RunOf(rules, cfg, cmds).book, c).events;
      k < |events| && events[k].kind == Trade
    ensures var before := RunOf(rules, cfg, cmds);
      var events := Answer(rules, cfg, before.book, c).events;
      var l, opp := PostAll(map[], Flatten(before.events) + events[..k]), Opposite(events[k].side);
      && l.Some?
      && TakesBest(opp, Resting(before.book, opp), ExecutionLimit(cfg, c), EntryTimes(rules, cfg, cmds), l.value,
                   events[k])
  {
    hide Answer, TakesFirst, TakesBest, RunOf;
    var before := RunOf(rules, cfg, cmds);
    var events := Answer(rules, cfg, before.book, c).events;
    var opp := Opposite(events[k].side);
    RunsOk(rules, cfg, cmds);
    RunPosts(rules, cfg, cmds);
    RunRanked(rules, cfg, cmds);
    AnswerTakesFirst(rules, cfg, before.book, c, k);
    var q, limit := Resting(before.book, opp), ExecutionLimit(cfg, c);
    var m :| Stands(Open(before.book), events, k, m) && TakesFirst(q, limit, m, events[k]);
    PostAllConcat(map[], Flatten(before.events), events[..k]);
    FirstIsBest(opp, q, limit, EntryTimes(rules, cfg, cmds), |cmds|, m, events[k]);
  }
}
