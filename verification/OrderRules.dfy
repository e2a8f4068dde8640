/** What becomes of each order, told from the commands: whose an order is, when two orders of one owner meet, what
    a market, post-only or short-lived order may do, and which commands are refused. */
module OrderRules {
  import opened Types
  import opened BookSpec
  import opened BookInvariant
  import opened MissedFills

  // ---- the flags ----

  /** Bit 0 of the flags is post-only; bits 1 and 2 are the self-trade mode, the book's own when both are zero. */
  function ModeOf(flags: nat, own: Stp): Stp {
    var low := flags % 8;
    if low == 2 || low == 3 then CancelResting
    else if low == 4 || low == 5 then CancelIncoming
    else if low == 6 || low == 7 then DecrementCancel
    else own
  }

  lemma FlagBits(flags: nat, own: Stp)
    ensures EffectiveStp(flags, own) == ModeOf(flags, own)
    ensures PostOnly(flags) <==> flags % 8 == 1 || flags % 8 == 3 || flags % 8 == 5 || flags % 8 == 7
  {
    assert flags == 8 * (flags / 8) + flags % 8;
    assert flags / 2 == 4 * (flags / 8) + flags % 8 / 2;
  }

  // ---- when two orders of one owner meet ----

  /** What is left of the incoming order x after these events, told from them alone. */
  function LeftAfter(left: nat, events: seq<Event>, x: nat): nat
    decreases |events|
  {
    if events == [] then left else LeftAfter(LeftOne(left, events[0], x), events[1..], x)
  }

  function LeftOne(left: nat, e: Event, x: nat): nat {
    if e.kind == Trade then (if e.qty <= left then left - e.qty else 0)
    else if (e.kind == Accepted || e.kind == Modified) && e.orderId == x then e.qty
    else left
  }

  /** The incoming order, made smaller by self-trade prevention. */
  ghost predicate Lessened(e: Event, x: nat, qty: nat) {
    e.kind == Modified && e.orderId == x && e.reason == SelfTrade && e.qty == qty && qty > 0
  }

  /** An order canceled whole by self-trade prevention. */
  ghost predicate Struck(e: Event, id: nat, qty: nat) {
    e.kind == Canceled && e.orderId == id && e.reason == SelfTrade && e.qty == qty
  }

  /** The incoming order, with `mine` left, has met a resting one of its owner with `own` left: event k of the sweep
      and what follows are as the mode has it. */
  ghost predicate Met(t: Taker, mine: nat, id: nat, own: nat, r: SweepResult, k: nat)
    requires k < |r.events|
  {
    match t.stp
    case NoStp => false
    case CancelIncoming => false
    case CancelResting => Struck(r.events[k], id, own)
    case DecrementCancel =>
      if own < mine then
        Struck(r.events[k], id, own) && k + 1 < |r.events| && Lessened(r.events[k + 1], t.id, mine - own)
      else
        && k + 1 == |r.events| && r.stop && r.left == mine
        && if own == mine then Struck(r.events[k], id, own) else Lessened(r.events[k], id, own - mine)
  }

  /** An order of the queue that is the taker's owner's own, within the taker's limit. */
  ghost predicate OwnOf(q: seq<Order>, t: Taker, j: nat, e: Event) {
    && j < |q| && q[j].id == e.orderId && q[j].owner == t.owner && q[j].price == e.price
    && Reaches(t.side, t.limit, e.price)
  }

  /** A trade is with an order of the queue, and under prevention not with an own one. */
  ghost predicate TradeRight(q: seq<Order>, t: Taker, e: Event) {
    && e.reason == NoReason && e.orderId == t.id
    && exists j :: 0 <= j < |q| && q[j].id == e.makerId && (t.stp == NoStp || q[j].owner != t.owner)
  }

  /** Event k of the sweep of q: a trade is never with an own order under prevention, and an event of self-trade
      prevention is one order's or the other's part of such a meeting. */
  ghost predicate SweptRight(q: seq<Order>, t: Taker, qty: nat, r: SweepResult, k: nat)
    requires k < |r.events|
  {
    var e, mine := r.events[k], LeftAfter(qty, r.events[..k], t.id);
    && (e.kind == Trade ==> TradeRight(q, t, e))
    && (e.reason == SelfTrade && e.orderId == t.id ==>
          t.stp == DecrementCancel && k > 0 && SecondOf(r.events, k, t.id, mine))
    && (e.reason == SelfTrade && e.orderId != t.id ==>
          exists j :: 0 <= j < |q| && OwnOf(q, t, j, e) && Met(t, mine, e.orderId, q[j].qty, r, k))
  }

  /** The event before struck another order, and this one takes that much off the incoming order. */
  ghost predicate SecondOf(events: seq<Event>, k: nat, x: nat, mine: nat)
    requires 0 < k < |events|
  {
    && events[k - 1].orderId != x && Struck(events[k - 1], events[k - 1].orderId, events[k - 1].qty)
    && events[k - 1].qty < mine && Lessened(events[k], x, mine - events[k - 1].qty)
  }

  ghost predicate NotIn(q: seq<Order>, id: nat) {
    forall i :: 0 <= i < |q| ==> q[i].id != id
  }

  /** What holds of the sweep of the tail holds behind one more event. */
  lemma SweptBehind(q: seq<Order>, t: Taker, qty: nat, e: Event, left: nat, r: SweepResult, k: nat)
    requires q != [] && k < |r.events| && left == LeftOne(qty, e, t.id) && SweptRight(q[1..], t, left, r, k)
    ensures SweptRight(q, t, qty, r.(events := [e] + r.events), k + 1)
  {
    var r' := r.(events := [e] + r.events);
    assert r'.events[..k + 1] == [e] + r.events[..k];
    assert ([e] + r.events[..k])[1..] == r.events[..k];
    assert LeftAfter(qty, r'.events[..k + 1], t.id) == LeftAfter(left, r.events[..k], t.id);
    var f, mine := r.events[k], LeftAfter(left, r.events[..k], t.id);
    if f.kind == Trade {
      var j :| 0 <= j < |q[1..]| && q[1..][j].id == f.makerId && (t.stp == NoStp || q[1..][j].owner != t.owner);
      assert q[j + 1] == q[1..][j];
    }
    if f.reason == SelfTrade && f.orderId != t.id {
      var j :| 0 <= j < |q[1..]| && OwnOf(q[1..], t, j, f) && Met(t, mine, f.orderId, q[1..][j].qty, r, k);
      assert q[j + 1] == q[1..][j] && OwnOf(q, t, j + 1, f);
      assert k + 1 < |r.events| ==> r'.events[k + 2] == r.events[k + 1];
      assert Met(t, mine, f.orderId, q[j + 1].qty, r', k + 1);
    }
  }

  lemma {:induction false} SweepRight(q: seq<Order>, t: Taker, qty: nat, k: nat)
    requires NotIn(q, t.id) && Positive(q) && k < |Sweep(q, t, qty).events|
    ensures SweptRight(q, t, qty, Sweep(q, t, qty), k)
    decreases |q|, 1
  {
    hide SweptRight, LeftAfter;
    var o, r := q[0], Sweep(q, t, qty);
    if t.stp != NoStp && o.owner == t.owner {
      SelfRight(q, t, qty, k);
    } else {
      var fill := if o.qty > qty then qty else o.qty;
      var e := TradeEvent(t.symbol, t.id, o.id, t.side, o.price, fill, o.qty - fill);
      if k == 0 {
        FirstTradeRight(q, t, qty);
      } else {
        var rest := Sweep(q[1..], t, qty - fill);
        assert r == rest.(events := [e] + rest.events);
        SweepRight(q[1..], t, qty - fill, k - 1);
        SweptBehind(q, t, qty, e, qty - fill, rest, k - 1);
      }
    }
  }

  lemma FirstTradeRight(q: seq<Order>, t: Taker, qty: nat)
    requires Sweep(q, t, qty).events != [] && !(t.stp != NoStp && q[0].owner == t.owner)
    ensures SweptRight(q, t, qty, Sweep(q, t, qty), 0)
  {
    assert Sweep(q, t, qty).events[0].makerId == q[0].id;
  }

  lemma {:induction false} SelfRight(q: seq<Order>, t: Taker, qty: nat, k: nat)
    requires NotIn(q, t.id) && Positive(q) && q != [] && qty > 0 && q[0].owner == t.owner && t.stp != NoStp
    requires Reaches(t.side, t.limit, q[0].price) && k < |SweepSelf(q, t, qty).events|
    ensures SweptRight(q, t, qty, SweepSelf(q, t, qty), k)
    decreases |q|, 0
  {
    hide SweptRight, LeftAfter;
    var o, r := q[0], SweepSelf(q, t, qty);
    var gone := CanceledEvent(t.symbol, o.id, Opposite(t.side), o.price, o.qty, SelfTrade);
    if k == 0 {
      FirstRight(q, t, qty);
    } else if t.stp == DecrementCancel {
      var less := StpDecrementEvent(t.symbol, t.id, t.side, t.limit, qty - o.qty);
      var rest := Sweep(q[1..], t, qty - o.qty);
      var mid := rest.(events := [less] + rest.events);
      assert r.events == [gone] + mid.events && r == mid.(events := [gone] + mid.events);
      if k == 1 {
        SecondRight(q, t, qty);
      } else {
        SweepRight(q[1..], t, qty - o.qty, k - 2);
        SweptOn(q[1..], t, qty, less, qty - o.qty, rest, k - 2);
        SweptBehind(q, t, qty, gone, qty, mid, k - 1);
      }
    } else {
      var rest := Sweep(q[1..], t, qty);
      assert r == rest.(events := [gone] + rest.events);
      SweepRight(q[1..], t, qty, k - 1);
      SweptBehind(q, t, qty, gone, qty, rest, k - 1);
    }
  }

  /** As SweptBehind, the queue as it is. */
  lemma SweptOn(q: seq<Order>, t: Taker, qty: nat, e: Event, left: nat, r: SweepResult, k: nat)
    requires k < |r.events| && left == LeftOne(qty, e, t.id) && SweptRight(q, t, left, r, k)
    ensures SweptRight(q, t, qty, r.(events := [e] + r.events), k + 1)
  {
    var r' := r.(events := [e] + r.events);
    assert r'.events[..k + 1] == [e] + r.events[..k];
    assert ([e] + r.events[..k])[1..] == r.events[..k];
    assert LeftAfter(qty, r'.events[..k + 1], t.id) == LeftAfter(left, r.events[..k], t.id);
    var f, mine := r.events[k], LeftAfter(left, r.events[..k], t.id);
    if f.reason == SelfTrade && f.orderId != t.id {
      var j :| 0 <= j < |q| && OwnOf(q, t, j, f) && Met(t, mine, f.orderId, q[j].qty, r, k);
      assert k + 1 < |r.events| ==> r'.events[k + 2] == r.events[k + 1];
      assert Met(t, mine, f.orderId, q[j].qty, r', k + 1);
    }
  }

  lemma FirstRight(q: seq<Order>, t: Taker, qty: nat)
    requires NotIn(q, t.id) && Positive(q) && q != [] && qty > 0 && q[0].owner == t.owner && t.stp != NoStp
    requires Reaches(t.side, t.limit, q[0].price) && SweepSelf(q, t, qty).events != []
    ensures SweptRight(q, t, qty, SweepSelf(q, t, qty), 0)
  {
    var o, r := q[0], SweepSelf(q, t, qty);
    assert r.events[..0] == [];
    assert OwnOf(q, t, 0, r.events[0]);
    assert Met(t, qty, o.id, o.qty, r, 0);
  }

  lemma SecondRight(q: seq<Order>, t: Taker, qty: nat)
    requires NotIn(q, t.id) && Positive(q) && q != [] && qty > 0 && q[0].owner == t.owner
    requires t.stp == DecrementCancel && |SweepSelf(q, t, qty).events| > 1
    ensures SweptRight(q, t, qty, SweepSelf(q, t, qty), 1)
  {
    var r := SweepSelf(q, t, qty);
    assert r.events[..1] == [r.events[0]] && [r.events[0]][1..] == [];
    assert LeftAfter(qty, r.events[..1], t.id) == qty;
  }

  /** A sweep is stopped only by an own order: under CancelIncoming one that still stands first within the limit,
      under DecrementCancel one at least as large, struck or lessened by the last event. */
  lemma {:induction false} StopMeans(q: seq<Order>, t: Taker, qty: nat)
    requires NotIn(q, t.id) && Sweep(q, t, qty).stop
    ensures var r := Sweep(q, t, qty);
      && (t.stp == CancelIncoming || t.stp == DecrementCancel)
      && (t.stp == CancelIncoming ==>
            r.queue != [] && r.queue[0].owner == t.owner && Reaches(t.side, t.limit, r.queue[0].price))
      && (t.stp == DecrementCancel ==>
            r.events != [] && r.events[|r.events| - 1].reason == SelfTrade
            && r.events[|r.events| - 1].orderId != t.id)
    decreases |q|
  {
    var o := q[0];
    if t.stp != NoStp && o.owner == t.owner {
      if t.stp == CancelResting {
        StopMeans(q[1..], t, qty);
      } else if t.stp == DecrementCancel && o.qty < qty {
        StopMeans(q[1..], t, qty - o.qty);
      }
    } else if o.qty <= qty {
      StopMeans(q[1..], t, qty - o.qty);
    }
  }

  /** What the sweep leaves of the incoming order is what its events say. */
  lemma {:induction false} SweepLeft(q: seq<Order>, t: Taker, qty: nat)
    requires NotIn(q, t.id)
    ensures LeftAfter(qty, Sweep(q, t, qty).events, t.id) == Sweep(q, t, qty).left
    decreases |q|, 1
  {
    if qty != 0 && q != [] && Reaches(t.side, t.limit, q[0].price) {
      var o := q[0];
      if t.stp != NoStp && o.owner == t.owner {
        SelfLeft(q, t, qty);
      } else if o.qty <= qty {
        SweepLeft(q[1..], t, qty - o.qty);
        var e := TradeEvent(t.symbol, t.id, o.id, t.side, o.price, o.qty, 0);
        LeftBehind(qty, e, Sweep(q[1..], t, qty - o.qty).events, t.id);
      }
    }
  }

  lemma LeftBehind(left: nat, e: Event, events: seq<Event>, x: nat)
    ensures LeftAfter(left, [e] + events, x) == LeftAfter(LeftOne(left, e, x), events, x)
  {
    assert ([e] + events)[1..] == events;
  }

  lemma {:induction false} SelfLeft(q: seq<Order>, t: Taker, qty: nat)
    requires NotIn(q, t.id) && q != [] && qty > 0 && t.stp != NoStp && q[0].owner == t.owner
    ensures LeftAfter(qty, SweepSelf(q, t, qty).events, t.id) == SweepSelf(q, t, qty).left
    decreases |q|, 0
  {
    var o := q[0];
    var gone := CanceledEvent(t.symbol, o.id, Opposite(t.side), o.price, o.qty, SelfTrade);
    if t.stp == CancelResting {
      SweepLeft(q[1..], t, qty);
      LeftBehind(qty, gone, Sweep(q[1..], t, qty).events, t.id);
    } else if t.stp == DecrementCancel && o.qty < qty {
      var less := StpDecrementEvent(t.symbol, t.id, t.side, t.limit, qty - o.qty);
      var rest := Sweep(q[1..], t, qty - o.qty).events;
      SweepLeft(q[1..], t, qty - o.qty);
      LeftBehind(qty, less, rest, t.id);
      LeftBehind(qty, gone, [less] + rest, t.id);
      assert [gone, less] + rest == [gone] + ([less] + rest);
    }
  }

  // ---- one command ----

  /** As Met, for the events of a whole command: the incoming order is struck by an event of its own. */
  ghost predicate Meeting(mode: Stp, x: nat, mine: nat, id: nat, own: nat, events: seq<Event>, k: nat)
    requires k < |events|
  {
    match mode
    case NoStp => false
    case CancelIncoming => false
    case CancelResting => Struck(events[k], id, own)
    case DecrementCancel =>
      if own < mine then Struck(events[k], id, own) && k + 1 < |events| && Lessened(events[k + 1], x, mine - own)
      else
        && k + 2 == |events| && Struck(events[k + 1], x, mine)
        && if own == mine then Struck(events[k], id, own) else Lessened(events[k], id, own - mine)
  }

  /** The incoming order is struck for all it has left, last of all: at once under CancelIncoming, after the other
      order's event under DecrementCancel. */
  ghost predicate StruckLast(mode: Stp, x: nat, mine: nat, events: seq<Event>, k: nat)
    requires k < |events|
  {
    && k + 1 == |events| && mine > 0 && Struck(events[k], x, mine)
    && (mode == CancelIncoming
        || (mode == DecrementCancel && k > 0 && events[k - 1].reason == SelfTrade && events[k - 1].orderId != x))
  }

  /** Event k of a command whose order starts with `start` and meets the queue q. */
  ghost predicate Right(q: seq<Order>, t: Taker, start: nat, events: seq<Event>, k: nat)
    requires k < |events|
  {
    var e, mine := events[k], LeftAfter(start, events[..k], t.id);
    && (e.kind == Trade ==> TradeRight(q, t, e))
    && (e.reason == SelfTrade && e.orderId != t.id ==>
          exists j :: 0 <= j < |q| && OwnOf(q, t, j, e) && Meeting(t.stp, t.id, mine, e.orderId, q[j].qty, events, k))
    && (e.reason == SelfTrade && e.orderId == t.id && e.kind == Modified ==>
          t.stp == DecrementCancel && k > 0 && SecondOf(events, k, t.id, mine))
    && (e.reason == SelfTrade && e.orderId == t.id && e.kind != Modified ==>
          StruckLast(t.stp, t.id, mine, events, k))
  }

  lemma ExecuteRight(cfg: Config, b: Book, t: Taker, px: int, qty: nat, mayRest: bool, k: nat)
    requires NotIn(Resting(b, Opposite(t.side)), t.id) && Positive(Resting(b, Opposite(t.side)))
    requires k < |Execute(cfg, b, t, px, qty, mayRest).events|
    ensures Right(Resting(b, Opposite(t.side)), t, qty, Execute(cfg, b, t, px, qty, mayRest).events, k)
  {
    hide Insert, LeftAfter;
    var q, z := Resting(b, Opposite(t.side)), Execute(cfg, b, t, px, qty, mayRest);
    var r := Sweep(q, t, qty);
    SweepEnd(q, t, qty);
    assert |r.events| <= |z.events| <= |r.events| + 1 && z.events[..|r.events|] == r.events;
    hide Sweep;
    if k < |r.events| {
      SweepRight(q, t, qty, k);
      assert z.events[..k] == r.events[..k] && z.events[k] == r.events[k];
      assert k > 0 ==> z.events[k - 1] == r.events[k - 1];
      assert k + 1 < |r.events| ==> z.events[k + 1] == r.events[k + 1];
      MetThrough(q, t, qty, r, z.events, k);
    } else {
      SweepLeft(q, t, qty);
      assert z.events[..k] == r.events;
      if r.left > 0 && r.stop {
        StopMeans(q, t, qty);
      }
    }
  }

  /** A meeting of the sweep is one of the command. */
  lemma MetThrough(q: seq<Order>, t: Taker, qty: nat, r: SweepResult, events: seq<Event>, k: nat)
    requires k < |r.events| <= |events| && SweptRight(q, t, qty, r, k)
    requires events[..k] == r.events[..k] && events[k] == r.events[k]
    requires k > 0 ==> events[k - 1] == r.events[k - 1]
    requires k + 1 < |r.events| ==> events[k + 1] == r.events[k + 1]
    requires r.stop ==> |events| == |r.events| + 1 && Struck(events[|r.events|], t.id, r.left)
    ensures Right(q, t, qty, events, k)
  {
    hide LeftAfter;
    var e, mine := r.events[k], LeftAfter(qty, r.events[..k], t.id);
    if e.reason == SelfTrade && e.orderId != t.id {
      var j :| 0 <= j < |q| && OwnOf(q, t, j, e) && Met(t, mine, e.orderId, q[j].qty, r, k);
      assert Meeting(t.stp, t.id, mine, e.orderId, q[j].qty, events, k);
    }
  }

  /** Behind the event that announces the order and its quantity. */
  lemma RightBehind(q: seq<Order>, t: Taker, head: Event, events: seq<Event>, k: nat)
    requires head.kind == Accepted || head.kind == Modified
    requires head.orderId == t.id && head.reason == NoReason && k < |events| && Right(q, t, head.qty, events, k)
    ensures Right(q, t, 0, [head] + events, k + 1)
  {
    var all := [head] + events;
    assert all[..k + 1] == [head] + events[..k] && ([head] + events[..k])[1..] == events[..k];
    assert LeftAfter(0, all[..k + 1], t.id) == LeftAfter(head.qty, events[..k], t.id);
    var e, mine := events[k], LeftAfter(head.qty, events[..k], t.id);
    if e.reason == SelfTrade && e.orderId != t.id {
      var j :| 0 <= j < |q| && OwnOf(q, t, j, e) && Meeting(t.stp, t.id, mine, e.orderId, q[j].qty, events, k);
      assert k + 1 < |events| ==> all[k + 2] == events[k + 1];
      assert Meeting(t.stp, t.id, mine, e.orderId, q[j].qty, all, k + 1);
    }
  }

  /** The order a command brings to the other side, as the book knows it. */
  function TakerOf(cfg: Config, b: Book, c: Command): Taker {
    if c.kind == Modify && Contains(b, c.orderId) then
      var side := SideOf(b, c.orderId);
      FindHit(Resting(b, side), c.orderId);
      var o := Resting(b, side)[Find(Resting(b, side), c.orderId)];
      Taker(cfg.symbol, c.orderId, o.owner, side, c.price, cfg.stp)
    else AddTaker(cfg, c)
  }

  lemma ApplyRight(cfg: Config, b: Book, c: Command, k: nat)
    requires BookOk(cfg, b) && k < |Apply(cfg, b, c).events|
    ensures var t := TakerOf(cfg, b, c); Right(Resting(b, Opposite(t.side)), t, 0, Apply(cfg, b, c).events, k)
  {
    match c.kind
    case NewOrder => AddRight(cfg, b, c, k);
    case Cancel =>
    case Modify => ModifyRight(cfg, b, c, k);
  }

  lemma QueueFacts(cfg: Config, b: Book, side: Side, id: nat)
    requires BookOk(cfg, b)
    ensures Positive(Resting(b, side)) && (!Contains(b, id) ==> NotIn(Resting(b, side), id))
  {
  }

  lemma AddRight(cfg: Config, b: Book, c: Command, k: nat)
    requires BookOk(cfg, b) && c.kind == NewOrder && k < |Add(cfg, b, c).events|
    ensures Right(Resting(b, Opposite(c.side)), AddTaker(cfg, c), 0, Add(cfg, b, c).events, k)
  {
    hide Execute, Right, BookOk, Contains, Fillable;
    var t, px := AddTaker(cfg, c), if c.ordType == Market then 0 else c.price;
    var events := Add(cfg, b, c).events;
    if events[k].reason != SelfTrade && events[k].kind != Trade {
      PlainRight(Resting(b, Opposite(c.side)), t, 0, events, k);
    } else {
      var z := Execute(cfg, b, t, px, c.qty, c.ordType == Limit && c.tif == Day);
      var accepted := AcceptedEvent(cfg.symbol, c.orderId, c.side, px, c.qty);
      QueueFacts(cfg, b, Opposite(c.side), c.orderId);
      assert events == [accepted] + z.events && k > 0;
      ExecuteRight(cfg, b, t, px, c.qty, c.ordType == Limit && c.tif == Day, k - 1);
      RightBehind(Resting(b, Opposite(c.side)), t, accepted, z.events, k - 1);
    }
  }

  lemma PlainRight(q: seq<Order>, t: Taker, start: nat, events: seq<Event>, k: nat)
    requires k < |events| && events[k].reason != SelfTrade && events[k].kind != Trade
    ensures Right(q, t, start, events, k)
  {
  }

  lemma ModifyRight(cfg: Config, b: Book, c: Command, k: nat)
    requires BookOk(cfg, b) && c.kind == Modify && k < |ModifyOrder(cfg, b, c).events|
    ensures var t := TakerOf(cfg, b, c);
      Right(Resting(b, Opposite(t.side)), t, 0, ModifyOrder(cfg, b, c).events, k)
  {
    hide Execute, Right, BookOk, RemoveAt;
    var t, events := TakerOf(cfg, b, c), ModifyOrder(cfg, b, c).events;
    if events[k].reason != SelfTrade && events[k].kind != Trade {
      PlainRight(Resting(b, Opposite(t.side)), t, 0, events, k);
    } else {
      var q := Resting(b, t.side);
      FindHit(q, c.orderId);
      var i := Find(q, c.orderId);
      var b0 := WithResting(b, t.side, RemoveAt(q, i));
      assert BookOk(cfg, b0) && !Contains(b0, c.orderId) by { RemovedOk(cfg, b, t.side, i); }
      hide Contains;
      QueueFacts(cfg, b0, Opposite(t.side), c.orderId);
      var z := Execute(cfg, b0, t, c.price, c.qty, true);
      var modified := ModifiedEvent(cfg.symbol, c.orderId, t.side, c.price, c.qty);
      assert events == [modified] + z.events && k > 0;
      ExecuteRight(cfg, b0, t, c.price, c.qty, true, k - 1);
      RightBehind(Resting(b, Opposite(t.side)), t, modified, z.events, k - 1);
    }
  }

  // ---- over runs: whose each order is ----

  /** Is c a new order that these events accept? */
  predicate Accepts(c: Command, events: seq<Event>) {
    c.kind == NewOrder && events != [] && events[0].kind == Accepted
  }

  /** For every id, the last new order accepted under it. */
  function Entering(rules: Rules, cfg: Config, cmds: seq<Command>): map<nat, Command> {
    if cmds == [] then map[]
    else
      var n := |cmds| - 1;
      var before := Entering(rules, cfg, cmds[..n]);
      if Accepts(cmds[n], Answer(rules, cfg, RunOf(rules, cfg, cmds[..n]).book, cmds[n]).events)
      then before[cmds[n].orderId := cmds[n]] else before
  }

  /** Every order of the queue entered as a new order of its owner's, on this side: a limit order for the day. */
  ghost predicate EnteredAs(side: Side, q: seq<Order>, from: map<nat, Command>) {
    forall k :: 0 <= k < |q| ==> q[k].id in from && FromIs(from[q[k].id], side, q[k].owner)
  }

  predicate FromIs(c: Command, side: Side, owner: nat) {
    c.kind == NewOrder && c.side == side && c.owner == owner && c.ordType == Limit && c.tif == Day
  }

  ghost predicate BookEntered(b: Book, from: map<nat, Command>) {
    EnteredAs(Buy, b.bids, from) && EnteredAs(Sell, b.asks, from)
  }

  lemma EnteredConsumed(side: Side, q: seq<Order>, r: seq<Order>, from: map<nat, Command>)
    requires EnteredAs(side, q, from) && Consumed(q, r)
    ensures EnteredAs(side, r, from)
  {
    var d := |q| - |r|;
    assert forall k :: 0 <= k < |r| ==> r[k].id == q[k + d].id && r[k].owner == q[k + d].owner;
  }

  lemma EnteredInsert(side: Side, q: seq<Order>, o: Order, from: map<nat, Command>)
    requires EnteredAs(side, q, from) && o.id in from && FromIs(from[o.id], side, o.owner)
    ensures EnteredAs(side, Insert(q, side, o), from)
  {
    InsertShape(q, side, o);
  }

  lemma EnteredRemove(side: Side, q: seq<Order>, k: nat, from: map<nat, Command>)
    requires EnteredAs(side, q, from) && k < |q|
    ensures EnteredAs(side, RemoveAt(q, k), from)
  {
  }

  lemma EnteredNew(side: Side, q: seq<Order>, from: map<nat, Command>, c: Command)
    requires EnteredAs(side, q, from) && NotIn(q, c.orderId)
    ensures EnteredAs(side, q, from[c.orderId := c])
  {
  }

  lemma ExecuteEntered(cfg: Config, b: Book, t: Taker, px: int, qty: nat, mayRest: bool, from: map<nat, Command>)
    requires Positive(Resting(b, Opposite(t.side))) && BookEntered(b, from)
    requires mayRest ==> t.id in from && FromIs(from[t.id], t.side, t.owner)
    ensures BookEntered(Execute(cfg, b, t, px, qty, mayRest).book, from)
  {
    hide Sweep, Insert, EnteredAs, Consumed;
    var q := Resting(b, Opposite(t.side));
    SweepShape(q, t, qty);
    EnteredConsumed(Opposite(t.side), q, Sweep(q, t, qty).queue, from);
    if mayRest {
      EnteredInsert(t.side, Resting(b, t.side), Order(t.id, Sweep(q, t, qty).left, t.owner, t.limit), from);
    }
  }

  lemma ApplyEntered(cfg: Config, b: Book, c: Command, from: map<nat, Command>)
    requires BookOk(cfg, b) && BookEntered(b, from)
    ensures var z := Apply(cfg, b, c);
      BookEntered(z.book, if Accepts(c, z.events) then from[c.orderId := c] else from)
  {
    hide Execute, EnteredAs, RemoveAt, Fillable, BookOk;
    match c.kind
    case NewOrder =>
      if AddReject(cfg, b, c) == NoReason {
        var px := if c.ordType == Market then 0 else c.price;
        QueueFacts(cfg, b, Buy, c.orderId);
        QueueFacts(cfg, b, Sell, c.orderId);
        EnteredNew(Buy, b.bids, from, c);
        EnteredNew(Sell, b.asks, from, c);
        ExecuteEntered(cfg, b, AddTaker(cfg, c), px, c.qty, c.ordType == Limit && c.tif == Day, from[c.orderId := c]);
      }
    case Cancel =>
      if Contains(b, c.orderId) {
        var side := SideOf(b, c.orderId);
        FindHit(Resting(b, side), c.orderId);
        EnteredRemove(side, Resting(b, side), Find(Resting(b, side), c.orderId), from);
      }
    case Modify =>
      if ModifyReject(cfg, b, c) == NoReason {
        ModifyEntered(cfg, b, c, from);
      }
  }

  lemma ModifyEntered(cfg: Config, b: Book, c: Command, from: map<nat, Command>)
    requires BookOk(cfg, b) && BookEntered(b, from) && c.kind == Modify && ModifyReject(cfg, b, c) == NoReason
    ensures BookEntered(ModifyOrder(cfg, b, c).book, from)
  {
    hide Execute, RemoveAt, BookOk;
    var side := SideOf(b, c.orderId);
    var q := Resting(b, side);
    FindHit(q, c.orderId);
    var k := Find(q, c.orderId);
    if c.price == q[k].price && c.qty <= q[k].qty {
      assert EnteredAs(side, q[k := q[k].(qty := c.qty)], from);
    } else {
      var b0 := WithResting(b, side, RemoveAt(q, k));
      EnteredRemove(side, q, k, from);
      assert BookOk(cfg, b0) by { RemovedOk(cfg, b, side, k); }
      QueueFacts(cfg, b0, Opposite(side), c.orderId);
      ExecuteEntered(cfg, b0, Taker(cfg.symbol, c.orderId, q[k].owner, side, c.price, cfg.stp), c.price, c.qty, true,
                     from);
    }
  }

  /** In every run of either engine: a resting order is on the side, and of the owner, of the new order that was
      last accepted under its id, and that was a limit order for the day. */
  lemma {:induction false} RunEntered(rules: Rules, cfg: Config, cmds: seq<Command>)
    ensures BookEntered(RunOf(rules, cfg, cmds).book, Entering(rules, cfg, cmds))
    decreases |cmds|
  {
    hide Answer, BookOk;
    if cmds != [] {
      var n := |cmds| - 1;
      var before := RunOf(rules, cfg, cmds[..n]).book;
      RunEntered(rules, cfg, cmds[..n]);
      RunsOk(rules, cfg, cmds[..n]);
      RunStep(rules, cfg, cmds);
      AnswerEntered(rules, cfg, before, cmds[n], Entering(rules, cfg, cmds[..n]));
    }
  }

  lemma AnswerEntered(rules: Rules, cfg: Config, b: Book, c: Command, from: map<nat, Command>)
    requires BookOk(cfg, b) && BookEntered(b, from)
    ensures var z := Answer(rules, cfg, b, c);
      BookEntered(z.book, if Accepts(c, z.events) then from[c.orderId := c] else from)
  {
    hide Apply, Answer, BookOk, EnteredAs;
    ApplyEntered(cfg, b, c, from);
    AnswerIs(rules, cfg, b, c);
    if Answer(rules, cfg, b, c) != Apply(cfg, b, c) {
      NotResting(cfg, b, c);
      EnteredNew(Buy, b.bids, from, c);
      EnteredNew(Sell, b.asks, from, c);
    }
  }

  lemma NotResting(cfg: Config, b: Book, c: Command)
    requires c.kind == NewOrder && AddReject(cfg, b, c) == NoReason
    ensures NotIn(b.bids, c.orderId) && NotIn(b.asks, c.orderId)
  {
  }

  // ---- over runs: orders of one owner ----

  /** Whose order a command brings, on which side, and under which mode. */
  function OwnerOf(from: map<nat, Command>, c: Command): nat {
    if c.kind == Modify && c.orderId in from then from[c.orderId].owner else c.owner
  }

  function SideFrom(from: map<nat, Command>, c: Command): Side {
    if c.kind == Modify && c.orderId in from then from[c.orderId].side else c.side
  }

  function ModeFor(cfg: Config, c: Command): Stp {
    if c.kind == Modify then cfg.stp else ModeOf(c.flags, cfg.stp)
  }

  ghost predicate IsOwn(from: map<nat, Command>, id: nat, owner: nat) {
    id in from && from[id].owner == owner
  }

  /** Event k of a command, its orders' owners told by the new orders they entered as; `opp` is the opposite queue
      before the command, `mine` what is left of the incoming order x. */
  ghost predicate OwnersApart(from: map<nat, Command>, owner: nat, mode: Stp, x: nat, opp: seq<Order>,
                              events: seq<Event>, k: nat)
    requires k < |events|
  {
    var e, mine := events[k], LeftAfter(0, events[..k], x);
    && (e.kind == Trade ==>
          e.orderId == x && e.makerId in from && (mode == NoStp || from[e.makerId].owner != owner))
    && (e.reason == SelfTrade && e.orderId != x ==>
          && IsOwn(from, e.orderId, owner)
          && exists j :: 0 <= j < |opp| && opp[j].id == e.orderId
               && Meeting(mode, x, mine, e.orderId, opp[j].qty, events, k))
    && (e.reason == SelfTrade && e.orderId == x && e.kind == Modified ==>
          mode == DecrementCancel && k > 0 && SecondOf(events, k, x, mine))
    && (e.reason == SelfTrade && e.orderId == x && e.kind != Modified ==> StruckLast(mode, x, mine, events, k))
  }

  /** Self-trade prevention in every run of either engine. Under a mode no trade is between two orders of one owner;
      an order is canceled or lessened for it only on meeting one of its owner's; and the larger, the smaller and the
      equal end as the mode has it: CancelResting strikes the resting order, CancelIncoming the incoming one,
      DecrementCancel the smaller, or both if equal, and takes its quantity off the larger. */
  lemma OwnersMeet(rules: Rules, cfg: Config, cmds: seq<Command>, c: Command, k: nat)
    requires k < |Answer(rules, cfg, RunOf(rules, cfg, cmds).book, c).events|
    ensures var b, from := RunOf(rules, cfg, cmds).book, Entering(rules, cfg, cmds);
      OwnersApart(from, OwnerOf(from, c), ModeFor(cfg, c), c.orderId, Resting(b, Opposite(SideFrom(from, c))),
                  Answer(rules, cfg, b, c).events, k)
  {
    hide Apply, Answer, BookOk, RunOf, Right, Meeting, StruckLast, SecondOf, LeftAfter, Contains;
    var b, from := RunOf(rules, cfg, cmds).book, Entering(rules, cfg, cmds);
    var events := Answer(rules, cfg, b, c).events;
    RunEntered(rules, cfg, cmds);
    RunsOk(rules, cfg, cmds);
    AnswerRight(rules, cfg, b, c, k);
    FlagBits(c.flags, cfg.stp);
    if events[k].kind == Trade || events[k].reason == SelfTrade {
      AnswerKnown(rules, cfg, b, c, k);
      TakerKnown(cfg, b, c, from);
      RightApart(from, TakerOf(cfg, b, c), Resting(b, Opposite(TakerOf(cfg, b, c).side)), events, k);
    }
  }

  lemma AnswerRight(rules: Rules, cfg: Config, b: Book, c: Command, k: nat)
    requires BookOk(cfg, b) && k < |Answer(rules, cfg, b, c).events|
    ensures var t := TakerOf(cfg, b, c); Right(Resting(b, Opposite(t.side)), t, 0, Answer(rules, cfg, b, c).events, k)
  {
    hide Apply, Answer, BookOk, Right, TakerOf;
    AnswerIs(rules, cfg, b, c);
    var t := TakerOf(cfg, b, c);
    if Answer(rules, cfg, b, c) == Apply(cfg, b, c) {
      ApplyRight(cfg, b, c, k);
    } else {
      PlainRight(Resting(b, Opposite(t.side)), t, 0, Answer(rules, cfg, b, c).events, k);
    }
  }

  /** Only a new order, or a modify of a resting one, trades or meets its owner's. */
  lemma AnswerKnown(rules: Rules, cfg: Config, b: Book, c: Command, k: nat)
    requires k < |Answer(rules, cfg, b, c).events|
    requires Answer(rules, cfg, b, c).events[k].kind == Trade || Answer(rules, cfg, b, c).events[k].reason == SelfTrade
    ensures c.kind == NewOrder || (c.kind == Modify && Contains(b, c.orderId))
  {
    hide Execute, FastApply, AddReject;
    AnswerIs(rules, cfg, b, c);
  }

  lemma TakerKnown(cfg: Config, b: Book, c: Command, from: map<nat, Command>)
    requires BookEntered(b, from) && (c.kind == NewOrder || (c.kind == Modify && Contains(b, c.orderId)))
    ensures var t := TakerOf(cfg, b, c);
      && t.id == c.orderId && t.owner == OwnerOf(from, c) && t.side == SideFrom(from, c)
      && t.stp == (if c.kind == Modify then cfg.stp else EffectiveStp(c.flags, cfg.stp))
      && EnteredAs(Opposite(t.side), Resting(b, Opposite(t.side)), from)
  {
    if c.kind == Modify {
      FindHit(Resting(b, SideOf(b, c.orderId)), c.orderId);
    }
  }

  lemma RightApart(from: map<nat, Command>, t: Taker, q: seq<Order>, events: seq<Event>, k: nat)
    requires k < |events| && Right(q, t, 0, events, k) && EnteredAs(Opposite(t.side), q, from)
    ensures OwnersApart(from, t.owner, t.stp, t.id, q, events, k)
  {
    hide Meeting, StruckLast, SecondOf, LeftAfter;
    var e := events[k];
    if e.reason == SelfTrade && e.orderId != t.id {
      var mine := LeftAfter(0, events[..k], t.id);
      var j :| 0 <= j < |q| && OwnOf(q, t, j, e) && Meeting(t.stp, t.id, mine, e.orderId, q[j].qty, events, k);
      assert q[j].id in from;
    }
  }
}
