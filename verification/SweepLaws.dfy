/** The sweep one maker at a time, as the loops of both books run it. */
module SweepLaws {
  import opened Types
  import opened BookSpec
  import opened BookInvariant

  /** A sweep that has emitted `done` and stands at queue q with `left` to fill will end as `goal`. */
  ghost predicate Continues(goal: SweepResult, done: seq<Event>, q: seq<Order>, t: Taker, left: nat, stop: bool) {
    if stop then goal == SweepResult(q, left, true, done)
    else
      var r := Sweep(q, t, left);
      goal == SweepResult(r.queue, r.left, r.stop, done + r.events)
  }

  /** One maker's turn: what the sweep emits, the queue and quantity it leaves, and whether it stops. */
  datatype Turn = Turn(events: seq<Event>, queue: seq<Order>, left: nat, stop: bool)

  function TakeTurn(q: seq<Order>, t: Taker, left: nat): Turn
    requires q != [] && left > 0
  {
    var o, maker := q[0], Opposite(t.side);
    if t.stp != NoStp && o.owner == t.owner then
      if t.stp == CancelIncoming then Turn([], q, left, true)
      else if t.stp == DecrementCancel && o.qty > left then
        Turn([StpDecrementEvent(t.symbol, o.id, maker, o.price, o.qty - left)], [o.(qty := o.qty - left)] + q[1..],
             left, true)
      else
        var gone := CanceledEvent(t.symbol, o.id, maker, o.price, o.qty, SelfTrade);
        if t.stp != DecrementCancel then Turn([gone], q[1..], left, false)
        else if o.qty == left then Turn([gone], q[1..], left, true)
        else Turn([gone, StpDecrementEvent(t.symbol, t.id, t.side, t.limit, left - o.qty)], q[1..], left - o.qty, false)
    else if o.qty > left then
      Turn([TradeEvent(t.symbol, t.id, o.id, t.side, o.price, left, o.qty - left)], [o.(qty := o.qty - left)] + q[1..],
           0, false)
    else
      Turn([TradeEvent(t.symbol, t.id, o.id, t.side, o.price, o.qty, 0)], q[1..], left - o.qty, false)
  }

  lemma TurnSize(q: seq<Order>, t: Taker, left: nat)
    requires q != [] && left > 0
    ensures var u := TakeTurn(q, t, left);
      |u.queue| <= |q| && u.left <= left && (u.stop || u.left == 0 || |u.queue| < |q|)
  {
  }

  lemma StartsSo(q: seq<Order>, t: Taker, qty: nat)
    ensures Continues(Sweep(q, t, qty), [], q, t, qty, false)
  {
    assert [] + Sweep(q, t, qty).events == Sweep(q, t, qty).events;
  }

  /** Taking turns is sweeping. */
  lemma TurnContinues(goal: SweepResult, done: seq<Event>, q: seq<Order>, t: Taker, left: nat)
    requires Continues(goal, done, q, t, left, false) && q != [] && left > 0 && Reaches(t.side, t.limit, q[0].price)
    ensures var u := TakeTurn(q, t, left);
      Continues(goal, done + u.events, u.queue, t, u.left, u.stop)
  {
    var u, r := TakeTurn(q, t, left), Sweep(q, t, left);
    TurnSplits(q, t, left);
    if u.stop {
      assert done + r.events == done + u.events;
    } else {
      assert done + r.events == (done + u.events) + Sweep(u.queue, t, u.left).events;
    }
  }

  lemma TurnSplits(q: seq<Order>, t: Taker, left: nat)
    requires q != [] && left > 0 && Reaches(t.side, t.limit, q[0].price)
    ensures var u, r := TakeTurn(q, t, left), Sweep(q, t, left);
      if u.stop then r == SweepResult(u.queue, u.left, true, u.events)
      else
        var z := Sweep(u.queue, t, u.left);
        r == SweepResult(z.queue, z.left, z.stop, u.events + z.events)
  {
    var u := TakeTurn(q, t, left);
    if u.left == 0 {
      assert u.events + Sweep(u.queue, t, 0).events == u.events;
    }
  }

  /** Nothing left to fill, or nothing within reach: the sweep is over. */
  lemma EndsSo(goal: SweepResult, done: seq<Event>, q: seq<Order>, t: Taker, left: nat)
    requires Continues(goal, done, q, t, left, false)
    requires left == 0 || q == [] || !Reaches(t.side, t.limit, q[0].price)
    ensures goal == SweepResult(q, left, false, done)
  {
    assert done + [] == done;
  }

  lemma StopsSo(goal: SweepResult, done: seq<Event>, q: seq<Order>, t: Taker, left: nat)
    requires Continues(goal, done, q, t, left, true)
    ensures goal == SweepResult(q, left, true, done)
  {
  }
}
