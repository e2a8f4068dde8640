/** Which commands are refused, and what short-lived, market and post-only orders may do, in every run of either
    engine. */
module OrderVerdicts {
  import opened Types
  import opened BookSpec
  import opened BookInvariant
  import opened MissedFills
  import opened OrderRules

  /** A price of the band. */
  predicate Within(cfg: Config, price: int) {
    cfg.minPrice <= price < cfg.minPrice + cfg.numLevels
  }

  /** Some order of the opposite side is one this new order could trade with. */
  ghost predicate Meets(b: Book, c: Command) {
    if c.side == Buy then exists k :: 0 <= k < |b.asks| && (c.ordType == Market || b.asks[k].price <= c.price)
    else exists k :: 0 <= k < |b.bids| && (c.ordType == Market || b.bids[k].price >= c.price)
  }

  /** Some order rests under this id. */
  ghost predicate Rests(b: Book, id: nat) {
    (exists k :: 0 <= k < |b.bids| && b.bids[k].id == id) || exists k :: 0 <= k < |b.asks| && b.asks[k].id == id
  }

  lemma CrossesMeets(cfg: Config, b: Book, c: Command)
    requires BookOk(cfg, b) && c.kind == NewOrder && (c.ordType == Limit ==> Within(cfg, c.price))
    ensures Crosses(b, c.side, LimitOf(cfg, c)) <==> Meets(b, c)
  {
    var q := Resting(b, Opposite(c.side));
    if q != [] {
      assert forall k :: 0 <= k < |q| ==> !Better(Opposite(c.side), q[k].price, q[0].price);
      assert InBand(cfg, q[0].price);
    }
  }

  /** A new order is refused for the first of these that holds: id 0, quantity 0, a limit price outside the band, an id
      that rests already, or post-only with an order on the other side it could trade with. Refused, it changes
      nothing; else its first event accepts it, price 0 for a market order. */
  lemma AddVerdict(rules: Rules, cfg: Config, b: Book, c: Command)
    requires BookOk(cfg, b) && c.kind == NewOrder
    ensures var z := Answer(rules, cfg, b, c);
      var why :=
        if c.orderId == 0 then InvalidOrderId
        else if c.qty == 0 then InvalidQty
        else if c.ordType == Limit && !Within(cfg, c.price) then InvalidPrice
        else if Rests(b, c.orderId) then DuplicateOrderId
        else if c.flags % 2 == 1 && Meets(b, c) then WouldCross
        else NoReason;
      if why != NoReason then
        z == Outcome(b, [Event(Rejected, c.orderId, 0, 0, 0, 0, c.symbol, why, c.side, Some(NewOrder))])
      else
        && z.events != []
        && z.events[0] == Event(Accepted, c.orderId, 0, if c.ordType == Market then 0 else c.price, c.qty, 0,
                                cfg.symbol, NoReason, c.side, None)
  {
    hide Execute, Fillable, BookOk, EffectiveStp, Crosses, WordsWithin, Reached;
    if c.ordType == Market || Within(cfg, c.price) {
      CrossesMeets(cfg, b, c);
    }
  }

  /** A modify is refused for the first of these: quantity 0, no order under its id, a price outside the band. At the
      order's own price and for no more than it has, it changes that quantity alone, and no order's place. */
  lemma ModifyVerdict(rules: Rules, cfg: Config, b: Book, c: Command, side: Side, k: nat)
    requires BookOk(cfg, b) && c.kind == Modify
    ensures var z := Answer(rules, cfg, b, c);
      var why := if c.qty == 0 then InvalidQty else if !Rests(b, c.orderId) then UnknownOrder
        else if !Within(cfg, c.price) then InvalidPrice else NoReason;
      && (why != NoReason ==>
            z == Outcome(b, [Event(Rejected, c.orderId, 0, 0, 0, 0, c.symbol, why, c.side, Some(Modify))]))
      && (why == NoReason && k < |Resting(b, side)| && Resting(b, side)[k].id == c.orderId ==>
            var q := Resting(b, side);
            && z.events != []
            && z.events[0] == Event(Modified, c.orderId, 0, c.price, c.qty, 0, cfg.symbol, NoReason, side, None)
            && (c.price == q[k].price && c.qty <= q[k].qty ==>
                  |z.events| == 1 && z.book == WithResting(b, side, q[k := q[k].(qty := c.qty)])))
  {
    hide Execute;
    if k < |Resting(b, side)| && Resting(b, side)[k].id == c.orderId {
      OnlyThere(cfg, b, side, k);
    }
  }

  lemma OnlyThere(cfg: Config, b: Book, side: Side, k: nat)
    requires BookOk(cfg, b) && k < |Resting(b, side)|
    ensures var id := Resting(b, side)[k].id;
      Contains(b, id) && SideOf(b, id) == side && Find(Resting(b, side), id) == k
  {
    var q := Resting(b, side);
    assert HasId(q, q[k].id);
    FindHit(q, q[k].id);
    if side == Sell {
      forall i | 0 <= i < |b.bids| ensures b.bids[i].id != q[k].id {
      }
    }
  }

  /** A cancel of an order that rests removes it alone, for what it has left; of any other it is refused. */
  lemma CancelVerdict(rules: Rules, cfg: Config, b: Book, c: Command, side: Side, k: nat)
    requires BookOk(cfg, b) && c.kind == Cancel
    ensures var z := Answer(rules, cfg, b, c);
      && (!Rests(b, c.orderId) ==>
            z == Outcome(b, [Event(Rejected, c.orderId, 0, 0, 0, 0, c.symbol, UnknownOrder, c.side, Some(Cancel))]))
      && (k < |Resting(b, side)| && Resting(b, side)[k].id == c.orderId ==>
            var q := Resting(b, side);
            && z.book == WithResting(b, side, q[..k] + q[k + 1..])
            && z.events == [Event(Canceled, c.orderId, 0, q[k].price, q[k].qty, 0, cfg.symbol, UserCanceled, side,
                                  None)])
  {
    if k < |Resting(b, side)| && Resting(b, side)[k].id == c.orderId {
      OnlyThere(cfg, b, side, k);
    }
  }

  // ---- post-only, market and short-lived orders ----

  lemma {:induction false} NoneInReach(q: seq<Order>, t: Taker, qty: nat)
    requires q == [] || !Reaches(t.side, t.limit, q[0].price)
    ensures Sweep(q, t, qty) == SweepResult(q, qty, false, [])
  {
  }

  /** An order with bit 0 of its flags set never trades as it comes, nor meets its owner's. */
  lemma PostOnlyNeverTrades(rules: Rules, cfg: Config, cmds: seq<Command>, c: Command, k: nat)
    requires c.kind == NewOrder && c.flags % 2 == 1
    requires k < |Answer(rules, cfg, RunOf(rules, cfg, cmds).book, c).events|
    ensures var e := Answer(rules, cfg, RunOf(rules, cfg, cmds).book, c).events[k];
      e.kind != Trade && e.reason != SelfTrade
  {
    hide Sweep, Fillable, EffectiveStp, RunOf, Contains, WordsWithin, Reached;
    var b := RunOf(rules, cfg, cmds).book;
    if AddReject(cfg, b, c) == NoReason {
      NoneInReach(Resting(b, Opposite(c.side)), AddTaker(cfg, c), c.qty);
    }
  }

  /** The limit of what a command brings: the whole band for a market order. */
  predicate InReach(cfg: Config, c: Command, side: Side, price: int) {
    (c.kind == NewOrder && c.ordType == Market) || (if side == Buy then price <= c.price else price >= c.price)
  }

  /** How an order ends that neither trades nor rests whole. An order expires only as a market order or one not for
      the day, last of all, for what it has left, and then nothing on the other side is within its limit: for a market
      order that side is empty. One is killed only as fill-or-kill, whole and at once, and changes nothing. One is
      canceled for want of a slot only with as many resting as there are slots. And only a cancel is the user's. */
  ghost predicate Ends(cfg: Config, b: Book, c: Command, z: Outcome, k: nat)
    requires k < |z.events|
  {
    var e, opp := z.events[k], Resting(z.book, Opposite(c.side));
    && (e.reason == IocExpired ==>
          && c.kind == NewOrder && (c.ordType == Market || c.tif != Day) && e.kind == Canceled
          && e.orderId == c.orderId && k + 1 == |z.events| && e.qty == LeftAfter(0, z.events[..k], c.orderId) > 0
          && (forall i :: 0 <= i < |opp| ==> !InReach(cfg, c, c.side, opp[i].price))
          && (c.ordType == Market ==> opp == []))
    && (e.reason == FokUnfilled ==>
          && c.kind == NewOrder && c.tif == Fok && e.kind == Canceled && e.orderId == c.orderId && e.qty == c.qty
          && |z.events| == 2 && k == 1 && z.book == b)
    && (e.reason == BookFull ==>
          && c.kind == NewOrder && c.ordType == Limit && c.tif == Day && e.kind == Canceled
          && e.orderId == c.orderId && k + 1 == |z.events| && |z.book.bids| + |z.book.asks| == cfg.maxOrders)
    && (e.reason == UserCanceled ==> c.kind == Cancel)
  }

  /** In every run of either engine. */
  lemma EndsAsItMay(rules: Rules, cfg: Config, cmds: seq<Command>, c: Command, k: nat)
    requires k < |Answer(rules, cfg, RunOf(rules, cfg, cmds).book, c).events|
    ensures var b := RunOf(rules, cfg, cmds).book; Ends(cfg, b, c, Answer(rules, cfg, b, c), k)
  {
    hide RunOf, Answer, Apply, BookOk;
    var b := RunOf(rules, cfg, cmds).book;
    RunsOk(rules, cfg, cmds);
    AnswerIs(rules, cfg, b, c);
    if Answer(rules, cfg, b, c) == Apply(cfg, b, c) {
      ApplyEnds(cfg, b, c, k);
    } else {
      KilledEnds(rules, cfg, b, c);
    }
  }

  lemma KilledEnds(rules: Rules, cfg: Config, b: Book, c: Command)
    requires Answer(rules, cfg, b, c) != Apply(cfg, b, c)
    ensures Answer(rules, cfg, b, c) == Killed(cfg, b, c) && c.kind == NewOrder && c.tif == Fok
  {
    hide Apply, Killed, AddReject, EffectiveStp, WordsWithin, Reached;
  }

  lemma ApplyEnds(cfg: Config, b: Book, c: Command, k: nat)
    requires BookOk(cfg, b) && k < |Apply(cfg, b, c).events|
    ensures Ends(cfg, b, c, Apply(cfg, b, c), k)
  {
    match c.kind
    case NewOrder => AddEnds(cfg, b, c, k);
    case Cancel =>
    case Modify => ModifyEnds(cfg, b, c, k);
  }

  /** The reasons a sweep gives. */
  lemma {:induction false} SweepGives(q: seq<Order>, t: Taker, qty: nat, k: nat)
    requires k < |Sweep(q, t, qty).events|
    ensures Sweep(q, t, qty).events[k].reason == NoReason || Sweep(q, t, qty).events[k].reason == SelfTrade
    decreases |q|
  {
    var o := q[0];
    if t.stp != NoStp && o.owner == t.owner {
      if t.stp == DecrementCancel && o.qty < qty && k > 1 {
        SweepGives(q[1..], t, qty - o.qty, k - 2);
      } else if t.stp == CancelResting && k > 0 {
        SweepGives(q[1..], t, qty, k - 1);
      }
    } else if k > 0 {
      SweepGives(q[1..], t, qty - o.qty, k - 1);
    }
  }

  /** How an execution ends, by its last event's reason. */
  lemma ExecuteEnds(cfg: Config, b: Book, t: Taker, px: int, qty: nat, mayRest: bool, k: nat)
    requires BookOk(cfg, b) && !Contains(b, t.id) && k < |Execute(cfg, b, t, px, qty, mayRest).events|
    ensures var z := Execute(cfg, b, t, px, qty, mayRest);
      var e, opp := z.events[k], Resting(z.book, Opposite(t.side));
      && (e.reason == NoReason || e.reason == SelfTrade || e.reason == IocExpired || e.reason == BookFull)
      && (e.reason == IocExpired || e.reason == BookFull ==>
            e.kind == Canceled && e.orderId == t.id && k + 1 == |z.events|
            && e.qty == LeftAfter(qty, z.events[..k], t.id) > 0)
      && (e.reason == IocExpired ==>
            !mayRest && forall i :: 0 <= i < |opp| ==> !Reaches(t.side, t.limit, opp[i].price))
      && (e.reason == BookFull ==> mayRest && |z.book.bids| + |z.book.asks| >= cfg.maxOrders)
  {
    hide Insert, LeftAfter;
    var q, z := Resting(b, Opposite(t.side)), Execute(cfg, b, t, px, qty, mayRest);
    var r := Sweep(q, t, qty);
    QueueFacts(cfg, b, Opposite(t.side), t.id);
    SweepShape(q, t, qty);
    ConsumedSideOk(cfg, Opposite(t.side), q, r.queue);
    SweepEnd(q, t, qty);
    SweepLeft(q, t, qty);
    assert |r.events| <= |z.events| <= |r.events| + 1 && z.events[..|r.events|] == r.events;
    if k < |r.events| {
      SweepGives(q, t, qty, k);
      assert z.events[k] == r.events[k];
    }
    hide Sweep;
    if r.queue != [] {
      assert forall i :: 0 <= i < |r.queue| ==> !Better(Opposite(t.side), r.queue[i].price, r.queue[0].price);
    }
  }

  lemma AddEnds(cfg: Config, b: Book, c: Command, k: nat)
    requires BookOk(cfg, b) && c.kind == NewOrder && k < |Add(cfg, b, c).events|
    ensures Ends(cfg, b, c, Add(cfg, b, c), k)
  {
    hide Execute, LeftAfter, Fillable, EffectiveStp, BookOk, Contains, Crosses, BookQty;
    var t, px := AddTaker(cfg, c), if c.ordType == Market then 0 else c.price;
    var mayRest := c.ordType == Limit && c.tif == Day;
    if AddReject(cfg, b, c) == NoReason && !(c.tif == Fok && !Fillable(Resting(b, Opposite(c.side)), t, c.qty)) && k > 0
    {
      var z := Execute(cfg, b, t, px, c.qty, mayRest);
      var accepted := AcceptedEvent(cfg.symbol, c.orderId, c.side, px, c.qty);
      var events := Add(cfg, b, c).events;
      assert events == [accepted] + z.events && events[..k] == [accepted] + z.events[..k - 1];
      LeftBehind(0, accepted, z.events[..k - 1], c.orderId);
      ExecuteEnds(cfg, b, t, px, c.qty, mayRest, k - 1);
      ApplyOk(cfg, b, c);
      if c.ordType == Market {
        MarketReaches(cfg, Add(cfg, b, c).book, c);
      }
    }
  }

  /** Every order of a sound book is within a market order's limit. */
  lemma MarketReaches(cfg: Config, b: Book, c: Command)
    requires BookOk(cfg, b) && c.kind == NewOrder && c.ordType == Market
    ensures var q := Resting(b, Opposite(c.side));
      forall i :: 0 <= i < |q| ==> Reaches(c.side, LimitOf(cfg, c), q[i].price)
  {
    var q := Resting(b, Opposite(c.side));
    forall i | 0 <= i < |q| ensures InBand(cfg, q[i].price) {
    }
  }

  lemma ModifyEnds(cfg: Config, b: Book, c: Command, k: nat)
    requires BookOk(cfg, b) && c.kind == Modify && k < |ModifyOrder(cfg, b, c).events|
    ensures Ends(cfg, b, c, ModifyOrder(cfg, b, c), k)
  {
    hide Execute, RemoveAt, LeftAfter, BookOk;
    if ModifyReject(cfg, b, c) == NoReason && k > 0 {
      var side := SideOf(b, c.orderId);
      var q := Resting(b, side);
      FindHit(q, c.orderId);
      var i := Find(q, c.orderId);
      var b0 := WithResting(b, side, RemoveAt(q, i));
      assert BookOk(cfg, b0) && !Contains(b0, c.orderId) by { RemovedOk(cfg, b, side, i); }
      hide Contains;
      var t := Taker(cfg.symbol, c.orderId, q[i].owner, side, c.price, cfg.stp);
      ExecuteEnds(cfg, b0, t, c.price, c.qty, true, k - 1);
      ModifyHasRoom(cfg, b, c, k);
    }
  }

  /** A modify is never canceled for want of a slot. */
  lemma ModifyHasRoom(cfg: Config, b: Book, c: Command, k: nat)
    requires BookOk(cfg, b) && c.kind == Modify && k < |ModifyOrder(cfg, b, c).events|
    ensures ModifyOrder(cfg, b, c).events[k].reason != BookFull
  {
    hide ModifyOrder;
    ModifyNeverBookFull(cfg, b, c);
  }

  // ---- CancelIncoming ----

  /** Under CancelIncoming the resting order it met stands: first of its side, its owner's, within the limit. */
  lemma IncomingYields(rules: Rules, cfg: Config, cmds: seq<Command>, c: Command, k: nat)
    requires k < |Answer(rules, cfg, RunOf(rules, cfg, cmds).book, c).events|
    requires Answer(rules, cfg, RunOf(rules, cfg, cmds).book, c).events[k].reason == SelfTrade
    requires ModeFor(cfg, c) == CancelIncoming
    ensures var b, from := RunOf(rules, cfg, cmds).book, Entering(rules, cfg, cmds);
      var q := Resting(Answer(rules, cfg, b, c).book, Opposite(SideFrom(from, c)));
      && q != [] && IsOwn(from, q[0].id, OwnerOf(from, c)) && InReach(cfg, c, SideFrom(from, c), q[0].price)
  {
    hide Apply, Answer, BookOk, RunOf, Contains;
    var b, from := RunOf(rules, cfg, cmds).book, Entering(rules, cfg, cmds);
    RunEntered(rules, cfg, cmds);
    RunsOk(rules, cfg, cmds);
    AnswerIs(rules, cfg, b, c);
    AnswerKnown(rules, cfg, b, c, k);
    FlagBits(c.flags, cfg.stp);
    TakerKnown(cfg, b, c, from);
    if Answer(rules, cfg, b, c) == Apply(cfg, b, c) {
      ApplyYields(cfg, b, c, k);
      ApplySuffix(cfg, b, c, from);
    }
  }

  lemma ApplyYields(cfg: Config, b: Book, c: Command, k: nat)
    requires BookOk(cfg, b) && k < |Apply(cfg, b, c).events| && Apply(cfg, b, c).events[k].reason == SelfTrade
    requires TakerOf(cfg, b, c).stp == CancelIncoming
    ensures var t := TakerOf(cfg, b, c);
      var q := Resting(Apply(cfg, b, c).book, Opposite(t.side));
      q != [] && q[0].owner == t.owner && InReach(cfg, c, t.side, q[0].price)
  {
    hide Execute, Fillable, RemoveAt, EffectiveStp;
    match c.kind
    case NewOrder =>
      var t, px := AddTaker(cfg, c), if c.ordType == Market then 0 else c.price;
      ExecuteYields(cfg, b, t, px, c.qty, c.ordType == Limit && c.tif == Day, k - 1);
    case Modify =>
      var side := SideOf(b, c.orderId);
      FindHit(Resting(b, side), c.orderId);
      var i := Find(Resting(b, side), c.orderId);
      var b0 := WithResting(b, side, RemoveAt(Resting(b, side), i));
      assert BookOk(cfg, b0) && !Contains(b0, c.orderId) by { RemovedOk(cfg, b, side, i); }
      ExecuteYields(cfg, b0, TakerOf(cfg, b, c), c.price, c.qty, true, k - 1);
  }

  lemma ExecuteYields(cfg: Config, b: Book, t: Taker, px: int, qty: nat, mayRest: bool, k: nat)
    requires BookOk(cfg, b) && !Contains(b, t.id) && t.stp == CancelIncoming
    requires k < |Execute(cfg, b, t, px, qty, mayRest).events|
    requires Execute(cfg, b, t, px, qty, mayRest).events[k].reason == SelfTrade
    ensures var q := Resting(Execute(cfg, b, t, px, qty, mayRest).book, Opposite(t.side));
      q != [] && q[0].owner == t.owner && Reaches(t.side, t.limit, q[0].price)
  {
    hide Insert, LeftAfter;
    var q, z := Resting(b, Opposite(t.side)), Execute(cfg, b, t, px, qty, mayRest);
    var r := Sweep(q, t, qty);
    QueueFacts(cfg, b, Opposite(t.side), t.id);
    ExecuteRight(cfg, b, t, px, qty, mayRest, k);
    SweepEnd(q, t, qty);
    assert |r.events| <= |z.events| <= |r.events| + 1 && z.events[..|r.events|] == r.events;
    if k < |r.events| {
      assert z.events[k] == r.events[k];
      SweepRight(q, t, qty, k);
    }
    hide Sweep;
    assert r.stop;
    StopMeans(q, t, qty);
  }

  /** The opposite side keeps its orders' owners. */
  lemma ApplySuffix(cfg: Config, b: Book, c: Command, from: map<nat, Command>)
    requires BookOk(cfg, b) && BookEntered(b, from) && c.kind != Cancel
    ensures var opp := Opposite(TakerOf(cfg, b, c).side);
      EnteredAs(opp, Resting(Apply(cfg, b, c).book, opp), from)
  {
    hide Execute, Fillable, RemoveAt, EnteredAs, BookOk, EffectiveStp;
    match c.kind
    case NewOrder =>
      ExecuteSuffix(cfg, b, AddTaker(cfg, c), if c.ordType == Market then 0 else c.price, c.qty,
                    c.ordType == Limit && c.tif == Day, from);
    case Modify =>
      if ModifyReject(cfg, b, c) == NoReason {
        ModifyEntered(cfg, b, c, from);
      }
  }

  lemma ExecuteSuffix(cfg: Config, b: Book, t: Taker, px: int, qty: nat, mayRest: bool, from: map<nat, Command>)
    requires BookOk(cfg, b) && BookEntered(b, from)
    ensures var opp := Opposite(t.side);
      EnteredAs(opp, Resting(Execute(cfg, b, t, px, qty, mayRest).book, opp), from)
  {
    hide Sweep, Insert, EnteredAs, Consumed;
    var q := Resting(b, Opposite(t.side));
    QueueFacts(cfg, b, Opposite(t.side), t.id);
    SweepShape(q, t, qty);
    EnteredConsumed(Opposite(t.side), q, Sweep(q, t, qty).queue, from);
  }
}
