/** Public market data, the engine's side: which price levels a batch may have changed. Every level whose
    total a command changes is noted from its events, but for price 0, which the notes take for a market
    order. */
module LevelNotes {
  import opened Types
  import opened BookSpec
  import opened BookInvariant

  /** A price level of one side of one symbol. */
  datatype Place = Place(symbol: nat, side: Side, price: int)

  /** What rests at a price. */
  function LevelTotal(q: seq<Order>, px: int): nat {
    if q == [] then 0 else (if q[0].price == px then q[0].qty else 0) + LevelTotal(q[1..], px)
  }

  /** The level an event speaks of, if the notes take it up. */
  function Note(e: Event): set<Place> {
    match e.kind
    case Trade => {Place(e.symbol, Opposite(e.side), e.price)}
    case Accepted => if e.price != 0 then {Place(e.symbol, e.side, e.price)} else {}
    case Canceled => if e.price != 0 then {Place(e.symbol, e.side, e.price)} else {}
    case Modified => if e.price != 0 then {Place(e.symbol, e.side, e.price)} else {}
    case Rejected => {}
  }

  function Notes(events: seq<Event>): set<Place> {
    set k, p | 0 <= k < |events| && p in Note(events[k]) :: p
  }

  lemma NotesConcat(a: seq<Event>, b: seq<Event>)
    ensures Notes(a + b) == Notes(a) + Notes(b)
  {
    forall p ensures p in Notes(a + b) <==> p in Notes(a) + Notes(b) {
      if p in Notes(a) {
        var k :| 0 <= k < |a| && p in Note(a[k]);
        assert p in Note((a + b)[k]);
      }
      if p in Notes(b) {
        var k :| 0 <= k < |b| && p in Note(b[k]);
        assert p in Note((a + b)[|a| + k]);
      }
      if p in Notes(a + b) {
        var k :| 0 <= k < |a + b| && p in Note((a + b)[k]);
        assert p in if k < |a| then Note(a[k]) else Note(b[k - |a|]);
      }
    }
  }

  lemma NotesOne(e: Event)
    ensures Notes([e]) == Note(e)
  {
    forall p | p in Note(e) ensures p in Notes([e]) {
      assert p in Note([e][0]);
    }
  }

  // ---- how each change of a queue moves its level totals ----

  lemma {:induction false} TotalAppend(a: seq<Order>, b: seq<Order>, px: int)
    ensures LevelTotal(a + b, px) == LevelTotal(a, px) + LevelTotal(b, px)
  {
    if a == [] {
      assert a + b == b;
    } else {
      assert (a + b)[1..] == a[1..] + b;
      TotalAppend(a[1..], b, px);
    }
  }

  lemma TotalOne(o: Order, px: int)
    ensures LevelTotal([o], px) == if o.price == px then o.qty else 0
  {
    assert [o][1..] == [];
  }

  lemma {:induction false} NoneAt(q: seq<Order>, px: int)
    requires forall k :: 0 <= k < |q| ==> q[k].price != px
    ensures LevelTotal(q, px) == 0
  {
    if q != [] {
      NoneAt(q[1..], px);
    }
  }

  lemma TotalRemove(q: seq<Order>, k: nat, px: int)
    requires k < |q| && q[k].price != px
    ensures LevelTotal(RemoveAt(q, k), px) == LevelTotal(q, px)
  {
    assert q == q[..k] + ([q[k]] + q[k + 1..]);
    TotalAppend(q[..k], [q[k]] + q[k + 1..], px);
    TotalAppend([q[k]], q[k + 1..], px);
    TotalAppend(q[..k], q[k + 1..], px);
    TotalOne(q[k], px);
  }

  lemma TotalUpdate(q: seq<Order>, k: nat, o: Order, px: int)
    requires k < |q| && q[k].price == o.price != px
    ensures LevelTotal(q[k := o], px) == LevelTotal(q, px)
  {
    TotalRemove(q, k, px);
    TotalRemove(q[k := o], k, px);
    assert RemoveAt(q[k := o], k) == RemoveAt(q, k);
  }

  lemma {:induction false} TotalInsert(q: seq<Order>, side: Side, o: Order, px: int)
    ensures LevelTotal(Insert(q, side, o), px) == LevelTotal(q, px) + if o.price == px then o.qty else 0
    decreases |q|
  {
    if q == [] {
      TotalOne(o, px);
    } else if Better(side, o.price, q[0].price) {
      assert ([o] + q)[1..] == q;
    } else {
      TotalInsert(q[1..], side, o, px);
    }
  }

  /** A sweep notes every level it takes from. */
  lemma {:induction false} SweepNoted(q: seq<Order>, t: Taker, qty: nat, px: int)
    requires px != 0 && LevelTotal(Sweep(q, t, qty).queue, px) != LevelTotal(q, px)
    ensures Place(t.symbol, Opposite(t.side), px) in Notes(Sweep(q, t, qty).events)
    decreases |q|
  {
    var o, r := q[0], Sweep(q, t, qty);
    assert r.events != [] && (o.price == 0 || Place(t.symbol, Opposite(t.side), o.price) in Note(r.events[0]));
    if o.price != px {
      if t.stp != NoStp && o.owner == t.owner {
        if o.qty <= qty || t.stp == CancelResting {
          var left := if t.stp == DecrementCancel then qty - o.qty else qty;
          SweepNoted(q[1..], t, left, px);
          NotesTail(r.events, Sweep(q[1..], t, left).events);
        }
      } else {
        SweepNoted(q[1..], t, qty - o.qty, px);
        NotesTail(r.events, Sweep(q[1..], t, qty - o.qty).events);
      }
    }
  }

  lemma NotesTail(events: seq<Event>, tail: seq<Event>)
    requires |tail| <= |events| && events[|events| - |tail|..] == tail
    ensures Notes(tail) <= Notes(events)
  {
    assert events == events[..|events| - |tail|] + tail;
    NotesConcat(events[..|events| - |tail|], tail);
  }

  /** A level an execution changes is noted, or is where the order itself came to rest. */
  lemma ExecuteNoted(cfg: Config, b: Book, t: Taker, px: int, qty: nat, mayRest: bool, side: Side, level: int)
    requires t.symbol == cfg.symbol && level != 0
    requires var z := Execute(cfg, b, t, px, qty, mayRest).book;
      LevelTotal(Resting(z, side), level) != LevelTotal(Resting(b, side), level)
    ensures Place(cfg.symbol, side, level) in Notes(Execute(cfg, b, t, px, qty, mayRest).events)
         || (mayRest && side == t.side && level == t.limit)
  {
    hide Sweep, Insert;
    var opp := Opposite(t.side);
    var r, z := Sweep(Resting(b, opp), t, qty), Execute(cfg, b, t, px, qty, mayRest);
    if side == opp {
      SweepNoted(Resting(b, opp), t, qty, level);
      NotesConcat(r.events, z.events[|r.events|..]);
      assert z.events == r.events + z.events[|r.events|..];
    } else {
      TotalInsert(Resting(b, side), side, Order(t.id, r.left, t.owner, t.limit), level);
    }
  }

  /** Besides what its events note, a modify notes the level the order is about to leave. */
  function LeftBehind(cfg: Config, b: Book, c: Command): set<Place> {
    if c.kind != Modify || !Contains(b, c.orderId) then {}
    else
      var side := SideOf(b, c.orderId);
      var k := Find(Resting(b, side), c.orderId);
      FindHit(Resting(b, side), c.orderId);
      {Place(cfg.symbol, side, Resting(b, side)[k].price)}
  }

  /** Every level a command changes is noted, whatever the command does. */
  lemma ChangesNoted(cfg: Config, b: Book, c: Command, side: Side, level: int)
    requires level != 0
    requires LevelTotal(Resting(Apply(cfg, b, c).book, side), level) != LevelTotal(Resting(b, side), level)
    ensures Place(cfg.symbol, side, level) in Notes(Apply(cfg, b, c).events) + LeftBehind(cfg, b, c)
  {
    hide Execute, Fillable;
    match c.kind
    case NewOrder => AddNoted(cfg, b, c, side, level);
    case Cancel =>
      var s := SideOf(b, c.orderId);
      FindHit(Resting(b, s), c.orderId);
      var k := Find(Resting(b, s), c.orderId);
      NotesOne(Apply(cfg, b, c).events[0]);
      if Resting(b, s)[k].price != level {
        TotalRemove(Resting(b, s), k, level);
      }
    case Modify => ModifyNoted(cfg, b, c, side, level);
  }

  lemma AddNoted(cfg: Config, b: Book, c: Command, side: Side, level: int)
    requires level != 0 && c.kind == NewOrder
    requires LevelTotal(Resting(Add(cfg, b, c).book, side), level) != LevelTotal(Resting(b, side), level)
    ensures Place(cfg.symbol, side, level) in Notes(Add(cfg, b, c).events)
  {
    hide Execute, Fillable, EffectiveStp;
    var px := if c.ordType == Market then 0 else c.price;
    var z := Execute(cfg, b, AddTaker(cfg, c), px, c.qty, c.ordType == Limit && c.tif == Day);
    var accepted := AcceptedEvent(cfg.symbol, c.orderId, c.side, px, c.qty);
    NotesConcat([accepted], z.events);
    NotesOne(accepted);
    ExecuteNoted(cfg, b, AddTaker(cfg, c), px, c.qty, c.ordType == Limit && c.tif == Day, side, level);
  }

  lemma ModifyNoted(cfg: Config, b: Book, c: Command, side: Side, level: int)
    requires level != 0 && c.kind == Modify
    requires LevelTotal(Resting(ModifyOrder(cfg, b, c).book, side), level) != LevelTotal(Resting(b, side), level)
    ensures Place(cfg.symbol, side, level) in Notes(ModifyOrder(cfg, b, c).events) + LeftBehind(cfg, b, c)
  {
    hide Execute, Find, RemoveAt;
    var s := SideOf(b, c.orderId);
    var q := Resting(b, s);
    FindHit(q, c.orderId);
    var k := Find(q, c.orderId);
    var modified := ModifiedEvent(cfg.symbol, c.orderId, s, c.price, c.qty);
    NotesOne(modified);
    if c.price == q[k].price && c.qty <= q[k].qty {
      if q[k].price != level {
        TotalUpdate(q, k, q[k].(qty := c.qty), level);
      }
    } else {
      var b0 := WithResting(b, s, RemoveAt(q, k));
      var t := Taker(cfg.symbol, c.orderId, q[k].owner, s, c.price, cfg.stp);
      var z := Execute(cfg, b0, t, c.price, c.qty, true);
      NotesConcat([modified], z.events);
      if q[k].price != level {
        TotalRemove(q, k, level);
      }
      if LevelTotal(Resting(z.book, side), level) != LevelTotal(Resting(b0, side), level) {
        ExecuteNoted(cfg, b0, t, c.price, c.qty, true, side, level);
      }
    }
  }

  /** Price 0 is taken for a market order: an order resting there changes a level nothing notes. */
  lemma PriceZeroUnnoted(cfg: Config, id: nat, qty: nat)
    requires InBand(cfg, 0) && cfg.maxOrders > 0 && id > 0 && qty > 0
    ensures var c := Command(NewOrder, id, 0, qty, 0, cfg.symbol, Buy, Limit, Day, 0, 0, 0);
      var z := Apply(cfg, EmptyBook, c);
      && LevelTotal(z.book.bids, 0) == qty && LevelTotal(EmptyBook.bids, 0) == 0
      && Place(cfg.symbol, Buy, 0) !in Notes(z.events) + LeftBehind(cfg, EmptyBook, c)
  {
    var c := Command(NewOrder, id, 0, qty, 0, cfg.symbol, Buy, Limit, Day, 0, 0, 0);
    var z := Apply(cfg, EmptyBook, c);
    assert z.events == [AcceptedEvent(cfg.symbol, id, Buy, 0, qty)];
    NotesOne(z.events[0]);
    TotalOne(Order(id, qty, 0, 0), 0);
  }

  lemma NothingAtZero(cfg: Config, b: Book, side: Side)
    requires BookOk(cfg, b) && !InBand(cfg, 0)
    ensures LevelTotal(Resting(b, side), 0) == 0
  {
    NoneAt(Resting(b, side), 0);
  }

  /** Every level that the command, with this outcome, changes is noted. */
  ghost predicate AllNoted(cfg: Config, b: Book, c: Command, z: Outcome) {
    forall side, level ::
      LevelTotal(Resting(z.book, side), level) != LevelTotal(Resting(b, side), level)
      ==> Place(cfg.symbol, side, level) in Notes(z.events) + LeftBehind(cfg, b, c)
  }

  /** Every command on every sound book notes every level it changes, if and only if price 0 is outside the
      band. */
  lemma NotedIff(cfg: Config)
    requires cfg.maxOrders > 0
    ensures (forall b, c :: BookOk(cfg, b) ==> AllNoted(cfg, b, c, Apply(cfg, b, c))) <==> !InBand(cfg, 0)
  {
    hide Apply, BookOk, InBand, LeftBehind;
    if InBand(cfg, 0) {
      var c := Command(NewOrder, 1, 0, 1, 0, cfg.symbol, Buy, Limit, Day, 0, 0, 0);
      PriceZeroUnnoted(cfg, 1, 1);
      EmptySound(cfg);
      assert !AllNoted(cfg, EmptyBook, c, Apply(cfg, EmptyBook, c));
    } else {
      forall b, c | BookOk(cfg, b) ensures AllNoted(cfg, b, c, Apply(cfg, b, c)) {
        forall side, level |
          LevelTotal(Resting(Apply(cfg, b, c).book, side), level) != LevelTotal(Resting(b, side), level)
          ensures Place(cfg.symbol, side, level) in Notes(Apply(cfg, b, c).events) + LeftBehind(cfg, b, c)
        {
          ApplyOk(cfg, b, c);
          NothingAtZero(cfg, b, side);
          NothingAtZero(cfg, Apply(cfg, b, c).book, side);
          ChangesNoted(cfg, b, c, side, level);
        }
      }
    }
  }

  lemma EmptySound(cfg: Config)
    ensures BookOk(cfg, EmptyBook) && Resting(EmptyBook, Buy) == []
  {
  }

  // ---- with price 0 in the band ----

  ghost predicate Without(q: seq<Order>, px: int) {
    forall k :: 0 <= k < |q| ==> q[k].price != px
  }

  /** No order rests at price 0. */
  ghost predicate ZeroFree(b: Book) {
    Without(b.bids, 0) && Without(b.asks, 0)
  }

  /** A command that could put an order at price 0. */
  predicate PricedZero(c: Command) {
    c.price == 0 && (c.kind == Modify || (c.kind == NewOrder && c.ordType == Limit))
  }

  lemma {:induction false} SomeAt(q: seq<Order>, px: int)
    requires !Without(q, px) && forall k :: 0 <= k < |q| ==> q[k].qty > 0
    ensures LevelTotal(q, px) > 0
  {
    if q[0].price != px {
      var k :| 0 <= k < |q| && q[k].price == px;
      assert q[1..][k - 1] == q[k];
      SomeAt(q[1..], px);
    }
  }

  /** On a sound book, nothing rests at price 0 when both its totals there are 0. */
  lemma ZeroFreeIff(cfg: Config, b: Book)
    requires BookOk(cfg, b)
    ensures ZeroFree(b) <==> LevelTotal(b.bids, 0) == 0 && LevelTotal(b.asks, 0) == 0
  {
    if Without(b.bids, 0) { NoneAt(b.bids, 0); } else { SomeAt(b.bids, 0); }
    if Without(b.asks, 0) { NoneAt(b.asks, 0); } else { SomeAt(b.asks, 0); }
  }

  ghost predicate TradesOff(events: seq<Event>, px: int) {
    forall k :: 0 <= k < |events| && events[k].kind == Trade ==> events[k].price != px
  }

  /** A sweep trades at, and leaves, prices of the queue it started from. */
  lemma {:induction false} SweepOff(q: seq<Order>, t: Taker, qty: nat, px: int)
    requires Without(q, px)
    ensures TradesOff(Sweep(q, t, qty).events, px) && Without(Sweep(q, t, qty).queue, px)
    decreases |q|
  {
    if qty != 0 && q != [] && Reaches(t.side, t.limit, q[0].price) {
      SweepOff(q[1..], t, qty, px);
      if q[0].qty <= qty {
        SweepOff(q[1..], t, qty - q[0].qty, px);
      }
    }
  }

  lemma InsertOff(q: seq<Order>, side: Side, o: Order, px: int)
    requires Without(q, px) && o.price != px
    ensures Without(Insert(q, side, o), px)
  {
    InsertShape(q, side, o);
  }

  lemma ExecuteOff(cfg: Config, b: Book, t: Taker, px: int, qty: nat, mayRest: bool)
    requires ZeroFree(b)
    ensures TradesOff(Execute(cfg, b, t, px, qty, mayRest).events, 0)
    ensures !mayRest || t.limit != 0 ==> ZeroFree(Execute(cfg, b, t, px, qty, mayRest).book)
  {
    hide Sweep, Insert, Without;
    var q := Resting(b, Opposite(t.side));
    SweepOff(q, t, qty, 0);
    if t.limit != 0 {
      InsertOff(Resting(b, t.side), t.side, Order(t.id, Sweep(q, t, qty).left, t.owner, t.limit), 0);
    }
  }

  lemma RemoveOff(b: Book, side: Side, k: nat)
    requires ZeroFree(b) && k < |Resting(b, side)|
    ensures ZeroFree(WithResting(b, side, RemoveAt(Resting(b, side), k)))
  {
  }

  /** From a book with nothing at price 0 no command trades there, and none but one priced 0 rests there. */
  lemma ApplyOff(cfg: Config, b: Book, c: Command)
    requires ZeroFree(b)
    ensures TradesOff(Apply(cfg, b, c).events, 0)
    ensures !PricedZero(c) ==> ZeroFree(Apply(cfg, b, c).book)
  {
    hide Execute, Fillable, RemoveAt;
    match c.kind
    case NewOrder =>
      var px := if c.ordType == Market then 0 else c.price;
      ExecuteOff(cfg, b, AddTaker(cfg, c), px, c.qty, c.ordType == Limit && c.tif == Day);
    case Cancel =>
      if Contains(b, c.orderId) {
        var s := SideOf(b, c.orderId);
        FindHit(Resting(b, s), c.orderId);
        RemoveOff(b, s, Find(Resting(b, s), c.orderId));
      }
    case Modify =>
      if ModifyReject(cfg, b, c) == NoReason {
        ModifyOff(cfg, b, c);
      }
  }

  lemma ModifyOff(cfg: Config, b: Book, c: Command)
    requires ZeroFree(b) && c.kind == Modify && ModifyReject(cfg, b, c) == NoReason
    ensures TradesOff(ModifyOrder(cfg, b, c).events, 0)
    ensures c.price != 0 ==> ZeroFree(ModifyOrder(cfg, b, c).book)
  {
    hide Execute, RemoveAt;
    var s := SideOf(b, c.orderId);
    var q := Resting(b, s);
    FindHit(q, c.orderId);
    var k := Find(q, c.orderId);
    if c.price != q[k].price || c.qty > q[k].qty {
      RemoveOff(b, s, k);
      var t := Taker(cfg.symbol, c.orderId, q[k].owner, s, c.price, cfg.stp);
      ExecuteOff(cfg, WithResting(b, s, RemoveAt(q, k)), t, c.price, c.qty, true);
    }
  }

  /** Nothing notes price 0 unless something rested there before the command. */
  lemma ZeroUnnoted(cfg: Config, b: Book, c: Command, side: Side)
    requires ZeroFree(b)
    ensures Place(cfg.symbol, side, 0) !in Notes(Apply(cfg, b, c).events) + LeftBehind(cfg, b, c)
  {
    hide Apply;
    ApplyOff(cfg, b, c);
    var events := Apply(cfg, b, c).events;
    forall k | 0 <= k < |events| ensures Place(cfg.symbol, side, 0) !in Note(events[k]) {
      assert events[k].kind == Trade ==> events[k].price != 0;
    }
    if Contains(b, c.orderId) {
      FindHit(Resting(b, SideOf(b, c.orderId)), c.orderId);
    }
  }

  /** In every configuration: from a sound book with nothing at price 0, a command notes every level it changes
      if and only if nothing rests at price 0 after it. */
  lemma CommandNotedIff(cfg: Config, b: Book, c: Command)
    requires BookOk(cfg, b) && ZeroFree(b)
    ensures AllNoted(cfg, b, c, Apply(cfg, b, c)) <==> ZeroFree(Apply(cfg, b, c).book)
  {
    hide Apply, BookOk, LeftBehind, ZeroFree;
    var after := Apply(cfg, b, c).book;
    ApplyOk(cfg, b, c);
    ZeroFreeIff(cfg, b);
    ZeroFreeIff(cfg, after);
    if !ZeroFree(after) {
      var side := if LevelTotal(after.bids, 0) > 0 then Buy else Sell;
      ZeroUnnoted(cfg, b, c, side);
      assert LevelTotal(Resting(after, side), 0) != LevelTotal(Resting(b, side), 0);
    } else {
      forall side, level | LevelTotal(Resting(after, side), level) != LevelTotal(Resting(b, side), level)
        ensures Place(cfg.symbol, side, level) in Notes(Apply(cfg, b, c).events) + LeftBehind(cfg, b, c)
      {
        ChangesNoted(cfg, b, c, side, level);
      }
    }
  }
}
