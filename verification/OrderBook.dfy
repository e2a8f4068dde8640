/** The optimised price-time book: a dense ladder of levels, queues threaded through slab slots, cached
    bests with sentinels, price bitmaps and the order-id index, all updated in place. Every operation is
    proved to emit exactly the specification's events and to leave a state that stands for the
    specification's book and passes the structural audit. */
module OrderBooks {
  import opened Types
  import opened BookSpec
  import opened BookInvariant
  import opened OrderStores
  import opened BookStates
  import opened BookSteps
  import opened BookPlaces
  import opened PriceBitmaps
  import opened OrderIndexes
  import opened SweepLaws
  import opened Ladders
  import opened BookFillable
  import opened MissedFills

  predicate ValidConfig(cfg: Config) {
    && cfg.numLevels > 0 && cfg.numLevels % 64 == 0 && cfg.numLevels <= 0x4000_0000
    && 0 < cfg.maxOrders < NIL
  }

  function KeyOf(recs: seq<Rec>): nat -> nat {
    s => Get(recs, s).id
  }

  class OrderBook {
    const cfg: Config
    var bestBid: int
    var bestAsk: int
    const levels: array<Level>
    const bidBits: PriceBitmap
    const askBits: PriceBitmap
    const ids: OrderIndex
    const store: OrderStore
    /** The ladder's contents, and each level's slots, front first: what the links mean. */
    ghost var Levels: seq<Level>
    ghost var queues: seq<seq<nat>>
    ghost const Repr: set<object>

    ghost predicate LadderOk()
      reads `Levels, levels
    {
      Levels == levels[..]
    }

    /** The parts are sound on their own and share no storage. */
    ghost predicate Parts()
      reads this, Repr
    {
      && Repr == {this, levels, bidBits, bidBits.words, bidBits.summary, askBits, askBits.words, askBits.summary,
                  ids, ids.slots, store, store.recs}
      && bidBits != askBits
      && bidBits.words != askBits.words && bidBits.words != askBits.summary
      && bidBits.summary != askBits.words && bidBits.summary != askBits.summary
      && levels as object != ids.slots && levels as object != store.recs && ids.slots as object != store.recs
      && LadderOk() && bidBits.Valid() && askBits.Valid() && ids.Valid() && store.Valid()
      && bidBits.n == cfg.numLevels && askBits.n == cfg.numLevels && levels.Length == cfg.numLevels
      && ids.maxEntries == cfg.maxOrders && store.recs.Length == cfg.maxOrders
      && |Levels| == levels.Length && |store.Recs| == store.recs.Length
    }

    ghost function State(): State
      reads this, store, bidBits, askBits, ids
    {
      BookStates.State.State(Levels, store.Recs, queues, store.Free, bidBits.Members, askBits.Members,
                             bestBid, bestAsk, ids.Entries)
    }

    ghost predicate Valid()
      reads this, Repr
    {
      Parts() && Inv(cfg, State())
    }

    /** The book this object stands for. */
    ghost function Contents(): Book
      reads this, Repr
      requires Parts()
    {
      Abs(cfg, State())
    }

    constructor (config: Config, lv: array<Level>, bb: PriceBitmap, ab: PriceBitmap, ix: OrderIndex, st: OrderStore)
      requires bb.Valid() && ab.Valid() && ix.Valid() && st.Valid()
      requires bb != ab && bb.words != ab.words && bb.words != ab.summary && bb.summary != ab.words
      requires bb.summary != ab.summary
      requires bb.n == config.numLevels && ab.n == config.numLevels && lv.Length == config.numLevels
      requires ix.maxEntries == config.maxOrders && st.recs.Length == config.maxOrders == |st.Recs|
      ensures Parts() && cfg == config
      ensures levels == lv && bidBits == bb && askBits == ab && ids == ix && store == st
      ensures bestBid == -1 && bestAsk == config.numLevels && queues == seq(config.numLevels, _ => [])
      ensures Levels == lv[..]
    {
      hide PriceBitmap.Valid, OrderIndex.Valid, OrderStore.Valid;
      cfg, levels, bidBits, askBits, ids, store := config, lv, bb, ab, ix, st;
      bestBid, bestAsk := -1, config.numLevels;
      queues := seq(config.numLevels, _ => []);
      Levels := lv[..];
      Repr := {this, lv, bb, bb.words, bb.summary, ab, ab.words, ab.summary, ix, ix.slots, st, st.recs};
    }

    /** A state with nothing in it. */
    static ghost predicate Blank(cfg: Config, st: State) {
      && |st.levels| == cfg.numLevels && |st.queues| == cfg.numLevels && |st.recs| == cfg.maxOrders
      && (forall i :: 0 <= i < |st.levels| ==> st.levels[i] == Level(0, NIL, NIL))
      && (forall i :: 0 <= i < |st.queues| ==> st.queues[i] == [])
      && NextLinked(st.recs, st.free) && st.free == seq(cfg.maxOrders, i => i)
      && st.bids == {} && st.asks == {} && st.bestBid == -1 && st.bestAsk == cfg.numLevels && st.index == map[]
    }

    static method NewBits(n: nat) returns (bb: PriceBitmap, ab: PriceBitmap)
      requires n > 0 && n % 64 == 0
      ensures fresh(bb) && fresh(bb.words) && fresh(bb.summary) && fresh(ab) && fresh(ab.words) && fresh(ab.summary)
      ensures bb != ab && bb.words != ab.words && bb.words != ab.summary && bb.summary != ab.words
      ensures bb.summary != ab.summary
      ensures bb.Valid() && ab.Valid() && bb.n == n && ab.n == n && bb.Members == {} && ab.Members == {}
    {
      hide PriceBitmap.Valid;
      bb := new PriceBitmap(n);
      ab := new PriceBitmap(n);
    }

    static method NewIndex(max: nat) returns (ix: OrderIndex)
      requires max < NIL
      ensures fresh(ix) && fresh(ix.slots) && ix.Valid() && ix.Entries == map[] && ix.maxEntries == max
    {
      hide TableSize, Log2, LocalityHash, OrderIndex.Valid;
      var bits := Log2(TableSize(max));
      ix := new OrderIndex(max, k => LocalityHash(k, bits));
    }

    /** Opens an empty book; no book for a configuration the source refuses. */
    static method Open(config: Config) returns (b: OrderBook?)
      ensures b == null <==> !ValidConfig(config)
      ensures b != null ==> fresh(b) && fresh(b.Repr) && b.Valid() && b.cfg == config && b.Contents() == EmptyBook
    {
      hide Inv, Abs, NextLinked, TableSize, Log2, LocalityHash, PriceBitmap.Valid, OrderIndex.Valid, OrderStore.Valid;
      if !ValidConfig(config) {
        return null;
      }
      var lv := new Level[config.numLevels](_ => Level(0, NIL, NIL));
      var bb, ab := NewBits(config.numLevels);
      var ix := NewIndex(config.maxOrders);
      var st := new OrderStore(config.maxOrders);
      b := new OrderBook(config, lv, bb, ab, ix, st);
      EmptyOk(config, b.State());
    }

    static lemma EmptyOk(cfg: Config, st: State)
      requires ValidConfig(cfg) && Blank(cfg, st)
      ensures Inv(cfg, st) && Abs(cfg, st) == EmptyBook
    {
      hide SlotsOk, IndexOk, BestsOk, Abs, NextLinked;
      EmptySlots(cfg, st);
      EmptyBests(cfg, st);
      EmptyLevels(cfg, st);
      NoneLeads(cfg, st, Buy);
      NoneLeads(cfg, st, Sell);
      assert Abs(cfg, st) == EmptyBook;
    }

    static lemma EmptySlots(cfg: Config, st: State)
      requires ValidConfig(cfg) && Blank(cfg, st)
      ensures SlotsOk(st) && IndexOk(st)
    {
      forall s | 0 <= s < |st.recs| ensures s in st.free && !Live(st, s) {
        assert st.free[s] == s;
      }
    }

    static lemma EmptyBests(cfg: Config, st: State)
      requires ValidConfig(cfg) && Blank(cfg, st)
      ensures BestsOk(st) && Best(st, Buy) !in Marked(st, Buy) && Best(st, Sell) !in Marked(st, Sell)
    {
      hide NextLinked;
    }

    static lemma EmptyLevels(cfg: Config, st: State)
      requires ValidConfig(cfg) && Blank(cfg, st)
      ensures Others(cfg, st, -1)
    {
    }

    lemma KeysKnown()
      requires Parts() && IndexOk(State())
      ensures ids.Knows(KeyOf(store.Recs))
    {
      forall id | id in ids.Entries ensures KeyOf(store.Recs)(ids.Entries[id]) == id {
        assert Live(State(), State().index[id]);
      }
    }

    function LevelOf(i: nat): (lv: Level)
      requires LadderOk() && i < levels.Length
      reads `Levels, levels
      ensures i < |Levels| && lv == Levels[i]
    {
      levels[i]
    }

    method SetLevel(i: nat, lv: Level)
      requires LadderOk() && i < levels.Length
      modifies levels, `Levels
      ensures LadderOk() && i < |old(Levels)| && Levels == old(Levels)[i := lv]
    {
      levels[i] := lv;
      Levels := Levels[i := lv];
    }

    /** The neighbours' links, the level's ends and its total, after slot s leaves its queue. */
    method UnlinkLinks(s: nat, ghost side: Side, ghost k: nat)
      requires Parts() && s < |store.Recs| && store.Recs[s].level < |queues| == |Levels|
      requires PlacedAt(State(), s, side, store.Recs[s].level, k)
      requires QueueOk(State(), store.Recs[s].level) && EndsOk(State(), store.Recs[s].level)
      requires forall j :: 0 <= j < |queues[store.Recs[s].level]| ==> queues[store.Recs[s].level][j] !in store.Free
      modifies levels, store.recs, store`Recs, `queues, `Levels
      ensures Parts()
      ensures var st, ix := old(State()), old(store.Recs[s].level);
        var q, lv := st.queues[ix], st.levels[ix];
        State() == st.(recs := LinkOut(st.recs, q, k), queues := st.queues[ix := Without(q, k)],
          levels := st.levels[ix := Level(Sub64(lv.qty, st.recs[s].qty), HeadOf(Without(q, k)), LastOf(Without(q, k)))])
    {
      hide QueueOk, EndsOk, Without, PriceBitmap.Valid, OrderIndex.Valid, Sub64, NextLinked, NoDup, LadderOk;
      var r := store.At(s);
      var ix := r.level;
      var lv := LevelOf(ix);
      UnlinkReads(State(), s, side, ix, k);
      var head, tail := lv.head, lv.tail;
      if s == lv.head {
        head := r.next;
      } else {
        store.Update(r.prev, store.At(r.prev).(next := r.next));
      }
      if s == lv.tail {
        tail := if head == NIL then NIL else r.prev;
      } else {
        store.Update(r.next, store.At(r.next).(prev := r.prev));
      }
      SetLevel(ix, Level(Sub64(lv.qty, r.qty), head, tail));
      queues := queues[ix := Without(queues[ix], k)];
    }

    /** Clears a level's mark and moves the cached best past it. */
    method MoveBest(side: Side, ix: nat)
      requires Parts() && ix < cfg.numLevels
      modifies this`bestBid, this`bestAsk, bidBits, bidBits.words, bidBits.summary, askBits, askBits.words,
        askBits.summary
      ensures Parts() && NewBest(old(State()), side, ix, Best(State(), side))
      ensures State() == Retire(old(State()), side, ix, Best(State(), side))
    {
      hide OrderIndex.Valid, OrderStore.Valid, Lists, Summarises, LadderOk;
      if side == Buy {
        bidBits.Clear(ix);
        bestBid := bidBits.FindPrev(ix - 1);
      } else {
        askBits.Clear(ix);
        bestAsk := askBits.FindNext(ix + 1);
      }
    }

    /** Retires an emptied level; the best moves only if this level was it. */
    method RetireLevel(side: Side, ix: nat)
      requires Parts() && ix < cfg.numLevels
      modifies this`bestBid, this`bestAsk, bidBits, bidBits.words, bidBits.summary, askBits, askBits.words,
        askBits.summary
      ensures Parts() && (ix == old(Best(State(), side)) ==> NewBest(old(State()), side, ix, Best(State(), side)))
      ensures ix != old(Best(State(), side)) ==> Best(State(), side) == old(Best(State(), side))
      ensures State() == Retire(old(State()), side, ix, Best(State(), side))
    {
      hide PriceBitmap.Valid, OrderIndex.Valid, OrderStore.Valid, NewBest, LadderOk;
      if ix == (if side == Buy then bestBid else bestAsk) {
        MoveBest(side, ix);
      } else if side == Buy {
        bidBits.Clear(ix);
      } else {
        askBits.Clear(ix);
      }
    }

    /** Removes slot s from its level's queue; retires the level if it empties. */
    method Unlink(s: nat, ghost side: Side, ghost k: nat) returns (ghost best: int)
      requires Parts() && s < |store.Recs| && store.Recs[s].level < |queues| == |Levels|
      requires PlacedAt(State(), s, side, store.Recs[s].level, k)
      requires QueueOk(State(), store.Recs[s].level) && EndsOk(State(), store.Recs[s].level)
      requires forall j :: 0 <= j < |queues[store.Recs[s].level]| ==>
        queues[store.Recs[s].level][j] !in store.Free && queues[store.Recs[s].level][j] < NIL
      modifies Repr
      ensures Parts()
      ensures var st, ix := old(State()), old(store.Recs[s].level);
        && State() == UnlinkS(st, side, ix, k, best)
        && (|st.queues[ix]| == 1 && ix == Best(st, side) ==> NewBest(st, side, ix, best))
    {
      hide PriceBitmap.Valid, OrderIndex.Valid, OrderStore.Valid, QueueOk, EndsOk, Sub64, LinkOut, Without, LadderOk;
      var r := store.At(s);
      WithoutSize(queues[r.level], k);
      UnlinkLinks(s, side, k);
      if LevelOf(r.level).head == NIL {
        RetireLevel(r.side, r.level);
      }
      best := Best(State(), side);
    }

    /** The order in slot s, whose id the index has already forgotten, leaves the book. */
    method TakeOut(s: nat, ghost st: State) returns (ghost k: nat)
      requires Parts() && Inv(cfg, st) && Live(st, s) && State() == st.(index := st.index - {st.recs[s].id})
      modifies Repr
      ensures Valid()
      ensures PlacedAt(st, s, st.recs[s].side, st.recs[s].level, k)
      ensures var b, side, p := Abs(cfg, st), st.recs[s].side, Position(cfg, st, st.recs[s].side, st.recs[s].level, k);
        p < |Resting(b, side)| && Contents() == WithResting(b, side, RemoveAt(Resting(b, side), p))
    {
      hide Abs, BookOk, Others, SlotsOk, IndexOk, BestsOk, QueueOk, EndsOk, PriceBitmap.Valid, OrderIndex.Valid, Sub64,
           LinkOut, NewBest, Without, Position, RemoveAt, LadderOk, OrderStore.Valid;
      k := PlaceFacts(cfg, st, s, State());
      ghost var side, ix := st.recs[s].side, st.recs[s].level;
      ghost var best := Unlink(s, side, k);
      UnlinkSame(st, old(State()), side, ix, k, best);
      store.Release(s);
      assert State() == RemoveS(st, side, ix, k, best);
      RemoveOk(cfg, st, s, side, ix, k, best);
    }

    /** Looks an id up and forgets it. */
    method EraseId(id: nat) returns (s: nat)
      requires Parts() && IndexOk(State())
      modifies ids, ids.slots
      ensures Parts()
      ensures if id in old(ids.Entries)
              then s == old(ids.Entries)[id] && State() == old(State()).(index := old(ids.Entries) - {id})
              else s == NIL && State() == old(State())
    {
      hide IndexOk, PriceBitmap.Valid, OrderStore.Valid, OrderIndex.Valid, LadderOk, KeyOf, OrderIndex.Knows;
      KeysKnown();
      s := ids.Erase(id, KeyOf(store.All()));
    }

    method Cancel(c: Command) returns (events: seq<Event>)
      requires Valid() && c.kind == MsgType.Cancel
      modifies Repr
      ensures Valid() && Outcome(Contents(), events) == Apply(cfg, old(Contents()), c)
    {
      hide Abs, Inv, Live, PlacedAt, PriceBitmap.Valid, OrderIndex.Valid, OrderStore.Valid, Position, CancelOrder,
           RemoveAt, LadderOk;
      ghost var st := State();
      InvShape(cfg, st);
      Indexed(cfg, st, c.orderId);
      var s := EraseId(c.orderId);
      if s == NIL {
        return [RejectedEvent(c, UnknownOrder)];
      }
      var r := store.At(s);
      ghost var k := TakeOut(s, st);
      CancelFound(cfg, st, s, k, c);
      events := [CanceledEvent(cfg.symbol, c.orderId, r.side, cfg.minPrice + r.level, r.qty, UserCanceled)];
    }

    /** Forgets an id whose slot is already known. */
    method ForgetKnown(id: nat, s: nat)
      requires Parts() && IndexOk(State()) && id in ids.Entries && ids.Entries[id] == s
      modifies ids, ids.slots
      ensures Parts() && State() == old(State()).(index := old(ids.Entries) - {id})
    {
      hide PriceBitmap.Valid, OrderStore.Valid, OrderIndex.Valid, LadderOk, IndexOk;
      OneIdPerSlot(State());
      ids.EraseKnown(id, s);
    }

    /** Puts a slot back on the free list. */
    method FreeSlot(s: nat)
      requires Parts() && s < |store.Recs| && s !in store.Free
      modifies store, store.recs
      ensures Parts()
      ensures var st := old(State());
        State() == st.(recs := Put(st.recs, s, Get(st.recs, s).(next := HeadOf(st.free))), free := [s] + st.free)
    {
      hide PriceBitmap.Valid, OrderStore.Valid, OrderIndex.Valid, LadderOk;
      store.Release(s);
    }

    /** The front order of the swept level leaves it. */
    method PopMaker(s: nat, ghost side: Side, ix: nat)
      requires Parts() && Sweeping(cfg, State(), side, ix) && queues[ix] != [] && s == queues[ix][0]
      modifies Repr
      ensures Parts() && State() == PopS(old(State()), ix)
    {
      hide PriceBitmap.Valid, OrderStore.Valid, OrderIndex.Valid, LadderOk, Others, BookOk, Abs, Sub64, IndexOk,
           Leading;
      MakerFacts(cfg, State(), side, ix);
      DropMaker(s, ix);
      FreeSlot(s);
      queues := queues[ix := queues[ix][1..]];
    }

    /** Its quantity leaves the level's total, and its id the index. */
    method DropMaker(s: nat, ix: nat)
      requires Parts() && IndexOk(State()) && ix < |Levels| && s < |store.Recs|
      requires store.Recs[s].id in ids.Entries && ids.Entries[store.Recs[s].id] == s
      modifies Repr
      ensures Parts()
      ensures var st := old(State()); var lv, r := st.levels[ix], st.recs[s];
        State() == st.(levels := st.levels[ix := lv.(qty := Sub64(lv.qty, r.qty))], index := st.index - {r.id})
    {
      hide PriceBitmap.Valid, OrderStore.Valid, OrderIndex.Valid, LadderOk, Sub64, IndexOk;
      var lv, r := LevelOf(ix), store.At(s);
      SetLevel(ix, lv.(qty := Sub64(lv.qty, r.qty)));
      SameIndex(old(State()), State());
      ForgetKnown(r.id, s);
    }

    /** An order's new quantity, and its level's new total. */
    method Resize(s: nat, ix: nat, qty: nat)
      requires Parts() && ix < |Levels| && s < |store.Recs| && s !in store.Free && qty <= store.Recs[s].qty
      modifies Repr
      ensures Parts() && State() == ResizeS(old(State()), ix, s, qty)
    {
      hide PriceBitmap.Valid, OrderStore.Valid, OrderIndex.Valid, LadderOk, Sub64;
      var lv, r := LevelOf(ix), store.At(s);
      store.Update(s, r.(qty := qty));
      SetLevel(ix, lv.(qty := Sub64(lv.qty, r.qty - qty)));
    }

    /** Leaves the swept level, its cursor at s: writes its head, and retires it if it has emptied. */
    method Settle(side: Side, ix: nat, s: nat)
      requires Parts() && Sweeping(cfg, State(), side, ix) && s == HeadOf(queues[ix])
      modifies Repr
      ensures Valid() && Contents() == old(Contents())
    {
      hide PriceBitmap.Valid, OrderStore.Valid, OrderIndex.Valid, LadderOk, Others, BookOk, Abs, NewBest, IndexOk,
           SlotsOk, Leading;
      ghost var st := State();
      MakerFacts(cfg, st, side, ix);
      var lv := LevelOf(ix);
      SetLevel(ix, lv.(head := s, tail := if s == NIL then NIL else lv.tail));
      if s == NIL {
        ghost var mid := State();
        MoveBest(side, ix);
        SameBits(st, mid, side, ix, Best(State(), side));
      }
      assert State() == SettleS(st, side, ix, Best(State(), side));
      SettleOk(cfg, st, side, ix, Best(State(), side));
    }

    /** What a maker's turn leaves: the sweep goes on at the cursor, and the turn is the specification's. */
    ghost predicate Turned(st: State, t: Taker, ix: nat, qty: nat, next: nat, u: Turn)
      reads this, Repr
    {
      && Parts() && Sweeping(cfg, State(), Opposite(t.side), ix) && next == HeadOf(queues[ix])
      && var q := Resting(Abs(cfg, st), Opposite(t.side));
         && q != [] && qty > 0 && q[0].price == cfg.minPrice + ix && u == TakeTurn(q, t, qty)
         && Abs(cfg, State()) == WithResting(Abs(cfg, st), Opposite(t.side), u.queue)
         && (u.stop || u.left == 0 || |queues[ix]| < |QueueAt(st, ix)|)
    }

    /** A maker of another owner, or any maker without self-trade prevention: a trade. */
    method TradeTurn(s: nat, ix: nat, t: Taker, qty: nat)
      returns (next: nat, ghost u: Turn, left: nat, events: seq<Event>)
      requires Parts() && qty > 0 && s != NIL && t.symbol == cfg.symbol
      requires Sweeping(cfg, State(), Opposite(t.side), ix) && s == HeadOf(queues[ix]) && s < |store.Recs|
      requires !(t.stp != NoStp && store.Recs[s].owner == t.owner)
      modifies Repr
      ensures Turned(old(State()), t, ix, qty, next, u) && u == Turn(events, u.queue, left, false)
    {
      hide PriceBitmap.Valid, OrderStore.Valid, OrderIndex.Valid, LadderOk, Abs, Sweeping, PopS, ResizeS, IndexOk, Live,
           Shape;
      ghost var st, opp := State(), Opposite(t.side);
      MakerFacts(cfg, st, opp, ix);
      NextMaker(cfg, st, opp, ix);
      u := TakeTurn(Resting(Abs(cfg, st), opp), t, qty);
      var r := store.At(s);
      var fill := if r.qty < qty then r.qty else qty;
      left := qty - fill;
      events := [TradeEvent(cfg.symbol, t.id, r.id, t.side, cfg.minPrice + ix, fill, r.qty - fill)];
      if r.qty != fill {
        ResizeFront(cfg, st, opp, ix, r.qty - fill);
        Resize(s, ix, r.qty - fill);
        ResizeQueues(st, ix, s, r.qty - fill);
        next := s;
      } else {
        PopOk(cfg, st, opp, ix);
        PopMaker(s, opp, ix);
        PopQueues(st, ix);
        next := r.next;
      }
    }

    /** A maker of the taker's own owner, under self-trade prevention. */
    method OwnTurn(s: nat, ix: nat, t: Taker, qty: nat)
      returns (next: nat, ghost u: Turn, left: nat, stop: bool, events: seq<Event>)
      requires Parts() && qty > 0 && s != NIL && t.symbol == cfg.symbol
      requires Sweeping(cfg, State(), Opposite(t.side), ix) && s == HeadOf(queues[ix]) && s < |store.Recs|
      requires t.stp != NoStp && store.Recs[s].owner == t.owner
      modifies Repr
      ensures Turned(old(State()), t, ix, qty, next, u) && u == Turn(events, u.queue, left, stop)
    {
      hide PriceBitmap.Valid, OrderStore.Valid, OrderIndex.Valid, LadderOk, Abs, Sweeping, PopS, ResizeS, IndexOk, Live,
           Shape;
      ghost var st, opp := State(), Opposite(t.side);
      MakerFacts(cfg, st, opp, ix);
      NextMaker(cfg, st, opp, ix);
      u := TakeTurn(Resting(Abs(cfg, st), opp), t, qty);
      var r := store.At(s);
      var px := cfg.minPrice + ix;
      left, stop := qty, false;
      if t.stp == CancelIncoming {
        events, stop, next := [], true, s;
      } else if t.stp == DecrementCancel && r.qty > qty {
        ResizeFront(cfg, st, opp, ix, r.qty - qty);
        Resize(s, ix, r.qty - qty);
        ResizeQueues(st, ix, s, r.qty - qty);
        events := [StpDecrementEvent(cfg.symbol, r.id, Opposite(t.side), px, r.qty - qty)];
        stop, next := true, s;
      } else {
        PopOk(cfg, st, opp, ix);
        PopMaker(s, opp, ix);
        PopQueues(st, ix);
        next := r.next;
        events := [CanceledEvent(cfg.symbol, r.id, Opposite(t.side), px, r.qty, SelfTrade)];
        if t.stp == DecrementCancel {
          if r.qty == qty {
            stop := true;
          } else {
            left := qty - r.qty;
            events := events + [StpDecrementEvent(cfg.symbol, t.id, t.side, t.limit, left)];
          }
        }
      }
    }

    /** Sweeps one level from its front until it is empty, the quantity is gone, or self-trade prevention
        stops the sweep; then leaves the level. */
    method SweepLevel(t: Taker, ix: nat, qty: nat, ghost goal: SweepResult, ghost done: seq<Event>)
      returns (left: nat, stop: bool, events: seq<Event>)
      requires Valid() && qty > 0 && t.symbol == cfg.symbol
      requires ix == Best(State(), Opposite(t.side)) && ix in Marked(State(), Opposite(t.side))
      requires Reaches(t.side, t.limit, cfg.minPrice + ix)
      requires Continues(goal, done, Resting(Contents(), Opposite(t.side)), t, qty, false)
      modifies Repr
      ensures Valid() && Resting(Contents(), t.side) == old(Resting(Contents(), t.side))
      ensures Continues(goal, done + events, Resting(Contents(), Opposite(t.side)), t, left, stop)
      ensures stop || left == 0
          || |Resting(Contents(), Opposite(t.side))| < old(|Resting(Contents(), Opposite(t.side))|)
    {
      hide PriceBitmap.Valid, OrderStore.Valid, OrderIndex.Valid, LadderOk, Abs, Sweeping, Inv, Continues, TakeTurn,
           Live;
      var opp := Opposite(t.side);
      ghost var st0 := State();
      StartSweep(cfg, st0, opp);
      LevelNotEmpty(cfg, st0, opp);
      MakerFacts(cfg, st0, opp, ix);
      left, stop, events := qty, false, [];
      assert done + [] == done;
      var s := LevelOf(ix).head;
      while s != NIL
        invariant Parts() && Sweeping(cfg, State(), opp, ix) && ix < |queues| && s == HeadOf(queues[ix])
        invariant left > 0 && !stop
        invariant Resting(Abs(cfg, State()), t.side) == Resting(Abs(cfg, st0), t.side)
        invariant Continues(goal, done + events, Resting(Abs(cfg, State()), opp), t, left, false)
        invariant |Resting(Abs(cfg, State()), opp)| <= |Resting(Abs(cfg, st0), opp)|
        invariant State() == st0 || |Resting(Abs(cfg, State()), opp)| < |Resting(Abs(cfg, st0), opp)|
        decreases |queues[ix]|
      {
        ghost var st := State();
        MakerFacts(cfg, st, opp, ix);
        NextMaker(cfg, st, opp, ix);
        ghost var q, u: Turn := Resting(Abs(cfg, st), opp), TakeTurn(Resting(Abs(cfg, st), opp), t, left);
        TurnContinues(goal, done + events, q, t, left);
        TurnSize(q, t, left);
        var ev: seq<Event>;
        if t.stp != NoStp && store.At(s).owner == t.owner {
          s, u, left, stop, ev := OwnTurn(s, ix, t, left);
        } else {
          s, u, left, ev := TradeTurn(s, ix, t, left);
        }
        assert (done + events) + ev == done + (events + ev);
        events := events + ev;
        MakerFacts(cfg, State(), opp, ix);
        if stop || left == 0 { break; }
      }
      Settle(opp, ix, s);
    }

    /** Does an incoming order limited at level `limit` cross? One comparison, the sentinels standing in
        for an empty side. */
    function CrossesAt(side: Side, limit: int): bool
      reads this
    {
      if side == Buy then bestAsk <= limit else bestBid >= limit
    }

    /** Matches an incoming order against the opposite side, best level first, up to its limit. */
    method SweepSide(t: Taker, limit: nat, qty: nat) returns (left: nat, stop: bool, events: seq<Event>)
      requires Valid() && t.symbol == cfg.symbol && limit < cfg.numLevels && t.limit == cfg.minPrice + limit
      modifies Repr
      ensures Valid() && Resting(Contents(), t.side) == old(Resting(Contents(), t.side))
      ensures Sweep(old(Resting(Contents(), Opposite(t.side))), t, qty)
           == SweepResult(Resting(Contents(), Opposite(t.side)), left, stop, events)
    {
      hide Parts, Inv, Abs, Continues;
      var opp := Opposite(t.side);
      ghost var goal := Sweep(Resting(Contents(), opp), t, qty);
      left, stop, events := qty, false, [];
      StartsSo(Resting(Contents(), opp), t, qty);
      while left != 0 && CrossesAt(t.side, limit)
        invariant Valid() && !stop
        invariant Resting(Contents(), t.side) == old(Resting(Contents(), t.side))
        invariant Continues(goal, events, Resting(Contents(), opp), t, left, false)
        decreases if left == 0 then 0 else 1 + |Resting(Contents(), opp)|
      {
        var ix := if t.side == Buy then bestAsk else bestBid;
        BestReached(cfg, State(), t.side, limit);
        var ev: seq<Event>;
        left, stop, ev := SweepLevel(t, ix, left, goal, events);
        events := events + ev;
        if stop {
          StopsSo(goal, events, Resting(Contents(), opp), t, left);
          return;
        }
      }
      CrossesIff(cfg, State(), t.side, limit);
      EndsSo(goal, events, Resting(Contents(), opp), t, left);
    }

    // ---- fill-or-kill ----

    /** One level's orders, for a fill-or-kill under self-trade prevention. */
    method FillableAt(t: Taker, i: nat, need: nat, ghost behind: seq<Order>) returns (left: nat, verdict: Option<bool>)
      requires Valid() && i in Marked(State(), Opposite(t.side)) && need > 0 && t.stp != NoStp
      requires Reaches(t.side, t.limit, cfg.minPrice + i)
      ensures var l, r := LadderOf(cfg, State(), Opposite(t.side)), RankAt(cfg, Opposite(t.side), i);
        && 0 <= r < |l|
        && match verdict
           case Some(yes) => Fillable(l[r] + behind, t, need) == yes
           case None => left > 0 && (Fillable(l[r] + behind, t, need) <==> Fillable(behind, t, left))
    {
      hide PriceBitmap.Valid, OrderStore.Valid, OrderIndex.Valid, LadderOk, Abs, Inv, Orders, LadderOf, TotalQty,
           Concat, NextLinked, Others, SlotsOk, IndexOk, BestsOk, BookOk;
      InvShape(cfg, State());
      WalkLevel(cfg, State(), Opposite(t.side), i);
      ghost var q, price := queues[i], cfg.minPrice + i;
      left := need;
      var s := LevelOf(i).head;
      ghost var k: nat := 0;
      while s != NIL
        invariant k <= |q| && s == HeadOf(q[k..]) && left > 0
        invariant Fillable(Orders(store.Recs, q, price) + behind, t, need) <==>
          Fillable(Orders(store.Recs, q[k..], price) + behind, t, left)
        decreases |q| - k
      {
        OrdersStep(store.Recs, q, k, price, behind);
        var r := store.At(s);
        if r.owner == t.owner {
          if t.stp == CancelIncoming {
            return left, Some(false);
          }
          if t.stp == DecrementCancel {
            if r.qty >= left {
              return left, Some(false);
            }
            left := left - r.qty;
          }
        } else {
          if r.qty >= left {
            return left, Some(true);
          }
          left := left - r.qty;
        }
        s := r.next;
        k := k + 1;
      }
      NoOrders(store.Recs, q, k, price, behind);
      verdict := None;
    }

    /** One level of the walk: its total, or order by order. */
    method FillableLevel(t: Taker, i: nat, ghost n: nat, need: nat) returns (left: nat, verdict: Option<bool>)
      requires Valid() && i in Marked(State(), Opposite(t.side)) && need > 0 && n <= cfg.numLevels
      requires Reaches(t.side, t.limit, cfg.minPrice + i) && RankAt(cfg, Opposite(t.side), i) < n
      ensures var l, r := LadderOf(cfg, State(), Opposite(t.side)), RankAt(cfg, Opposite(t.side), i);
        && 0 <= r < |l|
        && match verdict
           case Some(yes) => Verdict(l, n, t, r, need) <==> yes
           case None => left > 0 && (Verdict(l, n, t, r, need) <==> Verdict(l, n, t, r + 1, left))
    {
      hide PriceBitmap.Valid, OrderStore.Valid, OrderIndex.Valid, LadderOk, Abs, Inv, Verdict, Orders, LadderOf,
           Fillable, TotalQty, Concat;
      WalkLevel(cfg, State(), Opposite(t.side), i);
      ghost var l, r: nat := LadderOf(cfg, State(), Opposite(t.side)), RankAt(cfg, Opposite(t.side), i);
      if t.stp == NoStp {
        VerdictTotal(l, n, t, r, need);
        if LevelOf(i).qty >= need {
          return need, Some(true);
        }
        left, verdict := need - LevelOf(i).qty, None;
      } else {
        VerdictLevel(l, n, t, r, need);
        left, verdict := FillableAt(t, i, need, Concat(l[r + 1..]));
        VerdictRest(l, n, t, r + 1, left);
      }
    }

    /** Would the sweep resolve all of qty within the limit without the order being canceled? */
    method FillableNow(t: Taker, limit: nat, qty: nat) returns (yes: bool)
      requires Valid() && limit < cfg.numLevels && t.limit == cfg.minPrice + limit && qty > 0
      ensures var l, n := LadderOf(cfg, State(), Opposite(t.side)), RankAt(cfg, Opposite(t.side), limit) + 1;
        0 <= n <= |l| && (yes <==> Verdict(l, n, t, 0, qty))
    {
      hide PriceBitmap.Valid, OrderStore.Valid, OrderIndex.Valid, LadderOk, Abs, Inv, Verdict;
      var opp := Opposite(t.side);
      ghost var l, n: nat := LadderOf(cfg, State(), opp), RankAt(cfg, opp, limit) + 1;
      InvShape(cfg, State());
      var need, i := qty, if t.side == Buy then bestAsk else bestBid;
      WalkStart(cfg, State(), t, n, qty);
      while if t.side == Buy then i <= limit else i >= limit && i >= 0
        invariant need > 0 && OnWalk(cfg, State(), opp, i) && 0 <= RankAt(cfg, opp, i) <= |l|
        invariant Verdict(l, n, t, 0, qty) <==> Verdict(l, n, t, RankAt(cfg, opp, i), need)
        decreases |l| - RankAt(cfg, opp, i)
      {
        var left, verdict := FillableLevel(t, i, n, need);
        if verdict.Some? {
          return verdict.value;
        }
        need := left;
        var j := NextLevel(opp, i);
        WalkNext(cfg, State(), t, n, i, j, need);
        i := j;
      }
      LadderPriced(cfg, State(), opp);
      VerdictEnd(cfg, l, n, t, RankAt(cfg, opp, i), need);
      yes := false;
    }

    // ---- resting ----

    /** Takes a free slot, or NIL. */
    method TakeSlot() returns (s: nat)
      requires Parts()
      modifies store
      ensures Parts() && s == HeadOf(old(store.Free))
      ensures State() == old(State()).(free := if old(store.Free) == [] then [] else old(store.Free)[1..])
      ensures s != NIL ==> s < |store.Recs| && s !in store.Free
    {
      hide PriceBitmap.Valid, OrderStore.Valid, OrderIndex.Valid, LadderOk;
      s := store.Alloc();
    }

    /** Marks a level that has become non-empty; the best follows if it is better. */
    method Mark(side: Side, ix: nat)
      requires Parts() && ix < cfg.numLevels
      modifies this`bestBid, this`bestAsk, bidBits, bidBits.words, bidBits.summary, askBits, askBits.words,
        askBits.summary
      ensures Parts() && State() == Enrol(old(State()), side, ix)
    {
      hide PriceBitmap.Valid, OrderStore.Valid, OrderIndex.Valid, LadderOk;
      if side == Buy {
        bidBits.Set(ix);
        if ix > bestBid { bestBid := ix; }
      } else {
        askBits.Set(ix);
        if ix < bestAsk { bestAsk := ix; }
      }
    }

    /** Writes an order into slot s, behind the tail of level ix. */
    method WriteLinks(s: nat, ix: nat, r: Rec)
      requires Parts() && ix < |Levels| && s < |store.Recs| && s !in store.Free
      requires Levels[ix].tail != NIL ==> Levels[ix].tail < |store.Recs| && Levels[ix].tail !in store.Free
      modifies store.recs, store`Recs
      ensures Parts()
      ensures var st := old(State());
        var recs1 := Put(st.recs, s, r.(next := NIL, prev := st.levels[ix].tail));
        var tail := st.levels[ix].tail;
        State() == st.(recs := if tail == NIL then recs1 else Put(recs1, tail, Get(recs1, tail).(next := s)))
    {
      hide PriceBitmap.Valid, OrderStore.Valid, OrderIndex.Valid, LadderOk;
      var tail := LevelOf(ix).tail;
      store.Update(s, r.(next := NIL, prev := tail));
      if tail != NIL {
        store.Update(tail, store.At(tail).(next := s));
      }
    }

    /** Slot s joins the back of level ix's queue. */
    method LinkLast(s: nat, side: Side, ix: nat, r: Rec)
      requires Parts() && ix < |Levels| && ix < |queues| && s < |store.Recs| && s !in store.Free
      requires Levels[ix].tail != NIL ==> Levels[ix].tail < |store.Recs| && Levels[ix].tail !in store.Free
      modifies Repr
      ensures Parts()
      ensures var st := old(State());
        State() == PushS(st.(free := [s] + st.free), side, ix, s, r).(index := st.index)
    {
      hide PriceBitmap.Valid, OrderStore.Valid, OrderIndex.Valid, LadderOk, Add64;
      var lv := LevelOf(ix);
      WriteLinks(s, ix, r);
      if lv.tail == NIL {
        Mark(side, ix);
      }
      SetLevel(ix, Level(Add64(lv.qty, r.qty), if lv.tail == NIL then s else lv.head, s));
      queues := queues[ix := queues[ix] + [s]];
    }

    /** The index learns a new id. */
    method LearnId(id: nat, s: nat)
      requires Parts() && id !in ids.Entries && |ids.Entries| < cfg.maxOrders && s != NIL
      modifies ids, ids.slots
      ensures Parts() && State() == old(State()).(index := old(ids.Entries)[id := s])
    {
      hide PriceBitmap.Valid, OrderStore.Valid, LadderOk, Ordered, Holds;
      ids.Insert(id, s);
    }

    /** Rests what is left of an order, or cancels it when no slot is free. */
    method RestOrder(side: Side, ix: nat, id: nat, owner: nat, qty: nat, ts: nat) returns (events: seq<Event>)
      requires Valid() && ix < cfg.numLevels && id != 0 && qty > 0 && !Contains(Contents(), id)
      requires !Crosses(Contents(), side, cfg.minPrice + ix)
      modifies Repr
      ensures Valid()
      ensures Outcome(Contents(), events) == Rest(cfg, old(Contents()), side, Order(id, qty, owner, cfg.minPrice + ix))
    {
      hide PriceBitmap.Valid, OrderStore.Valid, OrderIndex.Valid, LadderOk, Abs, Inv, PushS, Others, SlotsOk, IndexOk,
           BestsOk, BookOk, Insert;
      ghost var st, o := State(), Order(id, qty, owner, cfg.minPrice + ix);
      RestingCount(cfg, st);
      FreeHead(cfg, st);
      var s := TakeSlot();
      if s == NIL {
        SameState(st, State());
        return [CanceledEvent(cfg.symbol, id, side, cfg.minPrice + ix, qty, BookFull)];
      }
      var r := Rec(id, ts, qty, qty, NIL, NIL, ix, owner, side, 0);
      RestReady(cfg, st, side, ix, s, r);
      LinkLast(s, side, ix, r);
      LearnId(id, s);
      PushIndex(st, side, ix, s, r);
      PushOk(cfg, st, side, ix, s, r);
      events := [];
    }

    // ---- the commands ----

    /** The slot of an id, or NIL. */
    method FindId(id: nat) returns (s: nat)
      requires Parts() && IndexOk(State())
      ensures s == if id in ids.Entries then ids.Entries[id] else NIL
    {
      hide IndexOk, PriceBitmap.Valid, OrderStore.Valid, OrderIndex.Valid, LadderOk, KeyOf, OrderIndex.Knows;
      KeysKnown();
      s := ids.Find(id, KeyOf(store.All()));
    }

    /** Sweeps, then cancels or rests the remainder. */
    method Execute(t: Taker, limit: nat, px: int, qty: nat, mayRest: bool, ts: nat) returns (events: seq<Event>)
      requires Valid() && t.symbol == cfg.symbol && t.id != 0 && limit < cfg.numLevels
      requires t.limit == cfg.minPrice + limit
      requires !Contains(Contents(), t.id)
      modifies Repr
      ensures Valid()
      ensures Outcome(Contents(), events) == BookSpec.Execute(cfg, old(Contents()), t, px, qty, mayRest)
    {
      hide Parts, Inv, Abs, Sweep, Rest, Contains, Crosses, BookOk;
      ghost var b := Contents();
      AbsOk(cfg, State());
      AfterSweep(cfg, b, t, qty);
      var left, stop, swept := SweepSide(t, limit, qty);
      BookBySides(Contents(), WithResting(b, Opposite(t.side), Resting(Contents(), Opposite(t.side))), t.side);
      events := swept;
      if left == 0 {
        return;
      }
      if stop {
        return swept + [CanceledEvent(cfg.symbol, t.id, t.side, px, left, SelfTrade)];
      }
      if !mayRest {
        return swept + [CanceledEvent(cfg.symbol, t.id, t.side, px, left, IocExpired)];
      }
      var rested := RestOrder(t.side, limit, t.id, t.owner, left, ts);
      events := swept + rested;
    }

    method Add(c: Command) returns (events: seq<Event>)
      requires Valid() && c.kind == NewOrder
      modifies Repr
      ensures Valid() && Outcome(Contents(), events) == FastApply(cfg, old(Contents()), c)
    {
      hide Parts, Inv, Abs, Fillable, BookSpec.Execute, Contains, Crosses, BookQty, LadderOf, EffectiveStp, IndexOk,
           Others, SlotsOk, BestsOk, BookOk, AddTaker, Live, PostOnly;
      InvShape(cfg, State());
      if c.orderId == 0 {
        return [RejectedEvent(c, InvalidOrderId)];
      }
      if c.qty == 0 {
        return [RejectedEvent(c, InvalidQty)];
      }
      var market := c.ordType == Market;
      var limit: nat := if c.side == Buy then cfg.numLevels - 1 else 0;
      if !market {
        var rel := c.price - cfg.minPrice;
        if rel < 0 || rel >= cfg.numLevels {
          return [RejectedEvent(c, InvalidPrice)];
        }
        limit := rel;
      }
      Indexed(cfg, State(), c.orderId);
      var s := FindId(c.orderId);
      if s != NIL {
        return [RejectedEvent(c, DuplicateOrderId)];
      }
      CrossesIff(cfg, State(), c.side, limit);
      if PostOnly(c.flags) && CrossesAt(c.side, limit) {
        return [RejectedEvent(c, WouldCross)];
      }
      events := Enter(c, limit);
    }

    /** A new order that passed validation, limited at level `limit`. */
    method Enter(c: Command, limit: nat) returns (events: seq<Event>)
      requires Valid() && c.kind == NewOrder && AddReject(cfg, Contents(), c) == NoReason
      requires limit < cfg.numLevels && LimitOf(cfg, c) == cfg.minPrice + limit
      modifies Repr
      ensures Valid() && Outcome(Contents(), events) == FastApply(cfg, old(Contents()), c)
    {
      hide Parts, Inv, Abs, Fillable, BookSpec.Execute, Contains, Crosses, BookQty, Verdict, LadderOf, RankAt,
           EffectiveStp, InBand, LimitOf;
      var px := if c.ordType == Market then 0 else c.price;
      events := [AcceptedEvent(cfg.symbol, c.orderId, c.side, px, c.qty)];
      var t := Taker(cfg.symbol, c.orderId, c.owner, c.side, cfg.minPrice + limit, EffectiveStp(c.flags, cfg.stp));
      if c.tif == Fok {
        FokDecision(cfg, State(), t, limit, c.qty);
        var enough := FillableNow(t, limit, c.qty);
        if !enough {
          return events + [CanceledEvent(cfg.symbol, c.orderId, c.side, px, c.qty, FokUnfilled)];
        }
      }
      var executed := Execute(t, limit, px, c.qty, c.ordType == Limit && c.tif == Day, c.ts);
      events := events + executed;
    }

    /** Shrinking at the same price keeps the place; anything else leaves the book and re-enters under the
        book's own self-trade mode. */
    method Modify(c: Command) returns (events: seq<Event>)
      requires Valid() && c.kind == MsgType.Modify
      modifies Repr
      ensures Valid() && Outcome(Contents(), events) == Apply(cfg, old(Contents()), c)
    {
      hide Inv, Abs, BookSpec.Execute, Contains, Position, RemoveAt, IndexOk, ModifyOrder, LadderOk, BookOk, Others,
           SlotsOk, BestsOk, PriceBitmap.Valid, OrderStore.Valid, OrderIndex.Valid, PlacedAt, Live, ResizeS;
      ghost var st := State();
      InvShape(cfg, st);
      Indexed(cfg, st, c.orderId);
      ModifyRefused(cfg, Abs(cfg, st), c);
      if c.qty == 0 {
        return [RejectedEvent(c, InvalidQty)];
      }
      var s := FindId(c.orderId);
      if s == NIL {
        return [RejectedEvent(c, UnknownOrder)];
      }
      var rel := c.price - cfg.minPrice;
      if rel < 0 || rel >= cfg.numLevels {
        return [RejectedEvent(c, InvalidPrice)];
      }
      events := ModifyFound(c, s, rel);
    }

    method ModifyFound(c: Command, s: nat, ix: nat) returns (events: seq<Event>)
      requires Valid() && c.kind == MsgType.Modify && c.qty > 0 && ix < cfg.numLevels && c.price == cfg.minPrice + ix
      requires c.orderId in ids.Entries && ids.Entries[c.orderId] == s
      requires s < |store.Recs| && Live(State(), s) && store.Recs[s].id == c.orderId
      modifies Repr
      ensures Valid() && Outcome(Contents(), events) == Apply(cfg, old(Contents()), c)
    {
      hide Inv, Abs, BookSpec.Execute, Contains, Position, RemoveAt, IndexOk, ModifyOrder, LadderOk, BookOk, Others,
           SlotsOk, BestsOk, PriceBitmap.Valid, OrderStore.Valid, OrderIndex.Valid, Live, ResizeS;
      ghost var st := State();
      InvShape(cfg, st);
      ghost var k := PlaceOf(cfg, st, s);
      NotFree(cfg, st, s);
      ModifyPlaced(cfg, st, s, k, c);
      var r := store.At(s);
      events := [ModifiedEvent(cfg.symbol, c.orderId, r.side, c.price, c.qty)];
      if ix == r.level && c.qty <= r.qty {
        ShrinkOk(cfg, st, s, r.side, r.level, k, c.qty);
        Resize(s, ix, c.qty);
      } else {
        ForgetKnown(c.orderId, s);
        ghost var j := TakeOut(s, st);
        SamePlace(st, s, j, k);
        var t := Taker(cfg.symbol, c.orderId, r.owner, r.side, c.price, cfg.stp);
        var executed := Execute(t, ix, c.price, c.qty, true, c.ts);
        events := events + executed;
      }
    }

    /** One command, whichever it is. */
    method Process(c: Command) returns (events: seq<Event>)
      requires Valid()
      modifies Repr
      ensures Valid() && Outcome(Contents(), events) == FastApply(cfg, old(Contents()), c)
    {
      hide Parts, Inv, Abs, Apply, AddReject, EffectiveStp, WordsWithin, Reached, LevelsWithin;
      match c.kind
      case NewOrder => events := Add(c);
      case Cancel => events := Cancel(c);
      case Modify => events := Modify(c);
    }

    /** The next level of a side that holds orders, behind level i. */
    method NextLevel(side: Side, i: nat) returns (j: int)
      requires Parts()
      ensures NextAfter(State(), side, i, j)
    {
      hide OrderStore.Valid, OrderIndex.Valid, LadderOk, Lists, Summarises;
      if side == Buy {
        j := bidBits.FindPrev(i - 1);
      } else {
        j := askBits.FindNext(i + 1);
      }
    }
  }

  /** When no slot is free the free list is NIL. */
  lemma FreeHead(cfg: Config, st: State)
    requires Inv(cfg, st)
    ensures HeadOf(st.free) == NIL <==> st.free == []
    ensures |st.index| + |st.free| == |st.recs| == cfg.maxOrders && |st.levels| == cfg.numLevels == |st.queues|
  {
    hide Abs, BookOk, Others, BestsOk;
    InvShape(cfg, st);
  }

  lemma SameState(st: State, st': State)
    requires st.free == [] && st' == st.(free := [])
    ensures st' == st
  {
  }

  /** An order that does not cross, and is not in the book, may rest. */
  lemma RestReady(cfg: Config, st: State, side: Side, ix: nat, s: nat, r: Rec)
    requires Inv(cfg, st) && ix < cfg.numLevels && st.free != [] && s == st.free[0]
    requires r.level == ix && r.side == side && r.qty > 0 && r.id != 0
    requires var b := Abs(cfg, st);
      !Contains(b, r.id) && !Crosses(b, side, cfg.minPrice + ix) && |b.bids| + |b.asks| < cfg.maxOrders
    ensures MayPush(cfg, st, side, ix, s, r)
    ensures var tail := st.levels[ix].tail; tail != NIL ==> tail < |st.recs| && tail !in st.free
    ensures var b := Abs(cfg, st);
      BookOk(cfg, WithResting(b, side, Insert(Resting(b, side), side, ToOrder(r, cfg.minPrice + ix))))
  {
    hide Abs, BookOk, SlotsOk, IndexOk, Insert, Contains, Crosses;
    InvShape(cfg, st);
    IndexedIff(cfg, st, r.id);
    CrossesIff(cfg, st, side, ix);
    RestOk(cfg, Abs(cfg, st), side, ToOrder(r, cfg.minPrice + ix));
    var q := st.queues[ix];
    OthersSplit(cfg, st, ix);
    if q != [] {
      QueuedNotFree(cfg, st, ix, |q| - 1);
    }
  }

  lemma PushIndex(st: State, side: Side, ix: nat, s: nat, r: Rec)
    requires st.free != [] && s == st.free[0] && ix < |st.levels| && ix < |st.queues|
    ensures var st1 := st.(free := st.free[1..]);
      PushS(st1.(free := [s] + st1.free), side, ix, s, r).(index := st1.index[r.id := s]) == PushS(st, side, ix, s, r)
  {
    assert [s] + st.free[1..] == st.free;
  }

  lemma AbsOk(cfg: Config, st: State)
    requires Inv(cfg, st)
    ensures BookOk(cfg, Abs(cfg, st))
  {
  }

  /** The order a modify refuses in. */
  lemma ModifyRefused(cfg: Config, b: Book, c: Command)
    ensures var bad := if c.qty == 0 then InvalidQty else if !Contains(b, c.orderId) then UnknownOrder
                       else if !InBand(cfg, c.price) then InvalidPrice else NoReason;
      bad != NoReason ==> ModifyOrder(cfg, b, c) == Outcome(b, [RejectedEvent(c, bad)])
  {
  }

  lemma NotFree(cfg: Config, st: State, s: nat)
    requires Inv(cfg, st) && Live(st, s)
    ensures s < |st.recs| < NIL && s !in st.free
  {
    hide BookOk, Abs, Others, IndexOk, BestsOk;
  }

  lemma SamePlace(st: State, s: nat, j: nat, k: nat)
    requires s < |st.recs| && st.recs[s].level < |st.queues| && NoDup(st.queues[st.recs[s].level])
    requires PlacedAt(st, s, st.recs[s].side, st.recs[s].level, j)
    requires PlacedAt(st, s, st.recs[s].side, st.recs[s].level, k)
    ensures j == k
  {
  }

  /** What a modify of a resting order does, by where the order is. */
  lemma ModifyPlaced(cfg: Config, st: State, s: nat, k: nat, c: Command)
    requires Inv(cfg, st) && Live(st, s) && st.recs[s].id == c.orderId
    requires PlacedAt(st, s, st.recs[s].side, st.recs[s].level, k)
    requires c.qty > 0 && InBand(cfg, c.price)
    ensures NoDup(st.queues[st.recs[s].level])
    ensures var b, r, p := Abs(cfg, st), st.recs[s], Position(cfg, st, st.recs[s].side, st.recs[s].level, k);
      var q := Resting(b, r.side);
      p < |q| && !Contains(WithResting(b, r.side, RemoveAt(q, p)), c.orderId) && c.orderId != 0 &&
      var modified := ModifiedEvent(cfg.symbol, c.orderId, r.side, c.price, c.qty);
      ModifyOrder(cfg, b, c) ==
        if c.price == cfg.minPrice + r.level && c.qty <= r.qty then
          Outcome(WithResting(b, r.side, q[p := q[p].(qty := c.qty)]), [modified])
        else
          var t := Taker(cfg.symbol, c.orderId, r.owner, r.side, c.price, cfg.stp);
          var z := BookSpec.Execute(cfg, WithResting(b, r.side, RemoveAt(q, p)), t, c.price, c.qty, true);
          Outcome(z.book, [modified] + z.events)
  {
    hide Abs, Others, SlotsOk, BestsOk, IndexOk, Position, Find, RemoveAt, BookSpec.Execute, Contains;
    var r := st.recs[s];
    FoundAt(cfg, st, s, r.side, r.level, k);
    var p, q := Position(cfg, st, r.side, r.level, k), Resting(Abs(cfg, st), r.side);
    RemovedOk(cfg, Abs(cfg, st), r.side, p);
    assert q[p].id != 0;
    OthersSplit(cfg, st, r.level);
  }

  lemma OrdersStep(recs: seq<Rec>, q: seq<nat>, k: nat, price: int, behind: seq<Order>)
    requires NextLinked(recs, q) && k <= |q| && HeadOf(q[k..]) != NIL
    ensures k < |q| && q[k] == HeadOf(q[k..]) && q[k] < |recs| && recs[q[k]].next == HeadOf(q[k + 1..])
    ensures var o := Orders(recs, q[k..], price) + behind;
      o != [] && o[0] == ToOrder(recs[q[k]], price) && o[1..] == Orders(recs, q[k + 1..], price) + behind
  {
    var o := Orders(recs, q[k..], price);
    assert o[1..] == Orders(recs, q[k + 1..], price);
    assert (o + behind)[1..] == o[1..] + behind;
  }

  lemma NoOrders(recs: seq<Rec>, q: seq<nat>, k: nat, price: int, behind: seq<Order>)
    requires NextLinked(recs, q) && k <= |q| && HeadOf(q[k..]) == NIL && |recs| < NIL
    ensures Orders(recs, q[k..], price) + behind == behind
  {
    assert forall j :: 0 <= j < |q| ==> q[j] < NIL;
  }

  lemma VerdictRest(l: Ladder, n: nat, t: Taker, r: nat, need: nat)
    requires n <= |l| && r <= |l| && t.stp != NoStp
    ensures Verdict(l, n, t, r, need) <==> Fillable(Concat(l[r..]), t, need)
  {
  }

  /** A crossing order finds a level to sweep, within its limit. */
  lemma BestReached(cfg: Config, st: State, side: Side, limit: nat)
    requires Inv(cfg, st) && limit < cfg.numLevels
    requires if side == Buy then st.bestAsk <= limit else st.bestBid >= limit
    ensures var opp := Opposite(side);
      Best(st, opp) in Marked(st, opp) && Best(st, opp) >= 0
        && Reaches(side, cfg.minPrice + limit, cfg.minPrice + Best(st, opp))
  {
    hide BookOk, Abs, SlotsOk, IndexOk, Others;
  }

  lemma LevelNotEmpty(cfg: Config, st: State, side: Side)
    requires Inv(cfg, st) && Best(st, side) in Marked(st, side)
    ensures var ix := Best(st, side);
      0 <= ix < |st.queues| == |st.levels| && st.queues[ix] != [] && st.levels[ix].head == HeadOf(st.queues[ix])
  {
    hide BookOk, Abs, SlotsOk, IndexOk;
    BestLeads(cfg, st, side);
    OthersSplit(cfg, st, Best(st, side));
  }

  lemma ResizeQueues(st: State, ix: nat, s: nat, qty: nat)
    requires ix < |st.levels|
    ensures ResizeS(st, ix, s, qty).queues == st.queues
  {
  }

  lemma PopQueues(st: State, ix: nat)
    requires ix < |st.queues| && ix < |st.levels| && st.queues[ix] != []
    ensures PopS(st, ix).queues == st.queues[ix := st.queues[ix][1..]]
  {
  }

  /** The cursor follows the links; the front order of the side is the one under it. */
  lemma NextMaker(cfg: Config, st: State, side: Side, ix: nat)
    requires Sweeping(cfg, st, side, ix) && st.queues[ix] != []
    ensures var s, q := st.queues[ix][0], Resting(Abs(cfg, st), side);
      && s < |st.recs| && st.recs[s].next == HeadOf(st.queues[ix][1..])
      && q != [] && q[0] == ToOrder(st.recs[s], cfg.minPrice + ix)
  {
    hide Others, BookOk, Abs, Leading, Sum, SlotsOk, IndexOk;
    QueueSlot(st.recs, st.queues[ix], ix, 0);
    LeadingFront(cfg, st, side, ix);
  }

  lemma OneIdPerSlot(st: State)
    requires IndexOk(st)
    ensures forall j, k :: j in st.index && k in st.index && st.index[j] == st.index[k] ==> j == k
  {
    assert forall k :: k in st.index ==> Live(st, st.index[k]);
  }

  lemma SameBits(st: State, mid: State, side: Side, ix: int, best: int)
    requires st.bids == mid.bids && st.asks == mid.asks && |st.levels| == |mid.levels|
    ensures NewBest(mid, side, ix, best) <==> NewBest(st, side, ix, best)
  {
  }

  lemma SameIndex(st: State, st': State)
    requires IndexOk(st) && st'.recs == st.recs && st'.queues == st.queues && st'.index == st.index
    requires st'.free == st.free
    ensures IndexOk(st')
  {
    assert forall s: nat :: Live(st', s) <==> Live(st, s);
  }

  /** What the sweep knows of the maker at the front. */
  lemma MakerFacts(cfg: Config, st: State, side: Side, ix: nat)
    requires Sweeping(cfg, st, side, ix)
    ensures Shape(cfg, st) && IndexOk(st) && ix < |st.levels| == |st.queues|
    ensures HeadOf(st.queues[ix]) == NIL <==> st.queues[ix] == []
    ensures st.queues[ix] != [] ==> var s := st.queues[ix][0];
      && s < |st.recs| < NIL && s !in st.free && st.recs[s].id in st.index && st.index[st.recs[s].id] == s
      && st.recs[s].qty > 0
  {
    hide Others, BookOk, Abs, Leading, Sum;
    if st.queues[ix] != [] {
      QueuedIsLive(st, ix, 0);
      QueueSlot(st.recs, st.queues[ix], ix, 0);
    }
  }

  lemma InvShape(cfg: Config, st: State)
    requires Inv(cfg, st)
    ensures Shape(cfg, st) && IndexOk(st) && Others(cfg, st, -1) && SlotsOk(st) && BestsOk(st)
    ensures BookOk(cfg, Abs(cfg, st))
  {
  }

  /** What an index lookup says about the book. */
  lemma Indexed(cfg: Config, st: State, id: nat)
    requires Inv(cfg, st)
    ensures id in st.index <==> Contains(Abs(cfg, st), id)
    ensures id !in st.index ==> st.index - {id} == st.index && CancelUnknown(cfg, st, id)
    ensures id in st.index ==>
        Live(st, st.index[id]) && st.index[id] < |st.recs| < NIL && st.recs[st.index[id]].id == id
  {
    hide Abs, BookOk, Others, SlotsOk, BestsOk;
    IndexedIff(cfg, st, id);
  }

  ghost predicate CancelUnknown(cfg: Config, st: State, id: nat) {
    forall c: Command :: c.orderId == id ==>
      CancelOrder(cfg, Abs(cfg, st), c) == Outcome(Abs(cfg, st), [RejectedEvent(c, UnknownOrder)])
  }

  lemma CancelFound(cfg: Config, st: State, s: nat, k: nat, c: Command)
    requires Inv(cfg, st) && Live(st, s) && st.recs[s].id == c.orderId
    requires PlacedAt(st, s, st.recs[s].side, st.recs[s].level, k)
    ensures var b, r, p := Abs(cfg, st), st.recs[s], Position(cfg, st, st.recs[s].side, st.recs[s].level, k);
      p < |Resting(b, r.side)| &&
      CancelOrder(cfg, b, c) == Outcome(WithResting(b, r.side, RemoveAt(Resting(b, r.side), p)),
        [CanceledEvent(cfg.symbol, c.orderId, r.side, cfg.minPrice + r.level, r.qty, UserCanceled)])
  {
    hide Abs, BookOk, Others, SlotsOk, BestsOk, IndexOk, Position, Find, RemoveAt;
    FoundAt(cfg, st, s, st.recs[s].side, st.recs[s].level, k);
  }

  lemma UnlinkSame(st: State, st1: State, side: Side, ix: nat, k: nat, best: int)
    requires ix < |st.levels| && ix < |st.queues| && k < |st.queues[ix]| && st1 == st.(index := st1.index)
    ensures UnlinkS(st1, side, ix, k, best) == UnlinkS(st, side, ix, k, best).(index := st1.index)
    ensures NewBest(st1, side, ix, best) <==> NewBest(st, side, ix, best)
  {
  }

  lemma WithoutSize(q: seq<nat>, k: nat)
    requires k < |q| && forall j :: 0 <= j < |q| ==> q[j] < NIL
    ensures |Without(q, k)| == |q| - 1
    ensures HeadOf(Without(q, k)) == NIL <==> Without(q, k) == []
  {
  }
}
