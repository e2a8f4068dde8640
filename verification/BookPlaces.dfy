/** Where an order is: the slot the index gives, its place in its level's queue and in the book; and
    the two steps that put an order into the book or take one out. */
module BookPlaces {
  import opened Types
  import opened BookSpec
  import opened BookInvariant
  import opened Ladders
  import opened OrderStores
  import opened BookStates
  import opened BookSteps
  import PriceBitmaps

  // ---- looking an order up ----

  /** The place of a live slot: side, level, position in the level's queue. */
  ghost predicate PlacedAt(st: State, s: nat, side: Side, ix: nat, k: nat) {
    && s < |st.recs| && ix < |st.queues| && k < |st.queues[ix]| && st.queues[ix][k] == s
    && st.recs[s].level == ix && st.recs[s].side == side && ix in Marked(st, side) && ix !in Marked(st, Opposite(side))
    && st.recs[s].qty > 0
  }

  lemma PlaceOf(cfg: Config, st: State, s: nat) returns (k: nat)
    requires Shape(cfg, st) && Others(cfg, st, -1) && Live(st, s)
    ensures PlacedAt(st, s, st.recs[s].side, st.recs[s].level, k)
  {
    var ix := st.recs[s].level;
    k :| 0 <= k < |st.queues[ix]| && st.queues[ix][k] == s;
    OthersSplit(cfg, st, ix);
    QueueSlot(st.recs, st.queues[ix], ix, k);
  }

  lemma QueueSlot(recs: seq<Rec>, q: seq<nat>, i: int, k: nat)
    requires Chain(recs, q, i) && k < |q|
    ensures q[k] < |recs| && recs[q[k]].qty > 0 && recs[q[k]].side == recs[q[0]].side
  {
  }

  /** An order's position in its side's queue. */
  ghost function Position(cfg: Config, st: State, side: Side, ix: nat, k: nat): nat {
    if ix < cfg.numLevels then |Concat(LadderOf(cfg, st, side)[..RankAt(cfg, side, ix)])| + k else 0
  }

  lemma AtPosition(cfg: Config, st: State, s: nat, side: Side, ix: nat, k: nat)
    requires Shape(cfg, st) && PlacedAt(st, s, side, ix, k)
    ensures var q, p := Resting(Abs(cfg, st), side), Position(cfg, st, side, ix, k);
      p < |q| && q[p] == ToOrder(st.recs[s], cfg.minPrice + ix)
  {
    hide Concat;
    RungPosition(LadderOf(cfg, st, side), RankAt(cfg, side, ix), k);
  }

  /** The book finds an indexed order where the slot says it is. */
  lemma FoundAt(cfg: Config, st: State, s: nat, side: Side, ix: nat, k: nat)
    requires Shape(cfg, st) && PlacedAt(st, s, side, ix, k) && BookOk(cfg, Abs(cfg, st))
    ensures var b, id := Abs(cfg, st), st.recs[s].id;
      var q, p := Resting(b, side), Position(cfg, st, side, ix, k);
      && p < |q| && q[p] == ToOrder(st.recs[s], cfg.minPrice + ix)
      && Contains(b, id) && SideOf(b, id) == side && Find(q, id) == p
  {
    hide Abs, Position, Find;
    var b, p := Abs(cfg, st), Position(cfg, st, side, ix, k);
    AtPosition(cfg, st, s, side, ix, k);
    FindIs(Resting(b, side), p);
    IdsByDisjoint(b.bids, b.asks);
  }

  /** The index holds exactly the ids resting in the book. */
  lemma IndexedIff(cfg: Config, st: State, id: nat)
    requires Inv(cfg, st)
    ensures id in st.index <==> Contains(Abs(cfg, st), id)
  {
    hide BookOk, Concat, Others, BestsOk, SlotsOk;
    if id in st.index {
      var s := st.index[id];
      var k := PlaceOf(cfg, st, s);
      FoundAt(cfg, st, s, st.recs[s].side, st.recs[s].level, k);
    }
    forall side: Side | HasId(Resting(Abs(cfg, st), side), id) ensures id in st.index {
      RestingIndexed(cfg, st, side, id);
    }
    assert HasId(Abs(cfg, st).bids, id) ==> HasId(Resting(Abs(cfg, st), Buy), id);
    assert HasId(Abs(cfg, st).asks, id) ==> HasId(Resting(Abs(cfg, st), Sell), id);
  }

  lemma RestingIndexed(cfg: Config, st: State, side: Side, id: nat)
    requires Shape(cfg, st) && Others(cfg, st, -1) && IndexOk(st)
    requires HasId(Resting(Abs(cfg, st), side), id)
    ensures id in st.index
  {
    hide Concat;
    var l := LadderOf(cfg, st, side);
    ConcatHas(l, id);
    var r :| 0 <= r < |l| && HasId(l[r], id);
    var i := LevelAt(cfg, side, r);
    assert l[r] == LevelOrders(cfg, st, side, i);
    var k :| 0 <= k < |l[r]| && l[r][k].id == id;
    OthersSplit(cfg, st, i);
    QueuedIsLive(st, i, k);
    assert Live(st, st.queues[i][k]);
  }

  /** As many orders rest as the index has entries. */
  lemma RestingCount(cfg: Config, st: State)
    requires Inv(cfg, st)
    ensures |Abs(cfg, st).bids| + |Abs(cfg, st).asks| == |st.index|
    ensures st.free == [] <==> |Abs(cfg, st).bids| + |Abs(cfg, st).asks| >= cfg.maxOrders
  {
    hide Abs, Others, BestsOk, SlotsOk;
    forall id ensures Contains(Abs(cfg, st), id) <==> id in st.index.Keys {
      IndexedIff(cfg, st, id);
    }
    CountIds(Abs(cfg, st), st.index.Keys);
    assert |st.index.Keys| == |st.index|;
  }

  /** "Does an incoming order cross?" is one comparison against the cached best. */
  lemma CrossesIff(cfg: Config, st: State, side: Side, ix: int)
    requires Inv(cfg, st) && 0 <= ix < cfg.numLevels
    ensures Crosses(Abs(cfg, st), side, cfg.minPrice + ix) <==>
      if side == Buy then st.bestAsk <= ix else st.bestBid >= ix
  {
    hide BookOk, Abs, SlotsOk, IndexOk;
    var opp := Opposite(side);
    if Best(st, opp) in Marked(st, opp) {
      BestLeads(cfg, st, opp);
      LeadingFront(cfg, st, opp, Best(st, opp));
    } else {
      NoneLeads(cfg, st, opp);
    }
  }

  lemma BestLeads(cfg: Config, st: State, side: Side)
    requires Shape(cfg, st) && Others(cfg, st, -1) && BestsOk(st) && Best(st, side) in Marked(st, side)
    ensures Leading(cfg, st, side, Best(st, side)) && QueueAt(st, Best(st, side)) != []
  {
    assert 0 <= Best(st, side) < cfg.numLevels;
    OthersSplit(cfg, st, Best(st, side));
  }

  // ---- resting ----

  ghost function Enrol(st: State, side: Side, ix: nat): State {
    if side == Buy then st.(bids := st.bids + {ix}, bestBid := if ix > st.bestBid then ix else st.bestBid)
    else st.(asks := st.asks + {ix}, bestAsk := if ix < st.bestAsk then ix else st.bestAsk)
  }

  /** Slot s, filled with r, joins the back of level ix's queue. */
  ghost function PushS(st: State, side: Side, ix: nat, s: nat, r: Rec): State
    requires ix < |st.levels| && ix < |st.queues| && st.free != []
  {
    var q, lv := st.queues[ix], st.levels[ix];
    var recs1 := Put(st.recs, s, r.(next := NIL, prev := lv.tail));
    var recs2 := if lv.tail == NIL then recs1 else Put(recs1, lv.tail, Get(recs1, lv.tail).(next := s));
    var st1 := st.(levels := st.levels[ix := Level(Add64(lv.qty, r.qty), if lv.tail == NIL then s else lv.head, s)],
                   recs := recs2, queues := st.queues[ix := q + [s]], free := st.free[1..],
                   index := st.index[r.id := s]);
    if lv.tail == NIL then Enrol(st1, side, ix) else st1
  }

  /** From st to st', the front free slot s joins level ix's queue; every other slot keeps id and level. */
  ghost predicate Added(st: State, st': State, ix: int, s: nat) {
    && st.free != [] && s == st.free[0] && s < |st.recs| == |st'.recs| && st'.free == st.free[1..]
    && (forall t :: 0 <= t < |st.recs| && t != s ==>
         st'.recs[t].id == st.recs[t].id && st'.recs[t].level == st.recs[t].level)
    && st'.recs[s].level == ix
    && (forall t :: t in QueueAt(st', ix) <==> t in QueueAt(st, ix) || t == s)
    && (forall i :: i != ix ==> QueueAt(st', i) == QueueAt(st, i))
    && (forall k :: 0 < k < |st.free| && st.free[k] < |st.recs| ==>
         st'.recs[st.free[k]].next == st.recs[st.free[k]].next)
    && st'.recs[s].id !in st.index && st'.index == st.index[st'.recs[s].id := s]
  }

  lemma AddedLive(st: State, st': State, ix: int, s: nat, t: nat)
    requires Added(st, st', ix, s) && t < |st.recs|
    ensures Live(st', t) <==> Live(st, t) || t == s
  {
  }

  lemma AddedSlots(st: State, st': State, ix: int, s: nat)
    requires Added(st, st', ix, s) && SlotsOk(st)
    ensures SlotsOk(st') && !Live(st, s)
  {
    var f := st'.free;
    assert forall k :: 0 <= k < |f| ==> f[k] == st.free[k + 1];
    assert s in st.free;
    forall t | 0 <= t < |st'.recs| ensures t in st'.free <==> !Live(st', t) {
      AddedLive(st, st', ix, s, t);
      if t in st.free && t != s {
        var k :| 0 <= k < |st.free| && st.free[k] == t;
        assert f[k - 1] == t;
      }
    }
  }

  lemma AddedIndex(st: State, st': State, ix: int, s: nat)
    requires Added(st, st', ix, s) && IndexOk(st) && !Live(st, s)
    ensures IndexOk(st')
  {
    forall t: nat | Live(st', t) ensures st'.recs[t].id in st'.index && st'.index[st'.recs[t].id] == t {
      AddedLive(st, st', ix, s, t);
    }
    forall id | id in st'.index ensures Live(st', st'.index[id]) && st'.recs[st'.index[id]].id == id {
      AddedLive(st, st', ix, s, st'.index[id]);
    }
  }

  lemma {:induction false} SumAppend(recs: seq<Rec>, q: seq<nat>, s: nat)
    ensures Sum(recs, q + [s]) == Sum(recs, q) + Get(recs, s).qty
  {
    if q == [] {
      assert Sum(recs, [s]) == Get(recs, s).qty + Sum(recs, [s][1..]);
    } else {
      assert (q + [s])[1..] == q[1..] + [s];
      SumAppend(recs, q[1..], s);
    }
  }

  /** What a resting order needs: a free slot, a place of its own in the index, no opposite order here. */
  ghost predicate MayPush(cfg: Config, st: State, side: Side, ix: nat, s: nat, r: Rec) {
    && Shape(cfg, st) && Others(cfg, st, -1) && ix < cfg.numLevels
    && st.free != [] && s == st.free[0]
    && r.level == ix && r.side == side && r.qty > 0 && r.id !in st.index
    && ix !in Marked(st, Opposite(side))
  }

  /** The new links of the slab. */
  ghost function PushRecs(recs: seq<Rec>, q: seq<nat>, s: nat, r: Rec): seq<Rec> {
    var recs1 := Put(recs, s, r.(next := NIL, prev := LastOf(q)));
    if q == [] then recs1 else Put(recs1, LastOf(q), Get(recs1, LastOf(q)).(next := s))
  }

  lemma PushedRecs(recs: seq<Rec>, q: seq<nat>, i: int, s: nat, r: Rec)
    requires Chain(recs, q, i) && s < |recs| && s !in q
    ensures var recs' := PushRecs(recs, q, s, r);
      && |recs'| == |recs| && recs'[s] == r.(next := NIL, prev := LastOf(q))
      && (forall t :: 0 <= t < |recs| && t != s && t !in q ==> recs'[t] == recs[t])
      && (forall t :: 0 <= t < |recs| && t != s ==> recs'[t].(next := 0) == recs[t].(next := 0))
  {
    assert q != [] ==> LastOf(q) in q;
  }

  lemma PushedLinks(recs: seq<Rec>, q: seq<nat>, i: int, s: nat, r: Rec)
    requires Chain(recs, q, i) && s < |recs| && s !in q
    ensures var recs' := PushRecs(recs, q, s, r);
      && |recs'| == |recs|
      && (forall k :: 0 <= k < |q| ==> recs'[q[k]].(next := 0) == recs[q[k]].(next := 0))
      && (forall k :: 0 <= k < |q| ==> recs'[q[k]].next == if k == |q| - 1 then s else recs[q[k]].next)
  {
  }

  lemma PushedOrders(recs: seq<Rec>, recs': seq<Rec>, q: seq<nat>, price: int)
    requires InRange(q, |recs|) && |recs'| == |recs|
    requires forall k :: 0 <= k < |q| ==> recs'[q[k]].(next := 0) == recs[q[k]].(next := 0)
    ensures Orders(recs', q, price) == Orders(recs, q, price)
    ensures Sum(recs', q) == Sum(recs, q)
  {
    forall k | 0 <= k < |q|
      ensures ToOrder(Get(recs', q[k]), price) == ToOrder(Get(recs, q[k]), price)
      ensures Get(recs', q[k]).qty == Get(recs, q[k]).qty
    {
      assert recs'[q[k]].(next := 0) == recs[q[k]].(next := 0);
    }
    SumQtys(recs, recs', q);
  }

  /** The links after joining the back of a queue. */
  lemma PushChain(recs: seq<Rec>, q: seq<nat>, i: int, s: nat, r: Rec)
    requires Chain(recs, q, i) && s < |recs| && s !in q
    requires r.level == i && r.qty > 0 && (q != [] ==> r.side == recs[q[0]].side)
    ensures Chain(PushRecs(recs, q, s, r), q + [s], i)
  {
    hide PushRecs;
    var recs', p := PushRecs(recs, q, s, r), q + [s];
    PushedRecs(recs, q, i, s, r);
    PushedLinks(recs, q, i, s, r);
    forall k | 0 <= k < |p|
      ensures recs'[p[k]].level == i && recs'[p[k]].qty > 0 && recs'[p[k]].side == recs'[p[0]].side
    {
      SameButNext(recs', recs, q, k);
      SameButNext(recs', recs, q, 0);
    }
    forall k | 0 < k < |p| ensures recs'[p[k]].prev == p[k - 1] {
      SameButNext(recs', recs, q, k);
    }
  }

  lemma SameButNext(recs': seq<Rec>, recs: seq<Rec>, q: seq<nat>, k: nat)
    requires |recs'| == |recs| && InRange(q, |recs|)
    requires forall k :: 0 <= k < |q| ==> recs'[q[k]].(next := 0) == recs[q[k]].(next := 0)
    ensures k < |q| ==> recs'[q[k]].level == recs[q[k]].level && recs'[q[k]].qty == recs[q[k]].qty
    ensures k < |q| ==> recs'[q[k]].side == recs[q[k]].side && recs'[q[k]].prev == recs[q[k]].prev
  {
    if k < |q| {
      assert recs'[q[k]].(next := 0) == recs[q[k]].(next := 0);
    }
  }

  lemma PushShape(st: State, side: Side, ix: nat, s: nat, r: Rec)
    requires |st.levels| == |st.queues| && ix < |st.queues| && st.free != [] && QueueOk(st, ix) && EndsOk(st, ix)
    requires |st.recs| < NIL
    ensures var st', q := PushS(st, side, ix, s, r), st.queues[ix];
      && st'.recs == PushRecs(st.recs, q, s, r) && |st'.recs| == |st.recs| && st'.queues == st.queues[ix := q + [s]]
      && st'.free == st.free[1..] && st'.index == st.index[r.id := s]
      && st'.levels == st.levels[ix := Level(Add64(st.levels[ix].qty, r.qty), HeadOf(q + [s]), s)]
      && (if q == [] then
            (if side == Buy then st'.bids == st.bids + {ix as int} && st'.asks == st.asks && st'.bestAsk == st.bestAsk
                              && st'.bestBid == (if ix > st.bestBid then ix else st.bestBid)
             else st'.asks == st.asks + {ix as int} && st'.bids == st.bids && st'.bestBid == st.bestBid
                              && st'.bestAsk == (if ix < st.bestAsk then ix else st.bestAsk))
          else st'.bids == st.bids && st'.asks == st.asks && st'.bestBid == st.bestBid && st'.bestAsk == st.bestAsk)
  {
    var q := st.queues[ix];
    assert q != [] ==> LastOf(q) < |st.recs|;
  }

  lemma {:induction false} SumQtys(recs: seq<Rec>, recs': seq<Rec>, q: seq<nat>)
    requires forall k :: 0 <= k < |q| ==> Get(recs', q[k]).qty == Get(recs, q[k]).qty
    ensures Sum(recs', q) == Sum(recs, q)
  {
    if q != [] {
      SumQtys(recs, recs', q[1..]);
    }
  }

  lemma PushLevel(cfg: Config, st: State, side: Side, ix: nat, s: nat, r: Rec)
    requires MayPush(cfg, st, side, ix, s, r) && SlotsOk(st)
    ensures var st' := PushS(st, side, ix, s, r);
      QueueOk(st', ix) && EndsOk(st', ix) && s < |st.recs| && s !in st.queues[ix]
  {
    hide Chain, Others, SlotsOk, Orders, PushS, QueueOk, EndsOk;
    OthersSplit(cfg, st, ix);
    FreeNotQueued(cfg, st, ix, s);
    PushQueue(st, side, ix, s, r);
    PushEnds(st, side, ix, s, r);
  }

  lemma PushQueue(st: State, side: Side, ix: nat, s: nat, r: Rec)
    requires |st.levels| == |st.queues| && ix < |st.queues| && st.free != [] && s < |st.recs| < NIL
    requires s !in st.queues[ix]
    requires QueueOk(st, ix) && EndsOk(st, ix) && r.level == ix && r.side == side && r.qty > 0
    requires ix !in Marked(st, Opposite(side))
    ensures QueueOk(PushS(st, side, ix, s, r), ix)
  {
    hide Orders, PushS, PushRecs, Chain;
    var q, st' := st.queues[ix], PushS(st, side, ix, s, r);
    MarkedBySide(st, ix, side);
    ChainRange(st.recs, q, ix);
    PushShape(st, side, ix, s, r);
    PushedRecs(st.recs, q, ix, s, r);
    PushedLinks(st.recs, q, ix, s, r);
    FrontSide(st.recs, q);
    hide EndsOk;
    PushChain(st.recs, q, ix, s, r);
    SumAppend(st'.recs, q, s);
    PushedOrders(st.recs, st'.recs, q, 0);
  }

  lemma FrontSide(recs: seq<Rec>, q: seq<nat>)
    requires InRange(q, |recs|)
    ensures q != [] ==> Get(recs, q[0]) == recs[q[0]]
  {
  }

  lemma PushEnds(st: State, side: Side, ix: nat, s: nat, r: Rec)
    requires |st.levels| == |st.queues| && ix < |st.queues| && st.free != [] && s < |st.recs| < NIL
    requires s !in st.queues[ix]
    requires QueueOk(st, ix) && EndsOk(st, ix) && r.side == side && ix !in Marked(st, Opposite(side))
    ensures EndsOk(PushS(st, side, ix, s, r), ix)
  {
    hide Orders, PushS, PushRecs, Chain, Sum;
    var q, st' := st.queues[ix], PushS(st, side, ix, s, r);
    MarkedBySide(st, ix, side);
    ChainRange(st.recs, q, ix);
    PushShape(st, side, ix, s, r);
    PushedRecs(st.recs, q, ix, s, r);
    PushedLinks(st.recs, q, ix, s, r);
    SameButNext(st'.recs, st.recs, q, 0);
  }

  lemma ChainRange(recs: seq<Rec>, q: seq<nat>, i: int)
    requires Chain(recs, q, i)
    ensures InRange(q, |recs|)
  {
  }

  lemma FreeNotQueued(cfg: Config, st: State, ix: nat, s: nat)
    requires Shape(cfg, st) && Others(cfg, st, -1) && SlotsOk(st) && s in st.free && ix < cfg.numLevels
    ensures s < |st.recs| && s !in st.queues[ix]
  {
    var j :| 0 <= j < |st.free| && st.free[j] == s;
    OthersSplit(cfg, st, ix);
    if s in st.queues[ix] {
      var k :| 0 <= k < |st.queues[ix]| && st.queues[ix][k] == s;
      QueuedIsLive(st, ix, k);
    }
  }

  lemma PushOnlyAt(cfg: Config, st: State, side: Side, ix: nat, s: nat, r: Rec)
    requires MayPush(cfg, st, side, ix, s, r) && SlotsOk(st)
    ensures OnlyAt(st, PushS(st, side, ix, s, r), ix)
  {
    var q, st' := st.queues[ix], PushS(st, side, ix, s, r);
    OthersSplit(cfg, st, ix);
    FreeNotQueued(cfg, st, ix, s);
    PushShape(st, side, ix, s, r);
    PushedRecs(st.recs, q, ix, s, r);
    forall i, k | i != ix && 0 <= k < |QueueAt(st, i)|
      ensures Get(st'.recs, QueueAt(st, i)[k]) == Get(st.recs, QueueAt(st, i)[k])
    {
      FreeNotQueued(cfg, st, i, s);
      OthersSplit(cfg, st, i);
      if QueueAt(st, i)[k] in q {
        OneQueue(st, ix, i, QueueAt(st, i)[k]);
      }
    }
  }

  lemma PushAdded(cfg: Config, st: State, side: Side, ix: nat, s: nat, r: Rec)
    requires MayPush(cfg, st, side, ix, s, r) && SlotsOk(st)
    ensures Added(st, PushS(st, side, ix, s, r), ix, s)
  {
    hide Orders, Live, PushS, PushRecs, Chain, Others;
    var q, st' := st.queues[ix], PushS(st, side, ix, s, r);
    OthersSplit(cfg, st, ix);
    FreeNotQueued(cfg, st, ix, s);
    PushShape(st, side, ix, s, r);
    PushedRecs(st.recs, q, ix, s, r);
    forall k | 0 < k < |st.free| && st.free[k] < |st.recs|
      ensures st'.recs[st.free[k]].next == st.recs[st.free[k]].next
    {
      FreeNotQueued(cfg, st, ix, st.free[k]);
    }
    forall t | 0 <= t < |st.recs| && t != s
      ensures st'.recs[t].id == st.recs[t].id && st'.recs[t].level == st.recs[t].level
    {
      assert st'.recs[t].(next := 0) == st.recs[t].(next := 0);
    }
  }

  lemma PushBests(cfg: Config, st: State, side: Side, ix: nat, s: nat, r: Rec)
    requires MayPush(cfg, st, side, ix, s, r) && BestsOk(st)
    ensures BestsOk(PushS(st, side, ix, s, r))
  {
    OthersSplit(cfg, st, ix);
    PushShape(st, side, ix, s, r);
  }

  /** In the book, the new order stands behind everything as good. */
  lemma PushAbs(cfg: Config, st: State, side: Side, ix: nat, s: nat, r: Rec)
    requires MayPush(cfg, st, side, ix, s, r) && SlotsOk(st)
    ensures var b := Abs(cfg, st);
      Abs(cfg, PushS(st, side, ix, s, r)) ==
        WithResting(b, side, Insert(Resting(b, side), side, ToOrder(r, cfg.minPrice + ix)))
  {
    hide Concat, OnlyAt, SlotsOk, Insert, Orders, Others;
    var st', o, l := PushS(st, side, ix, s, r), ToOrder(r, cfg.minPrice + ix), LadderOf(cfg, st, side);
    PushOnlyAt(cfg, st, side, ix, s, r);
    PushLevelOrders(cfg, st, side, ix, s, r);
    LadderOnlyAt(cfg, st, st', side, ix);
    LadderUnchanged(cfg, st, st', Opposite(side), ix);
    LadderPriced(cfg, st, side);
    InsertRung(cfg, side, l, o);
    assert RankOf(cfg, side, o.price) == RankAt(cfg, side, ix);
  }

  lemma PushLevelOrders(cfg: Config, st: State, side: Side, ix: nat, s: nat, r: Rec)
    requires MayPush(cfg, st, side, ix, s, r) && SlotsOk(st)
    ensures var st' := PushS(st, side, ix, s, r);
      && LevelOrders(cfg, st', side, ix) == LevelOrders(cfg, st, side, ix) + [ToOrder(r, cfg.minPrice + ix)]
      && LevelOrders(cfg, st', Opposite(side), ix) == LevelOrders(cfg, st, Opposite(side), ix)
  {
    hide Live, PushS, PushRecs, Chain, Others, SlotsOk, Sum;
    var q, st' := st.queues[ix], PushS(st, side, ix, s, r);
    OthersSplit(cfg, st, ix);
    FreeNotQueued(cfg, st, ix, s);
    PushShape(st, side, ix, s, r);
    PushedRecs(st.recs, q, ix, s, r);
    PushedLinks(st.recs, q, ix, s, r);
    ChainRange(st.recs, q, ix);
    PushedOrders(st.recs, st'.recs, q, cfg.minPrice + ix);
    MarkedBySide(st, ix, side);
    assert Orders(st'.recs, q + [s], cfg.minPrice + ix)
        == Orders(st'.recs, q, cfg.minPrice + ix) + [ToOrder(r, cfg.minPrice + ix)];
  }

  lemma MarkedBySide(st: State, ix: nat, side: Side)
    requires |st.levels| == |st.queues| && ix < |st.queues| && EndsOk(st, ix) && ix !in Marked(st, Opposite(side))
    ensures ix in Marked(st, side) <==> st.queues[ix] != []
    ensures st.queues[ix] != [] ==> Get(st.recs, st.queues[ix][0]).side == side
  {
  }

  /** Resting keeps the whole audit. */
  lemma PushOk(cfg: Config, st: State, side: Side, ix: nat, s: nat, r: Rec)
    requires Inv(cfg, st) && MayPush(cfg, st, side, ix, s, r)
    requires var b := Abs(cfg, st);
      BookOk(cfg, WithResting(b, side, Insert(Resting(b, side), side, ToOrder(r, cfg.minPrice + ix))))
    ensures var b := Abs(cfg, st);
      && Inv(cfg, PushS(st, side, ix, s, r))
      && Abs(cfg, PushS(st, side, ix, s, r)) ==
           WithResting(b, side, Insert(Resting(b, side), side, ToOrder(r, cfg.minPrice + ix)))
  {
    hide Abs, BookOk, SlotsOk, IndexOk, BestsOk, OnlyAt, Others, Added, QueueOk, EndsOk, Insert, PushS, Live;
    var st' := PushS(st, side, ix, s, r);
    PushShapeOk(cfg, st, side, ix, s, r);
    PushOnlyAt(cfg, st, side, ix, s, r);
    PushLevel(cfg, st, side, ix, s, r);
    OthersSplit(cfg, st, ix);
    OthersKept(cfg, st, st', ix);
    OthersJoin(cfg, st', ix);
    PushAdded(cfg, st, side, ix, s, r);
    AddedSlots(st, st', ix, s);
    AddedIndex(st, st', ix, s);
    PushBests(cfg, st, side, ix, s, r);
    PushAbs(cfg, st, side, ix, s, r);
  }

  lemma PushShapeOk(cfg: Config, st: State, side: Side, ix: nat, s: nat, r: Rec)
    requires MayPush(cfg, st, side, ix, s, r)
    ensures Shape(cfg, PushS(st, side, ix, s, r))
  {
  }

  // ---- taking an order out ----

  /** The links after unlinking the k-th slot of a queue. */
  ghost function LinkOut(recs: seq<Rec>, q: seq<nat>, k: nat): seq<Rec>
    requires k < |q|
  {
    var r := Get(recs, q[k]);
    var recs1 := if k == 0 then recs else Put(recs, r.prev, Get(recs, r.prev).(next := r.next));
    if k == |q| - 1 then recs1 else Put(recs1, r.next, Get(recs1, r.next).(prev := r.prev))
  }

  /** ... and then putting it on the free list. */
  ghost function UnlinkRecs(recs: seq<Rec>, q: seq<nat>, k: nat, free: nat): seq<Rec>
    requires k < |q|
  {
    var recs1 := LinkOut(recs, q, k);
    Put(recs1, q[k], Get(recs1, q[k]).(next := free))
  }

  ghost function Without(q: seq<nat>, k: nat): seq<nat>
    requires k < |q|
  {
    q[..k] + q[k + 1..]
  }

  /** The k-th slot of level ix leaves its queue; an emptied level is retired. */
  ghost function UnlinkS(st: State, side: Side, ix: nat, k: nat, best: int): State
    requires ix < |st.levels| && ix < |st.queues| && k < |st.queues[ix]|
  {
    var q, lv := st.queues[ix], st.levels[ix];
    var p := Without(q, k);
    var st1 := st.(levels := st.levels[ix := Level(Sub64(lv.qty, Get(st.recs, q[k]).qty), HeadOf(p), LastOf(p))],
                   recs := LinkOut(st.recs, q, k), queues := st.queues[ix := p]);
    if p != [] then st1
    else Retire(st1, side, ix, if ix == Best(st, side) then best else Best(st, side))
  }

  /** The k-th order of level ix leaves the book: unlinked, its slot freed, its id forgotten. */
  ghost function RemoveS(st: State, side: Side, ix: nat, k: nat, best: int): State
    requires ix < |st.levels| && ix < |st.queues| && k < |st.queues[ix]|
  {
    var st1, s := UnlinkS(st, side, ix, k, best), st.queues[ix][k];
    st1.(recs := Put(st1.recs, s, Get(st1.recs, s).(next := HeadOf(st.free))),
         free := [s] + st.free, index := st.index - {Get(st.recs, s).id})
  }

  /** Where a live slot is, whatever the index says meanwhile. */
  lemma PlaceFacts(cfg: Config, st: State, s: nat, st1: State) returns (k: nat)
    requires Shape(cfg, st) && Others(cfg, st, -1) && SlotsOk(st) && Live(st, s)
    requires st1 == st.(index := st1.index)
    ensures var ix, side := st.recs[s].level, st.recs[s].side;
      && PlacedAt(st, s, side, ix, k) && PlacedAt(st1, s, side, ix, k)
      && QueueOk(st1, ix) && EndsOk(st1, ix)
      && forall j :: 0 <= j < |st.queues[ix]| ==> st.queues[ix][j] !in st.free && st.queues[ix][j] < NIL
  {
    hide Chain, Sum, SlotsOk;
    k := PlaceOf(cfg, st, s);
    var ix := st.recs[s].level;
    OthersSplit(cfg, st, ix);
    forall j | 0 <= j < |st.queues[ix]| ensures st.queues[ix][j] !in st.free && st.queues[ix][j] < NIL {
      QueuedNotFree(cfg, st, ix, j);
    }
  }

  /** What unlinking reads: whether s is the head or the tail, and its neighbours. */
  lemma UnlinkReads(st: State, s: nat, side: Side, ix: nat, k: nat)
    requires |st.levels| == |st.queues| && |st.recs| < NIL && PlacedAt(st, s, side, ix, k) && QueueOk(st, ix)
    requires EndsOk(st, ix)
    ensures var q, lv, r := st.queues[ix], st.levels[ix], st.recs[s];
      var head := if k == 0 then r.next else lv.head;
      && (s == lv.head <==> k == 0) && (s == lv.tail <==> k == |q| - 1)
      && (k > 0 ==> r.prev == q[k - 1] && r.prev < |st.recs|)
      && (k < |q| - 1 ==> r.next == q[k + 1] && r.next < |st.recs|)
      && head == HeadOf(Without(q, k))
      && LastOf(Without(q, k)) == (if k < |q| - 1 then lv.tail else if head == NIL then NIL else r.prev)
  {
    hide Sum;
    var q, r := st.queues[ix], st.recs[s];
    assert k > 0 ==> st.recs[q[k]].prev == q[k - 1];
    assert k < |q| - 1 ==> st.recs[q[k]].next == q[k + 1];
    assert k > 0 ==> q[0] != q[k];
    assert k < |q| - 1 ==> q[|q| - 1] != q[k];
  }

  lemma QueuedNotFree(cfg: Config, st: State, ix: nat, j: nat)
    requires Shape(cfg, st) && Others(cfg, st, -1) && SlotsOk(st) && ix < cfg.numLevels && j < |st.queues[ix]|
    ensures st.queues[ix][j] < |st.recs| && st.queues[ix][j] !in st.free
  {
    OthersSplit(cfg, st, ix);
    QueuedIsLive(st, ix, j);
  }

  /** Unlinking writes only the neighbours' links and the slot's own `next`. */
  lemma UnlinkedRecs(recs: seq<Rec>, q: seq<nat>, i: int, k: nat, free: nat)
    requires Chain(recs, q, i) && k < |q| && |recs| < NIL
    ensures var recs', s := UnlinkRecs(recs, q, k, free), q[k];
      && |recs'| == |recs| && recs'[s].next == free
      && (forall t :: 0 <= t < |recs| ==> recs'[t].(next := 0, prev := 0) == recs[t].(next := 0, prev := 0))
      && (forall t :: 0 <= t < |recs| && t !in q ==> recs'[t] == recs[t])
  {
    assert k > 0 ==> recs[q[k]].prev == q[k - 1];
    assert k < |q| - 1 ==> recs[q[k]].next == q[k + 1];
  }

  lemma UnlinkedLinks(recs: seq<Rec>, q: seq<nat>, i: int, k: nat, free: nat)
    requires Chain(recs, q, i) && k < |q| && |recs| < NIL
    ensures var recs' := UnlinkRecs(recs, q, k, free);
      && |recs'| == |recs|
      && (forall j :: 0 <= j < |q| && j != k ==>
           recs'[q[j]].next == if j == k - 1 then recs[q[k]].next else recs[q[j]].next)
      && (forall j :: 0 <= j < |q| && j != k && j != k + 1 ==> recs'[q[j]].prev == recs[q[j]].prev)
      && (k + 1 < |q| ==> recs'[q[k + 1]].prev == recs[q[k]].prev)
  {
    assert k > 0 ==> recs[q[k]].prev == q[k - 1];
    assert k < |q| - 1 ==> recs[q[k]].next == q[k + 1];
  }

  lemma WithoutFacts(q: seq<nat>, k: nat)
    requires k < |q| && NoDup(q)
    ensures var p := Without(q, k);
      && |p| == |q| - 1 && NoDup(p)
      && (forall j :: 0 <= j < |p| ==> p[j] == q[if j < k then j else j + 1])
      && (forall t :: t in p <==> t in q && t != q[k])
  {
    var p := Without(q, k);
    forall t | t in q && t != q[k] ensures t in p {
      var j :| 0 <= j < |q| && q[j] == t;
      assert p[if j < k then j else j - 1] == t;
    }
  }

  lemma UnlinkNext(recs: seq<Rec>, q: seq<nat>, i: int, k: nat, free: nat)
    requires Chain(recs, q, i) && k < |q| && |recs| < NIL
    ensures NextLinked(UnlinkRecs(recs, q, k, free), Without(q, k))
  {
    hide UnlinkRecs, Without;
    var p, recs' := Without(q, k), UnlinkRecs(recs, q, k, free);
    UnlinkedLinks(recs, q, i, k, free);
    WithoutFacts(q, k);
    forall j | 0 <= j < |p| - 1 ensures recs'[p[j]].next == p[j + 1] {
      var a := if j < k then j else j + 1;
      assert recs[q[a]].next == q[a + 1];
      assert a == k - 1 ==> recs[q[k]].next == q[k + 1];
    }
    if p != [] {
      var a := if |p| - 1 < k then |p| - 1 else |p|;
      assert p[|p| - 1] == q[a];
    }
  }

  lemma UnlinkChain(recs: seq<Rec>, q: seq<nat>, i: int, k: nat, free: nat)
    requires Chain(recs, q, i) && k < |q| && |recs| < NIL
    ensures Chain(UnlinkRecs(recs, q, k, free), Without(q, k), i)
  {
    hide UnlinkRecs, Without, NextLinked;
    var p, recs' := Without(q, k), UnlinkRecs(recs, q, k, free);
    ChainRange(recs, q, i);
    UnlinkNext(recs, q, i, k, free);
    UnlinkedLinks(recs, q, i, k, free);
    UnlinkedRecs(recs, q, i, k, free);
    WithoutFacts(q, k);
    forall j | 0 < j < |p| ensures recs'[p[j]].prev == p[j - 1] {
      var a := if j < k then j else j + 1;
      assert p[j] == q[a] && recs[q[a]].prev == q[a - 1];
      assert a == k + 1 ==> recs[q[k]].prev == q[k - 1];
    }
    forall j | 0 <= j < |p|
      ensures recs'[p[j]].level == i && recs'[p[j]].qty > 0 && recs'[p[j]].side == recs'[p[0]].side
    {
      SameButLinks(recs', recs, p[j]);
      SameButLinks(recs', recs, p[0]);
      assert p[j] == q[if j < k then j else j + 1] && p[0] == q[if 0 < k then 0 else 1];
    }
  }

  lemma SameButLinks(recs': seq<Rec>, recs: seq<Rec>, t: nat)
    requires |recs'| == |recs| && t < |recs| && recs'[t].(next := 0, prev := 0) == recs[t].(next := 0, prev := 0)
    ensures recs'[t].id == recs[t].id && recs'[t].level == recs[t].level && recs'[t].qty == recs[t].qty
      && recs'[t].side == recs[t].side && recs'[t].owner == recs[t].owner
  {
  }

  lemma RemoveDrops(cfg: Config, st: State, side: Side, ix: nat, k: nat, best: int)
    requires Shape(cfg, st) && Others(cfg, st, -1) && SlotsOk(st) && ix < cfg.numLevels && k < |st.queues[ix]|
    ensures Dropped(st, RemoveS(st, side, ix, k, best), ix, st.queues[ix][k])
  {
    hide UnlinkRecs, Without, Chain, Others, Sum, RemoveS;
    var q, st' := st.queues[ix], RemoveS(st, side, ix, k, best);
    RemoveShape(st, side, ix, k, best);
    OthersSplit(cfg, st, ix);
    QueuedIsLive(st, ix, k);
    ChainNoDup(st.recs, q, ix);
    UnlinkedRecs(st.recs, q, ix, k, HeadOf(st.free));
    WithoutFacts(q, k);
    assert QueueAt(st', ix) == Without(q, k);
    forall t | 0 <= t < |st.recs| ensures st'.recs[t].id == st.recs[t].id && st'.recs[t].level == st.recs[t].level {
      SameButLinks(st'.recs, st.recs, t);
    }
    forall j | 0 <= j < |st.free| && st.free[j] < |st.recs|
      ensures st'.recs[st.free[j]].next == st.recs[st.free[j]].next
    {
      FreeNotQueued(cfg, st, ix, st.free[j]);
    }
  }

  lemma ChainNoDup(recs: seq<Rec>, q: seq<nat>, i: int)
    requires Chain(recs, q, i)
    ensures NoDup(q) && InRange(q, |recs|)
  {
  }

  lemma RemoveOnlyAt(cfg: Config, st: State, side: Side, ix: nat, k: nat, best: int)
    requires Shape(cfg, st) && Others(cfg, st, -1) && ix < cfg.numLevels && k < |st.queues[ix]|
    ensures OnlyAt(st, RemoveS(st, side, ix, k, best), ix)
  {
    hide UnlinkRecs, Without, Chain, Others, Sum, RemoveS, EndsOk;
    var q, st' := st.queues[ix], RemoveS(st, side, ix, k, best);
    RemoveShape(st, side, ix, k, best);
    OthersSplit(cfg, st, ix);
    UnlinkedRecs(st.recs, q, ix, k, HeadOf(st.free));
    forall i, j | i != ix && 0 <= j < |QueueAt(st, i)|
      ensures Get(st'.recs, QueueAt(st, i)[j]) == Get(st.recs, QueueAt(st, i)[j])
    {
      OthersSplit(cfg, st, i);
      if QueueAt(st, i)[j] in q {
        OneQueue(st, ix, i, QueueAt(st, i)[j]);
      }
    }
  }

  lemma {:induction false} SumWithout(recs: seq<Rec>, recs': seq<Rec>, q: seq<nat>, k: nat)
    requires k < |q| && forall j :: 0 <= j < |q| && j != k ==> Get(recs', q[j]).qty == Get(recs, q[j]).qty
    ensures Sum(recs', Without(q, k)) + Get(recs, q[k]).qty == Sum(recs, q)
  {
    if k == 0 {
      assert Without(q, k) == q[1..];
      SumQtys(recs, recs', q[1..]);
    } else {
      assert Without(q, k) == [q[0]] + Without(q[1..], k - 1);
      assert Without(q, k)[1..] == Without(q[1..], k - 1);
      SumWithout(recs, recs', q[1..], k - 1);
    }
  }

  lemma RemoveShape(st: State, side: Side, ix: nat, k: nat, best: int)
    requires ix < |st.levels| && ix < |st.queues| && k < |st.queues[ix]|
    ensures var st', q, lv := RemoveS(st, side, ix, k, best), st.queues[ix], st.levels[ix];
      var p := Without(q, k);
      && st'.recs == UnlinkRecs(st.recs, q, k, HeadOf(st.free))
      && st'.queues == st.queues[ix := p] && st'.free == [q[k]] + st.free
      && st'.index == st.index - {Get(st.recs, q[k]).id}
      && st'.levels == st.levels[ix := Level(Sub64(lv.qty, Get(st.recs, q[k]).qty), HeadOf(p), LastOf(p))]
      && Marked(st', Opposite(side)) == Marked(st, Opposite(side))
      && Best(st', Opposite(side)) == Best(st, Opposite(side))
      && Marked(st', side) == (if p == [] then Marked(st, side) - {ix as int} else Marked(st, side))
      && Best(st', side) == (if p == [] && ix == Best(st, side) then best else Best(st, side))
  {
  }

  lemma RemoveQueue(cfg: Config, st: State, side: Side, ix: nat, k: nat, best: int)
    requires Shape(cfg, st) && ix < cfg.numLevels && QueueOk(st, ix) && k < |st.queues[ix]|
    ensures QueueOk(RemoveS(st, side, ix, k, best), ix)
  {
    hide UnlinkRecs, Without, RemoveS, NextLinked, NoDup;
    var q, st' := st.queues[ix], RemoveS(st, side, ix, k, best);
    RemoveShape(st, side, ix, k, best);
    ChainNoDup(st.recs, q, ix);
    UnlinkChain(st.recs, q, ix, k, HeadOf(st.free));
    UnlinkedRecs(st.recs, q, ix, k, HeadOf(st.free));
    hide Chain, InRange;
    forall j | 0 <= j < |q| ensures Get(st'.recs, q[j]).qty == Get(st.recs, q[j]).qty {
      SameButLinks(st'.recs, st.recs, q[j]);
    }
    SumWithout(st.recs, st'.recs, q, k);
  }

  lemma BothMarked(st: State, ix: nat, side: Side)
    requires |st.levels| == |st.queues| && ix < |st.queues|
    ensures EndsOk(st, ix) <==>
      && st.levels[ix].head == HeadOf(st.queues[ix]) && st.levels[ix].tail == LastOf(st.queues[ix])
      && (ix in Marked(st, side) <==> st.queues[ix] != [] && Get(st.recs, st.queues[ix][0]).side == side)
      && (ix in Marked(st, Opposite(side)) <==>
           st.queues[ix] != [] && Get(st.recs, st.queues[ix][0]).side == Opposite(side))
  {
  }

  lemma RemoveEnds(cfg: Config, st: State, s: nat, side: Side, ix: nat, k: nat, best: int)
    requires Shape(cfg, st) && PlacedAt(st, s, side, ix, k) && QueueOk(st, ix) && EndsOk(st, ix)
    ensures EndsOk(RemoveS(st, side, ix, k, best), ix)
  {
    hide UnlinkRecs, Without, RemoveS, Sum, EndsOk;
    var q, st' := st.queues[ix], RemoveS(st, side, ix, k, best);
    RemoveShape(st, side, ix, k, best);
    ChainNoDup(st.recs, q, ix);
    UnlinkedRecs(st.recs, q, ix, k, HeadOf(st.free));
    WithoutFacts(q, k);
    BothMarked(st, ix, side);
    BothMarked(st', ix, side);
    if st'.queues[ix] != [] {
      var t := st'.queues[ix][0];
      var j := if 0 < k then 0 else 1;
      assert t == q[j];
      QueueSlot(st.recs, q, ix, j);
      SameButLinks(st'.recs, st.recs, t);
    }
  }

  lemma RemoveBests(cfg: Config, st: State, s: nat, side: Side, ix: nat, k: nat, best: int)
    requires Shape(cfg, st) && BestsOk(st) && PlacedAt(st, s, side, ix, k)
    requires |st.queues[ix]| == 1 && ix == Best(st, side) ==> NewBest(st, side, ix, best)
    ensures BestsOk(RemoveS(st, side, ix, k, best))
  {
    hide UnlinkRecs, RemoveS;
    RemoveShape(st, side, ix, k, best);
    assert |Without(st.queues[ix], k)| == |st.queues[ix]| - 1;
  }

  lemma RemoveLevelOrders(cfg: Config, st: State, s: nat, side: Side, ix: nat, k: nat, best: int)
    requires Shape(cfg, st) && PlacedAt(st, s, side, ix, k) && QueueOk(st, ix)
    ensures var st' := RemoveS(st, side, ix, k, best);
      && k < |LevelOrders(cfg, st, side, ix)|
      && LevelOrders(cfg, st', side, ix) == RemoveAt(LevelOrders(cfg, st, side, ix), k)
      && LevelOrders(cfg, st', Opposite(side), ix) == LevelOrders(cfg, st, Opposite(side), ix)
  {
    hide UnlinkRecs, RemoveS, Sum, Chain, Without, Orders, RemoveAt;
    var q, st', price := st.queues[ix], RemoveS(st, side, ix, k, best), cfg.minPrice + ix;
    RemoveShape(st, side, ix, k, best);
    UnlinkOrders(st.recs, q, ix, k, HeadOf(st.free), price);
    assert Without(q, k) == [] ==> Orders(st'.recs, Without(q, k), price) == [];
  }

  lemma UnlinkOrders(recs: seq<Rec>, q: seq<nat>, i: int, k: nat, free: nat, price: int)
    requires Chain(recs, q, i) && k < |q| && |recs| < NIL
    ensures Orders(UnlinkRecs(recs, q, k, free), Without(q, k), price) == RemoveAt(Orders(recs, q, price), k)
  {
    hide UnlinkRecs, Without;
    ChainNoDup(recs, q, i);
    UnlinkedRecs(recs, q, i, k, free);
    hide Chain;
    WithoutFacts(q, k);
    var p, recs' := Without(q, k), UnlinkRecs(recs, q, k, free);
    var a, b := Orders(recs', p, price), RemoveAt(Orders(recs, q, price), k);
    forall j | 0 <= j < |p| ensures a[j] == b[j] {
      SameButLinks(recs', recs, p[j]);
    }
    assert a == b;
  }

  lemma RemoveAbs(cfg: Config, st: State, s: nat, side: Side, ix: nat, k: nat, best: int)
    requires Shape(cfg, st) && Others(cfg, st, -1) && PlacedAt(st, s, side, ix, k)
    ensures var b, p := Abs(cfg, st), Position(cfg, st, side, ix, k);
      && p < |Resting(b, side)|
      && Abs(cfg, RemoveS(st, side, ix, k, best)) == WithResting(b, side, RemoveAt(Resting(b, side), p))
  {
    hide Concat, OnlyAt, LevelOrders, Others, RemoveS, QueueOk, EndsOk, RemoveAt;
    var st', l := RemoveS(st, side, ix, k, best), LadderOf(cfg, st, side);
    OthersSplit(cfg, st, ix);
    RemoveOnlyAt(cfg, st, side, ix, k, best);
    RemoveLevelOrders(cfg, st, s, side, ix, k, best);
    LadderOnlyAt(cfg, st, st', side, ix);
    LadderUnchanged(cfg, st, st', Opposite(side), ix);
    RungPosition(l, RankAt(cfg, side, ix), k);
  }

  /** Taking an order out keeps the whole audit; in the book, exactly that order goes. */
  lemma RemoveOk(cfg: Config, st: State, s: nat, side: Side, ix: nat, k: nat, best: int)
    requires Inv(cfg, st) && PlacedAt(st, s, side, ix, k)
    requires |st.queues[ix]| == 1 && ix == Best(st, side) ==> NewBest(st, side, ix, best)
    ensures var b, p := Abs(cfg, st), Position(cfg, st, side, ix, k);
      && Inv(cfg, RemoveS(st, side, ix, k, best))
      && p < |Resting(b, side)|
      && Abs(cfg, RemoveS(st, side, ix, k, best)) == WithResting(b, side, RemoveAt(Resting(b, side), p))
  {
    hide Abs, BookOk, SlotsOk, IndexOk, BestsOk, OnlyAt, Others, Dropped, QueueOk, EndsOk, RemoveS, NewBest, Position,
         RemoveAt;
    var st' := RemoveS(st, side, ix, k, best);
    OthersSplit(cfg, st, ix);
    RemoveOnlyAt(cfg, st, side, ix, k, best);
    OthersKept(cfg, st, st', ix);
    RemoveShape(st, side, ix, k, best);
    RemoveQueue(cfg, st, side, ix, k, best);
    RemoveEnds(cfg, st, s, side, ix, k, best);
    OthersJoin(cfg, st', ix);
    RemoveDrops(cfg, st, side, ix, k, best);
    DroppedSlots(st, st', ix, s);
    DroppedIndex(st, st', ix, s);
    RemoveBests(cfg, st, s, side, ix, k, best);
    RemoveAbs(cfg, st, s, side, ix, k, best);
    RemovedOk(cfg, Abs(cfg, st), side, Position(cfg, st, side, ix, k));
    UnlinkedSize(st, side, ix, k, best);
  }

  lemma UnlinkedSize(st: State, side: Side, ix: nat, k: nat, best: int)
    requires ix < |st.levels| && ix < |st.queues| && k < |st.queues[ix]|
    ensures |RemoveS(st, side, ix, k, best).recs| == |st.recs|
  {
  }

  // ---- shrinking in place ----

  /** Shrinking an order in place keeps the whole audit, its place and everyone else's. */
  lemma ShrinkOk(cfg: Config, st: State, s: nat, side: Side, ix: nat, k: nat, qty: nat)
    requires Inv(cfg, st) && PlacedAt(st, s, side, ix, k) && 0 < qty <= st.recs[s].qty
    ensures var b, p := Abs(cfg, st), Position(cfg, st, side, ix, k);
      var q := Resting(b, side);
      && Inv(cfg, ResizeS(st, ix, s, qty))
      && p < |q| && Abs(cfg, ResizeS(st, ix, s, qty)) == WithResting(b, side, q[p := q[p].(qty := qty)])
  {
    hide BookOk, SlotsOk, IndexOk, OnlyAt, Others, QueueOk, EndsOk, Abs, Position;
    var st', p := ResizeS(st, ix, s, qty), Position(cfg, st, side, ix, k);
    OthersSplit(cfg, st, ix);
    ResizeFacts(cfg, st, ix, k, qty);
    ResizeQueue(st, ix, k, qty);
    OthersJoin(cfg, st', ix);
    AtPosition(cfg, st, s, side, ix, k);
    ShrinkAbs(cfg, st, s, side, ix, k, qty);
    ShrunkOk(cfg, Abs(cfg, st), side, p, qty);
  }

  lemma ShrinkAbs(cfg: Config, st: State, s: nat, side: Side, ix: nat, k: nat, qty: nat)
    requires Shape(cfg, st) && Others(cfg, st, -1) && SlotsOk(st) && IndexOk(st) && PlacedAt(st, s, side, ix, k)
    requires qty > 0
    ensures var b, p := Abs(cfg, st), Position(cfg, st, side, ix, k);
      var q := Resting(b, side);
      && p < |q| && Abs(cfg, ResizeS(st, ix, s, qty)) == WithResting(b, side, q[p := q[p].(qty := qty)])
  {
    hide Concat, OnlyAt, Others, QueueOk, EndsOk, SlotsOk, IndexOk, Orders;
    var st', l, r := ResizeS(st, ix, s, qty), LadderOf(cfg, st, side), RankAt(cfg, side, ix);
    OthersSplit(cfg, st, ix);
    ResizeFacts(cfg, st, ix, k, qty);
    LadderOnlyAt(cfg, st, st', side, ix);
    LadderUnchanged(cfg, st, st', Opposite(side), ix);
    RungPosition(l, r, k);
    RungUpdate(l, r, k, l[r][k].(qty := qty));
  }
}
