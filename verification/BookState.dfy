/** The optimised book's state as one value: levels, slots, links, marks, bests and index. Each in-place
    change the book makes is a function here, and what it keeps is a lemma. */
module BookStates {
  import opened Types
  import opened BookSpec
  import opened BookInvariant
  import opened Ladders
  import opened OrderStores
  import PriceBitmaps

  /** A price level: the total of its queue in a 64-bit word, and the ends of the queue. */
  datatype Level = Level(qty: nat, head: nat, tail: nat)

  /** `queues` (each level's slots, front first) and `free` are what the links mean. */
  datatype State = State(
    levels: seq<Level>, recs: seq<Rec>, queues: seq<seq<nat>>, free: seq<nat>,
    bids: set<int>, asks: set<int>, bestBid: int, bestAsk: int, index: map<nat, nat>)

  function Add64(x: int, y: int): nat {
    (x + y) % U64
  }

  function Sub64(x: int, y: int): nat {
    (x - y) % U64
  }

  function Get(recs: seq<Rec>, s: nat): Rec {
    if s < |recs| then recs[s] else BLANK
  }

  function Put(recs: seq<Rec>, s: nat, r: Rec): (out: seq<Rec>)
    ensures |out| == |recs|
  {
    if s < |recs| then recs[s := r] else recs
  }

  function QueueAt(st: State, i: int): seq<nat> {
    if 0 <= i < |st.queues| then st.queues[i] else []
  }

  function Marked(st: State, side: Side): set<int> {
    if side == Buy then st.bids else st.asks
  }

  function Best(st: State, side: Side): int {
    if side == Buy then st.bestBid else st.bestAsk
  }

  function Sum(recs: seq<Rec>, q: seq<nat>): nat {
    if q == [] then 0 else Get(recs, q[0]).qty + Sum(recs, q[1..])
  }

  /** The level index of a rank, best rank first. */
  function LevelAt(cfg: Config, side: Side, r: int): int {
    if side == Buy then cfg.numLevels - 1 - r else r
  }

  function ToOrder(r: Rec, price: int): Order {
    Order(r.id, r.qty, r.owner, price)
  }

  function Orders(recs: seq<Rec>, q: seq<nat>, price: int): (o: seq<Order>)
    ensures |o| == |q|
  {
    seq(|q|, k requires 0 <= k < |q| => ToOrder(Get(recs, q[k]), price))
  }

  /** What rests at level i on one side. */
  function LevelOrders(cfg: Config, st: State, side: Side, i: int): seq<Order> {
    if i in Marked(st, side) then Orders(st.recs, QueueAt(st, i), cfg.minPrice + i) else []
  }

  function LadderOf(cfg: Config, st: State, side: Side): (l: Ladder)
    ensures |l| == cfg.numLevels
    ensures forall r :: 0 <= r < |l| ==> l[r] == LevelOrders(cfg, st, side, LevelAt(cfg, side, r))
  {
    seq(cfg.numLevels, r => LevelOrders(cfg, st, side, LevelAt(cfg, side, r)))
  }

  /** The book this state stands for. */
  function Abs(cfg: Config, st: State): Book {
    Book(Concat(LadderOf(cfg, st, Buy)), Concat(LadderOf(cfg, st, Sell)))
  }

  lemma LadderPriced(cfg: Config, st: State, side: Side)
    ensures Priced(cfg, side, LadderOf(cfg, st, side))
  {
  }

  // The structural audit.

  /** Level i's queue: properly linked in both directions (a head's `prev` is never read), of one side,
      at this level, every order open. */
  ghost predicate Chain(recs: seq<Rec>, q: seq<nat>, i: int) {
    && NextLinked(recs, q) && NoDup(q)
    && (forall k :: 0 < k < |q| ==> recs[q[k]].prev == q[k - 1])
    && forall k :: 0 <= k < |q| ==> recs[q[k]].level == i && recs[q[k]].qty > 0 && recs[q[k]].side == recs[q[0]].side
  }

  ghost predicate QueueOk(st: State, i: int)
    requires 0 <= i < |st.queues| && |st.levels| == |st.queues|
  {
    Chain(st.recs, st.queues[i], i) && st.levels[i].qty == Sum(st.recs, st.queues[i]) % U64
  }

  /** The level's ends, and its two marks, agree with its queue. */
  ghost predicate EndsOk(st: State, i: int)
    requires 0 <= i < |st.queues| && |st.levels| == |st.queues|
  {
    var q := st.queues[i];
    && st.levels[i].head == HeadOf(q) && st.levels[i].tail == LastOf(q)
    && (i in st.bids <==> q != [] && Get(st.recs, q[0]).side == Buy)
    && (i in st.asks <==> q != [] && Get(st.recs, q[0]).side == Sell)
  }

  predicate Live(st: State, s: nat) {
    s < |st.recs| && s in QueueAt(st, st.recs[s].level)
  }

  /** Live and free slots partition the slab. */
  ghost predicate SlotsOk(st: State) {
    && NextLinked(st.recs, st.free) && NoDup(st.free)
    && forall s :: 0 <= s < |st.recs| ==> (s in st.free <==> !Live(st, s))
  }

  /** The index maps exactly the live ids, each to its slot. */
  ghost predicate IndexOk(st: State) {
    && (forall s: nat :: Live(st, s) ==> st.recs[s].id in st.index && st.index[st.recs[s].id] == s)
    && (forall id :: id in st.index ==> Live(st, st.index[id]) && st.recs[st.index[id]].id == id)
    && |st.index| + |st.free| == |st.recs|
  }

  ghost predicate BestsOk(st: State) {
    var n := |st.levels|;
    && PriceBitmaps.Within(st.bids, n) && PriceBitmaps.Within(st.asks, n)
    && PriceBitmaps.IsPrev(st.bids, n - 1, st.bestBid) && PriceBitmaps.IsNext(st.asks, n, 0, st.bestAsk)
  }

  ghost predicate Shape(cfg: Config, st: State) {
    && cfg.numLevels > 0 && |st.levels| == cfg.numLevels && |st.queues| == cfg.numLevels
    && |st.recs| == cfg.maxOrders < NIL
  }

  /** The levels other than ix (all of them for -1) pass the audit. */
  ghost predicate Others(cfg: Config, st: State, ix: int) {
    && Shape(cfg, st)
    && (forall i :: 0 <= i < |st.queues| && i != ix ==> QueueOk(st, i))
    && (forall i :: 0 <= i < |st.queues| && i != ix ==> EndsOk(st, i))
  }

  /** Everything the structural audit checks, and the soundness of the book it stands for. */
  ghost predicate Inv(cfg: Config, st: State) {
    && Shape(cfg, st) && Others(cfg, st, -1) && SlotsOk(st) && IndexOk(st) && BestsOk(st)
    && BookOk(cfg, Abs(cfg, st))
  }

  /** Level ix leads its side and carries no order of the other. */
  ghost predicate Leading(cfg: Config, st: State, side: Side, ix: int) {
    && Shape(cfg, st) && BestsOk(st)
    && 0 <= ix < |st.queues|
    && ix == Best(st, side) && ix in Marked(st, side) && ix !in Marked(st, Opposite(side))
  }

  /** The queue of the level being swept: linked, totalled, its tail still right while it has orders. */
  ghost predicate SweptQueue(st: State, side: Side, ix: int)
    requires 0 <= ix < |st.queues| && |st.levels| == |st.queues|
  {
    && QueueOk(st, ix)
    && (st.queues[ix] != [] ==>
         st.levels[ix].tail == LastOf(st.queues[ix]) && Get(st.recs, st.queues[ix][0]).side == side)
  }

  /** Mid-sweep at level ix: its head, tail and mark are left as they were, everything else is exact. */
  ghost predicate Sweeping(cfg: Config, st: State, side: Side, ix: int) {
    && Shape(cfg, st) && 0 <= ix < cfg.numLevels
    && Leading(cfg, st, side, ix) && Others(cfg, st, ix) && SweptQueue(st, side, ix)
    && SlotsOk(st) && IndexOk(st)
    && BookOk(cfg, Abs(cfg, st))
  }

  lemma OthersSplit(cfg: Config, st: State, ix: nat)
    requires Others(cfg, st, -1) && ix < |st.queues|
    ensures Others(cfg, st, ix) && QueueOk(st, ix) && EndsOk(st, ix)
  {
  }

  lemma OthersJoin(cfg: Config, st: State, ix: nat)
    requires Others(cfg, st, ix) && ix < |st.queues| && QueueOk(st, ix) && EndsOk(st, ix)
    ensures Others(cfg, st, -1)
  {
  }

  // Changes confined to one level.

  /** Away from level ix the two states show the same queues, slots and marks. */
  ghost predicate OnlyAt(st: State, st': State, ix: int) {
    && |st'.queues| == |st.queues| && |st'.levels| == |st.levels| && |st'.recs| == |st.recs|
    && (forall i :: i != ix ==> QueueAt(st', i) == QueueAt(st, i))
    && (forall i :: 0 <= i < |st.levels| && i != ix ==> st'.levels[i] == st.levels[i])
    && (forall i, k :: i != ix && 0 <= k < |QueueAt(st, i)| ==>
         Get(st'.recs, QueueAt(st, i)[k]) == Get(st.recs, QueueAt(st, i)[k]))
    && (forall i :: i != ix ==> (i in st'.bids <==> i in st.bids) && (i in st'.asks <==> i in st.asks))
  }

  lemma {:induction false} SumSame(recs: seq<Rec>, recs': seq<Rec>, q: seq<nat>)
    requires forall k :: 0 <= k < |q| ==> Get(recs', q[k]) == Get(recs, q[k])
    ensures Sum(recs', q) == Sum(recs, q)
  {
    if q != [] {
      SumSame(recs, recs', q[1..]);
    }
  }

  lemma ChainSame(recs: seq<Rec>, recs': seq<Rec>, q: seq<nat>, i: int)
    requires |recs'| == |recs| && Chain(recs, q, i)
    requires forall k :: 0 <= k < |q| ==> Get(recs', q[k]) == Get(recs, q[k])
    ensures Chain(recs', q, i)
  {
  }

  lemma ElsewhereQueueOk(st: State, st': State, ix: int, i: int)
    requires |st.levels| == |st.queues| && OnlyAt(st, st', ix) && 0 <= i < |st.queues| && i != ix && QueueOk(st, i)
    ensures QueueOk(st', i)
    ensures EndsOk(st, i) ==> EndsOk(st', i)
  {
    var q := st.queues[i];
    assert QueueAt(st', i) == QueueAt(st, i) == q;
    forall k | 0 <= k < |q| ensures Get(st'.recs, q[k]) == Get(st.recs, q[k]) {
      assert Get(st'.recs, QueueAt(st, i)[k]) == Get(st.recs, QueueAt(st, i)[k]);
    }
    ChainSame(st.recs, st'.recs, q, i);
    SumSame(st.recs, st'.recs, q);
  }

  lemma ElsewhereOrders(cfg: Config, st: State, st': State, ix: int, side: Side, i: int)
    requires OnlyAt(st, st', ix) && i != ix
    ensures LevelOrders(cfg, st', side, i) == LevelOrders(cfg, st, side, i)
  {
    var q := QueueAt(st, i);
    forall k | 0 <= k < |q| ensures Get(st'.recs, q[k]) == Get(st.recs, q[k]) {
    }
    assert Orders(st'.recs, q, cfg.minPrice + i) == Orders(st.recs, q, cfg.minPrice + i);
  }

  function RankAt(cfg: Config, side: Side, ix: int): int {
    if side == Buy then cfg.numLevels - 1 - ix else ix
  }

  /** The ladder changes at one rung only. */
  lemma LadderOnlyAt(cfg: Config, st: State, st': State, side: Side, ix: int)
    requires OnlyAt(st, st', ix) && 0 <= ix < cfg.numLevels
    ensures var r := RankAt(cfg, side, ix);
      LadderOf(cfg, st', side) == LadderOf(cfg, st, side)[r := LevelOrders(cfg, st', side, ix)]
  {
    var r := RankAt(cfg, side, ix);
    var l, l' := LadderOf(cfg, st, side), LadderOf(cfg, st', side);
    forall k | 0 <= k < |l| ensures l'[k] == l[r := LevelOrders(cfg, st', side, ix)][k] {
      if k != r {
        ElsewhereOrders(cfg, st, st', ix, side, LevelAt(cfg, side, k));
      }
    }
  }

  lemma LadderUnchanged(cfg: Config, st: State, st': State, side: Side, ix: int)
    requires OnlyAt(st, st', ix) && 0 <= ix < cfg.numLevels
    requires LevelOrders(cfg, st', side, ix) == LevelOrders(cfg, st, side, ix)
    ensures LadderOf(cfg, st', side) == LadderOf(cfg, st, side)
  {
    LadderOnlyAt(cfg, st, st', side, ix);
    var r, l := RankAt(cfg, side, ix), LadderOf(cfg, st, side);
    assert l[r := l[r]] == l;
  }

  /** A slot of one level's queue is in no other's. */
  lemma OneQueue(st: State, i: int, j: int, s: nat)
    requires |st.levels| == |st.queues| && 0 <= i < |st.queues| && QueueOk(st, i)
    requires s in st.queues[i] && 0 <= j < |st.queues| && QueueOk(st, j) && s in st.queues[j]
    ensures i == j
  {
    var a :| 0 <= a < |st.queues[i]| && st.queues[i][a] == s;
    var b :| 0 <= b < |st.queues[j]| && st.queues[j][b] == s;
    assert st.recs[st.queues[i][a]].level == i && st.recs[st.queues[j][b]].level == j;
  }

  lemma QueuedIsLive(st: State, i: int, k: nat)
    requires |st.levels| == |st.queues| && 0 <= i < |st.queues| && QueueOk(st, i) && k < |st.queues[i]|
    ensures Live(st, st.queues[i][k]) && st.recs[st.queues[i][k]].level == i
  {
    assert st.recs[st.queues[i][k]].level == i;
  }

  lemma OthersKept(cfg: Config, st: State, st': State, ix: int)
    requires Others(cfg, st, ix) && OnlyAt(st, st', ix)
    ensures Others(cfg, st', ix)
  {
    forall i | 0 <= i < |st'.queues| && i != ix ensures QueueOk(st', i) && EndsOk(st', i) {
      ElsewhereQueueOk(st, st', ix, i);
    }
  }

  // The head of a side.

  /** Nothing rests ahead of the cached best. */
  lemma AheadOfBest(cfg: Config, st: State, side: Side, k: nat)
    requires Shape(cfg, st) && BestsOk(st) && k < cfg.numLevels
    requires Best(st, side) in Marked(st, side) ==> k < RankAt(cfg, side, Best(st, side))
    ensures LadderOf(cfg, st, side)[k] == []
  {
    hide Orders, Concat;
    assert LevelAt(cfg, side, k) !in Marked(st, side);
  }

  /** A leading level's orders head its side's queue. */
  lemma LeadingHead(cfg: Config, st: State, side: Side, ix: nat)
    requires Leading(cfg, st, side, ix)
    ensures Resting(Abs(cfg, st), side) ==
      Orders(st.recs, QueueAt(st, ix), cfg.minPrice + ix) + Concat(LadderOf(cfg, st, side)[RankAt(cfg, side, ix) + 1..])
  {
    hide Orders, Concat, BestsOk;
    var l, r := LadderOf(cfg, st, side), RankAt(cfg, side, ix);
    forall k | 0 <= k < r ensures l[k] == [] {
      AheadOfBest(cfg, st, side, k);
    }
    FromRung(l, r);
  }

  lemma NoneLeads(cfg: Config, st: State, side: Side)
    requires Shape(cfg, st) && BestsOk(st) && Best(st, side) !in Marked(st, side)
    ensures Resting(Abs(cfg, st), side) == []
    ensures Best(st, side) == if side == Buy then -1 else cfg.numLevels
  {
    var l := LadderOf(cfg, st, side);
    forall k | 0 <= k < |l| ensures l[k] == [] {
      AheadOfBest(cfg, st, side, k);
    }
    ConcatEmpty(l);
  }

  // Taking the front order of a level off during a sweep.

  ghost function PopS(st: State, ix: nat): State
    requires ix < |st.queues| && ix < |st.levels| && st.queues[ix] != []
  {
    var q := st.queues[ix];
    var s := q[0];
    var r := Get(st.recs, s);
    st.(levels := st.levels[ix := st.levels[ix].(qty := Sub64(st.levels[ix].qty, r.qty))],
        recs := Put(st.recs, s, r.(next := HeadOf(st.free))),
        queues := st.queues[ix := q[1..]],
        free := [s] + st.free,
        index := st.index - {r.id})
  }

  /** From st to st', slot s leaves level ix's queue and joins the free list; ids and levels stay. */
  ghost predicate Dropped(st: State, st': State, ix: int, s: nat) {
    && s < |st.recs| == |st'.recs| && Live(st, s) && st.recs[s].level == ix
    && (forall t :: 0 <= t < |st.recs| ==> st'.recs[t].id == st.recs[t].id && st'.recs[t].level == st.recs[t].level)
    && (forall t :: t in QueueAt(st', ix) <==> t in QueueAt(st, ix) && t != s)
    && (forall i :: i != ix ==> QueueAt(st', i) == QueueAt(st, i))
    && st'.free == [s] + st.free && st'.recs[s].next == HeadOf(st.free)
    && (forall k :: 0 <= k < |st.free| && st.free[k] < |st.recs| ==>
         st'.recs[st.free[k]].next == st.recs[st.free[k]].next)
    && st'.index == st.index - {st.recs[s].id}
  }

  lemma DroppedLive(st: State, st': State, ix: int, s: nat, t: nat)
    requires Dropped(st, st', ix, s) && t < |st.recs|
    ensures Live(st', t) <==> Live(st, t) && t != s
  {
  }

  lemma DroppedSlots(st: State, st': State, ix: int, s: nat)
    requires Dropped(st, st', ix, s) && SlotsOk(st)
    ensures SlotsOk(st')
  {
    var f := st'.free;
    assert s !in st.free;
    forall k | 0 <= k < |f| - 1 ensures st'.recs[f[k]].next == f[k + 1] {
      if k > 0 {
        assert f[k] == st.free[k - 1] && f[k + 1] == st.free[k];
      }
    }
    forall t | 0 <= t < |st'.recs| ensures t in st'.free <==> !Live(st', t) {
      DroppedLive(st, st', ix, s, t);
    }
  }

  lemma DroppedIndex(st: State, st': State, ix: int, s: nat)
    requires Dropped(st, st', ix, s) && IndexOk(st)
    ensures IndexOk(st')
  {
    var gone := st.recs[s].id;
    forall t: nat | Live(st', t) ensures st'.recs[t].id in st'.index && st'.index[st'.recs[t].id] == t {
      DroppedLive(st, st', ix, s, t);
    }
    forall id | id in st'.index ensures Live(st', st'.index[id]) && st'.recs[st'.index[id]].id == id {
      DroppedLive(st, st', ix, s, st.index[id]);
    }
    assert st.index.Keys == st'.index.Keys + {gone};
    assert |st.index.Keys| == |st.index| && |st'.index.Keys| == |st'.index|;
  }

  lemma TailChain(recs: seq<Rec>, recs': seq<Rec>, q: seq<nat>, i: int)
    requires Chain(recs, q, i) && q != [] && |recs'| == |recs|
    requires forall t :: 0 <= t < |recs| && t != q[0] ==> recs'[t] == recs[t]
    ensures Chain(recs', q[1..], i)
    ensures Sum(recs, q) == recs[q[0]].qty + Sum(recs', q[1..])
    ensures forall price :: Orders(recs', q[1..], price) == Orders(recs, q, price)[1..]
  {
    var p := q[1..];
    assert forall k :: 0 <= k < |p| ==> p[k] == q[k + 1];
    SumSame(recs, recs', p);
    forall price ensures Orders(recs', p, price) == Orders(recs, q, price)[1..] {
    }
  }

  lemma PopDrops(st: State, ix: nat)
    requires |st.levels| == |st.queues| && ix < |st.queues| && QueueOk(st, ix) && st.queues[ix] != []
    requires SlotsOk(st)
    ensures Dropped(st, PopS(st, ix), ix, st.queues[ix][0])
  {
    var q, st' := st.queues[ix], PopS(st, ix);
    QueuedIsLive(st, ix, 0);
    assert QueueAt(st', ix) == q[1..];
    forall t ensures t in q[1..] <==> t in q && t != q[0] {
      if t in q && t != q[0] {
        var k :| 0 <= k < |q| && q[k] == t;
        assert q[1..][k - 1] == t;
      }
    }
    assert q[0] !in st.free;
  }

  lemma PopOnlyAt(cfg: Config, st: State, ix: nat)
    requires Others(cfg, st, ix) && ix < |st.queues| && QueueOk(st, ix) && st.queues[ix] != []
    ensures OnlyAt(st, PopS(st, ix), ix)
  {
    var s, st' := st.queues[ix][0], PopS(st, ix);
    forall i, k | i != ix && 0 <= k < |QueueAt(st, i)|
      ensures Get(st'.recs, QueueAt(st, i)[k]) == Get(st.recs, QueueAt(st, i)[k])
    {
      if QueueAt(st, i)[k] == s {
        OneQueue(st, ix, i, s);
      }
    }
  }
}
