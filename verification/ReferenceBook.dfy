/** The naive book: ordered maps of price to queue and an id index, changed in place by the most obvious
    transcription of the rules. Its operations are proved against the same specification. */
module ReferenceBooks {
  import opened Types
  import opened BookSpec
  import opened BookInvariant
  import opened Ladders
  import opened SweepLaws

  datatype Node = Node(id: nat, qty: nat, owner: nat)
  /** Where an order rests. */
  datatype Loc = Loc(side: Side, price: int)
  type Queues = map<int, seq<Node>>

  /** The fields of the book as one value. */
  datatype Ref = Ref(bids: Queues, asks: Queues, index: map<nat, Loc>)

  function QueuesOf(st: Ref, side: Side): Queues {
    if side == Buy then st.bids else st.asks
  }

  function WithQueues(st: Ref, side: Side, m: Queues): Ref {
    if side == Buy then st.(bids := m) else st.(asks := m)
  }

  function QueueOf(m: Queues, px: int): seq<Node> {
    if px in m then m[px] else []
  }

  function QueueAt(st: Ref, side: Side, px: int): seq<Node> {
    QueueOf(QueuesOf(st, side), px)
  }

  function Tag(q: seq<Node>, px: int): (o: seq<Order>)
    ensures |o| == |q|
  {
    seq(|q|, k requires 0 <= k < |q| => Order(q[k].id, q[k].qty, q[k].owner, px))
  }

  function Rungs(cfg: Config, side: Side, m: Queues): (l: Ladder)
    ensures |l| == cfg.numLevels
  {
    seq(cfg.numLevels, r => Tag(QueueOf(m, RankPrice(cfg, side, r)), RankPrice(cfg, side, r)))
  }

  /** The book this state stands for. */
  function RefAbs(cfg: Config, st: Ref): Book {
    Book(Concat(Rungs(cfg, Buy, st.bids)), Concat(Rungs(cfg, Sell, st.asks)))
  }

  /** The position of an id in a queue: what the source's list iterator stands for. */
  function NodeAt(q: seq<Node>, id: nat): (k: nat)
    ensures k <= |q| && (k < |q| ==> q[k].id == id)
    ensures forall j :: 0 <= j < k ==> q[j].id != id
  {
    if q == [] || q[0].id == id then 0 else 1 + NodeAt(q[1..], id)
  }

  ghost predicate NodesUnique(q: seq<Node>) {
    forall i, j :: 0 <= i < j < |q| ==> q[i].id != q[j].id
  }

  ghost predicate QueueIndexed(q: seq<Node>, index: map<nat, Loc>, side: Side, px: int) {
    NodesUnique(q) && forall k :: 0 <= k < |q| ==> q[k].id in index && index[q[k].id] == Loc(side, px)
  }

  ghost predicate HasNode(q: seq<Node>, id: nat) {
    NodeAt(q, id) < |q|
  }

  /** The index holds exactly the resting ids, each with its side and price. */
  ghost predicate IndexExact(st: Ref) {
    && (forall id :: id in st.index ==> HasNode(QueueAt(st, st.index[id].side, st.index[id].price), id))
    && (forall side, px :: QueueIndexed(QueueAt(st, side, px), st.index, side, px))
  }

  /** Prices are in the band, and no price is kept without orders (but px, if any). */
  ghost predicate KeysOk(cfg: Config, m: Queues, px: Option<int>) {
    forall p :: p in m ==> InBand(cfg, p) && (px != Some(p) ==> m[p] != [])
  }

  ghost predicate RefInv(cfg: Config, st: Ref) {
    KeysOk(cfg, st.bids, None) && KeysOk(cfg, st.asks, None) && IndexExact(st) && BookOk(cfg, RefAbs(cfg, st))
  }

  ghost predicate IsBest(m: Queues, side: Side, px: int) {
    px in m && forall p :: p in m ==> !Better(side, p, px)
  }

  /** While level px of a side is being matched its queue may already be empty. */
  ghost predicate Matching(cfg: Config, st: Ref, side: Side, px: int) {
    && KeysOk(cfg, QueuesOf(st, side), Some(px)) && KeysOk(cfg, QueuesOf(st, Opposite(side)), None)
    && IsBest(QueuesOf(st, side), side, px)
    && IndexExact(st) && BookOk(cfg, RefAbs(cfg, st))
  }

  // ---- ladders and queues ----

  lemma RungsPriced(cfg: Config, side: Side, m: Queues)
    ensures Priced(cfg, side, Rungs(cfg, side, m))
  {
  }

  lemma RungAt(cfg: Config, side: Side, m: Queues, px: int)
    requires InBand(cfg, px)
    ensures 0 <= RankOf(cfg, side, px) < cfg.numLevels
    ensures Rungs(cfg, side, m)[RankOf(cfg, side, px)] == Tag(QueueOf(m, px), px)
  {
    assert RankPrice(cfg, side, RankOf(cfg, side, px)) == px;
  }

  lemma RungsUpdate(cfg: Config, side: Side, m: Queues, px: int, q: seq<Node>)
    requires InBand(cfg, px)
    ensures 0 <= RankOf(cfg, side, px) < cfg.numLevels
    ensures Rungs(cfg, side, m[px := q]) == Rungs(cfg, side, m)[RankOf(cfg, side, px) := Tag(q, px)]
  {
    hide Tag;
    var l, l', r := Rungs(cfg, side, m), Rungs(cfg, side, m[px := q]), RankOf(cfg, side, px);
    forall k | 0 <= k < |l| ensures l'[k] == l[r := Tag(q, px)][k] {
      assert k != r ==> RankPrice(cfg, side, k) != px;
    }
  }

  /** Forgetting an empty queue changes nothing. */
  lemma RungsErase(cfg: Config, side: Side, m: Queues, px: int)
    requires QueueOf(m, px) == []
    ensures Rungs(cfg, side, m - {px}) == Rungs(cfg, side, m)
    ensures forall p :: QueueOf(m - {px}, p) == QueueOf(m, p)
  {
    hide Tag;
    var l, l' := Rungs(cfg, side, m), Rungs(cfg, side, m - {px});
    forall k | 0 <= k < |l| ensures l'[k] == l[k] {
    }
  }

  /** The best price's queue heads its side. */
  lemma BestHeads(cfg: Config, m: Queues, side: Side, px: int, exempt: Option<int>)
    requires KeysOk(cfg, m, exempt) && IsBest(m, side, px)
    ensures var l, r := Rungs(cfg, side, m), RankOf(cfg, side, px);
      0 <= r < |l| && Concat(l) == Tag(m[px], px) + Concat(l[r + 1..])
  {
    hide Tag;
    var l, r := Rungs(cfg, side, m), RankOf(cfg, side, px);
    RungAt(cfg, side, m, px);
    forall k | 0 <= k < r ensures l[k] == [] {
      assert RankPrice(cfg, side, k) !in m by {
        assert Better(side, RankPrice(cfg, side, k), px);
      }
    }
    FromRung(l, r);
  }

  lemma NoQueues(cfg: Config, side: Side, m: Queues)
    requires m == map[]
    ensures Concat(Rungs(cfg, side, m)) == []
  {
    ConcatEmpty(Rungs(cfg, side, m));
  }

  lemma TagTail(q: seq<Node>, px: int)
    requires q != []
    ensures Tag(q, px) == [Order(q[0].id, q[0].qty, q[0].owner, px)] + Tag(q[1..], px)
  {
  }

  // ---- the index ----

  /** The ids the index holds are the ids in the book. */
  lemma RefIndexed(cfg: Config, st: Ref, id: nat)
    requires RefInv(cfg, st)
    ensures id in st.index <==> Contains(RefAbs(cfg, st), id)
  {
    hide BookOk, Concat;
    if id in st.index {
      var loc := st.index[id];
      var m := QueuesOf(st, loc.side);
      var k := NodeAt(QueueOf(m, loc.price), id);
      RungAt(cfg, loc.side, m, loc.price);
      var l, r := Rungs(cfg, loc.side, m), RankOf(cfg, loc.side, loc.price);
      var o: Order := l[r][k];
      assert o.id == id;
      ConcatHas(l, id);
    }
    forall side: Side | HasId(Resting(RefAbs(cfg, st), side), id) ensures id in st.index {
      var l := Rungs(cfg, side, QueuesOf(st, side));
      ConcatHas(l, id);
      var r :| 0 <= r < |l| && HasId(l[r], id);
      var k :| 0 <= k < |l[r]| && l[r][k].id == id;
      assert QueueIndexed(QueueAt(st, side, RankPrice(cfg, side, r)), st.index, side, RankPrice(cfg, side, r));
      assert QueueAt(st, side, RankPrice(cfg, side, r))[k].id == id;
    }
    assert HasId(RefAbs(cfg, st).bids, id) ==> HasId(Resting(RefAbs(cfg, st), Buy), id);
    assert HasId(RefAbs(cfg, st).asks, id) ==> HasId(Resting(RefAbs(cfg, st), Sell), id);
  }

  lemma RefCount(cfg: Config, st: Ref)
    requires RefInv(cfg, st)
    ensures |RefAbs(cfg, st).bids| + |RefAbs(cfg, st).asks| == |st.index|
  {
    hide RefAbs, IndexExact;
    forall id ensures Contains(RefAbs(cfg, st), id) <==> id in st.index.Keys {
      RefIndexed(cfg, st, id);
    }
    CountIds(RefAbs(cfg, st), st.index.Keys);
    assert |st.index.Keys| == |st.index|;
  }

  /** The position in the book of the k-th order at a price. */
  ghost function PositionOf(cfg: Config, side: Side, m: Queues, px: int, k: nat): nat {
    if InBand(cfg, px) then |Concat(Rungs(cfg, side, m)[..RankOf(cfg, side, px)])| + k else 0
  }

  /** Where an indexed order is, in its queue and in the book. */
  lemma RefFound(cfg: Config, st: Ref, id: nat)
    requires RefInv(cfg, st) && id in st.index
    ensures var loc, b := st.index[id], RefAbs(cfg, st);
      var m, q := QueuesOf(st, loc.side), Resting(b, loc.side);
      && loc.price in m && InBand(cfg, loc.price)
      && var k := NodeAt(m[loc.price], id);
      var p := PositionOf(cfg, loc.side, m, loc.price, k);
      && k < |m[loc.price]| && p < |q|
      && q[p] == Order(id, m[loc.price][k].qty, m[loc.price][k].owner, loc.price)
      && Contains(b, id) && SideOf(b, id) == loc.side && Find(q, id) == p
  {
    hide Concat, Find, RemoveAt;
    var loc, b := st.index[id], RefAbs(cfg, st);
    var m, q := QueuesOf(st, loc.side), Resting(b, loc.side);
    var k := NodeAt(m[loc.price], id);
    RungAt(cfg, loc.side, m, loc.price);
    RungPosition(Rungs(cfg, loc.side, m), RankOf(cfg, loc.side, loc.price), k);
    FindIs(q, PositionOf(cfg, loc.side, m, loc.price, k));
    IdsByDisjoint(b.bids, b.asks);
  }

  lemma RungsDrop(cfg: Config, side: Side, m: Queues, px: int, k: nat)
    requires px in m && InBand(cfg, px) && k < |m[px]|
    ensures var q, p := Concat(Rungs(cfg, side, m)), PositionOf(cfg, side, m, px, k);
      p < |q| && RemoveAt(q, p) == Concat(Rungs(cfg, side, m[px := DropAt(m[px], k)]))
  {
    hide Concat, RemoveAt, Tag;
    RungAt(cfg, side, m, px);
    RungPosition(Rungs(cfg, side, m), RankOf(cfg, side, px), k);
    DropTagged(m[px], k, px);
    RungsUpdate(cfg, side, m, px, DropAt(m[px], k));
  }

  lemma RungsShrink(cfg: Config, side: Side, m: Queues, px: int, k: nat, qty: nat)
    requires px in m && InBand(cfg, px) && k < |m[px]|
    ensures var q, p := Concat(Rungs(cfg, side, m)), PositionOf(cfg, side, m, px, k);
      p < |q| && q[p := q[p].(qty := qty)] == Concat(Rungs(cfg, side, m[px := m[px][k := m[px][k].(qty := qty)]]))
  {
    hide Concat;
    var l, r, q' := Rungs(cfg, side, m), RankOf(cfg, side, px), m[px][k := m[px][k].(qty := qty)];
    RungAt(cfg, side, m, px);
    RungPosition(l, r, k);
    RungUpdate(l, r, k, l[r][k].(qty := qty));
    assert Tag(q', px) == l[r][k := l[r][k].(qty := qty)];
    RungsUpdate(cfg, side, m, px, q');
  }

  function DropAt(q: seq<Node>, k: nat): seq<Node>
    requires k < |q|
  {
    q[..k] + q[k + 1..]
  }

  lemma DropTagged(q: seq<Node>, k: nat, px: int)
    requires k < |q|
    ensures Tag(DropAt(q, k), px) == RemoveAt(Tag(q, px), k)
  {
  }

  // ---- how each change keeps the index exact ----

  lemma NodeFound(q: seq<Node>, k: nat)
    requires k < |q|
    ensures HasNode(q, q[k].id)
  {
  }

  /** A change of one queue, with the index following it, keeps the index exact. */
  lemma OneQueueIndex(st: Ref, st': Ref, side: Side, px: int)
    requires IndexExact(st)
    requires forall s, p :: (s, p) != (side, px) ==> QueueAt(st', s, p) == QueueAt(st, s, p)
    requires QueueIndexed(QueueAt(st', side, px), st'.index, side, px)
    requires forall id :: (id in st'.index && st'.index[id] != Loc(side, px)) <==>
        (id in st.index && st.index[id] != Loc(side, px))
    requires forall id :: id in st'.index && id in st.index ==> st'.index[id] == st.index[id]
    requires forall id :: id in st'.index && st'.index[id] == Loc(side, px) ==> HasNode(QueueAt(st', side, px), id)
    ensures IndexExact(st')
  {
    hide HasNode, QueueAt, NodesUnique;
    forall s, p ensures QueueIndexed(QueueAt(st', s, p), st'.index, s, p) {
      if (s, p) != (side, px) {
        assert QueueIndexed(QueueAt(st, s, p), st.index, s, p);
        OtherQueueIndexed(QueueAt(st, s, p), st.index, st'.index, s, p, side, px);
      }
    }
  }

  lemma OtherQueueIndexed(q: seq<Node>, index: map<nat, Loc>, index': map<nat, Loc>, s: Side, p: int, side: Side,
                          px: int)
    requires QueueIndexed(q, index, s, p) && (s, p) != (side, px)
    requires forall id :: (id in index' && index'[id] != Loc(side, px)) <==> (id in index && index[id] != Loc(side, px))
    requires forall id :: id in index' && id in index ==> index'[id] == index[id]
    ensures QueueIndexed(q, index', s, p)
  {
  }

  lemma DropIndex(st: Ref, st': Ref, side: Side, px: int, k: nat)
    requires IndexExact(st) && k < |QueueAt(st, side, px)|
    requires st' == WithQueues(st, side, QueuesOf(st, side)[px := DropAt(QueueAt(st, side, px), k)])
                      .(index := st.index - {QueueAt(st, side, px)[k].id})
    ensures IndexExact(st')
  {
    hide HasNode;
    var q := QueueAt(st, side, px);
    var q' := DropAt(q, k);
    assert QueueIndexed(q, st.index, side, px);
    DropQueue(q, k, st.index, side, px);
    forall id | id in st'.index && st'.index[id] == Loc(side, px) ensures HasNode(q', id) {
      DropFound(q, k, id);
    }
    OneQueueIndex(st, st', side, px);
  }

  lemma DropQueue(q: seq<Node>, k: nat, index: map<nat, Loc>, side: Side, px: int)
    requires k < |q| && QueueIndexed(q, index, side, px)
    ensures QueueIndexed(DropAt(q, k), index - {q[k].id}, side, px)
  {
    var q' := DropAt(q, k);
    assert forall j :: 0 <= j < |q'| ==> q'[j] == if j < k then q[j] else q[j + 1];
  }

  lemma DropFound(q: seq<Node>, k: nat, id: nat)
    requires k < |q| && HasNode(q, id) && id != q[k].id
    ensures HasNode(DropAt(q, k), id)
  {
    var j := NodeAt(q, id);
    NodeFound(DropAt(q, k), if j < k then j else j - 1);
  }

  lemma ShrinkIndex(st: Ref, st': Ref, side: Side, px: int, k: nat, qty: nat)
    requires IndexExact(st) && k < |QueueAt(st, side, px)|
    requires var q := QueueAt(st, side, px);
      st' == WithQueues(st, side, QueuesOf(st, side)[px := q[k := q[k].(qty := qty)]])
    ensures IndexExact(st')
  {
    hide HasNode;
    var q := QueueAt(st, side, px);
    var q' := q[k := q[k].(qty := qty)];
    assert QueueIndexed(q, st.index, side, px);
    assert forall j :: 0 <= j < |q'| ==> q'[j].id == q[j].id;
    forall id | id in st'.index && st'.index[id] == Loc(side, px) ensures HasNode(q', id) {
      ShrinkFound(q, k, qty, id);
    }
    OneQueueIndex(st, st', side, px);
  }

  lemma ShrinkFound(q: seq<Node>, k: nat, qty: nat, id: nat)
    requires k < |q| && HasNode(q, id)
    ensures HasNode(q[k := q[k].(qty := qty)], id)
  {
    NodeFound(q[k := q[k].(qty := qty)], NodeAt(q, id));
  }

  lemma AppendIndex(st: Ref, st': Ref, side: Side, px: int, n: Node)
    requires IndexExact(st) && n.id !in st.index
    requires var queues := QueuesOf(st, side)[px := QueueAt(st, side, px) + [n]];
      st' == WithQueues(st, side, queues).(index := st.index[n.id := Loc(side, px)])
    ensures IndexExact(st')
  {
    hide HasNode;
    var q := QueueAt(st, side, px);
    var q' := q + [n];
    assert QueueIndexed(q, st.index, side, px);
    forall id | id in st'.index && st'.index[id] == Loc(side, px) ensures HasNode(q', id) {
      AppendFound(q, n, id);
    }
    OneQueueIndex(st, st', side, px);
  }

  lemma AppendFound(q: seq<Node>, n: Node, id: nat)
    requires HasNode(q, id) || id == n.id
    ensures HasNode(q + [n], id)
  {
    if id == n.id {
      NodeFound(q + [n], |q|);
    } else {
      assert (q + [n])[NodeAt(q, id)].id == id;
      NodeFound(q + [n], NodeAt(q, id));
    }
  }

  /** The index only sees the queues. */
  lemma SameQueuesIndex(st: Ref, st': Ref)
    requires IndexExact(st) && st'.index == st.index
    requires forall side, px :: QueueAt(st', side, px) == QueueAt(st, side, px)
    ensures IndexExact(st')
  {
  }

  // ---- the front of the level being matched ----

  /** Replacing the queue of the level being matched shows only at the front of its side. */
  lemma MatchedAbs(cfg: Config, st: Ref, side: Side, px: int, q: seq<Node>, index: map<nat, Loc>)
    requires Matching(cfg, st, side, px)
    ensures var st' := WithQueues(st, side, QueuesOf(st, side)[px := q]).(index := index);
      exists tail :: Resting(RefAbs(cfg, st), side) == Tag(QueueAt(st, side, px), px) + tail
        && RefAbs(cfg, st') == WithResting(RefAbs(cfg, st), side, Tag(q, px) + tail)
  {
    hide Concat, Tag, Rungs, BookOk;
    var m := QueuesOf(st, side);
    BestHeads(cfg, m, side, px, Some(px));
    BestHeads(cfg, m[px := q], side, px, Some(px));
    RungsUpdate(cfg, side, m, px, q);
    var r := RankOf(cfg, side, px);
    assert Rungs(cfg, side, m[px := q])[r + 1..] == Rungs(cfg, side, m)[r + 1..];
    var tail := Concat(Rungs(cfg, side, m)[r + 1..]);
    assert Resting(RefAbs(cfg, st), side) == Tag(m[px], px) + tail;
  }

  lemma PopFront(cfg: Config, st: Ref, side: Side, px: int)
    requires Matching(cfg, st, side, px) && QueueAt(st, side, px) != []
    ensures var q, b := QueueAt(st, side, px), RefAbs(cfg, st);
      var st' := WithQueues(st, side, QueuesOf(st, side)[px := q[1..]]).(index := st.index - {q[0].id});
      && Resting(b, side) != [] && Resting(b, side)[0] == Order(q[0].id, q[0].qty, q[0].owner, px)
      && RefAbs(cfg, st') == WithResting(b, side, Resting(b, side)[1..])
      && Matching(cfg, st', side, px)
  {
    hide RefAbs, BookOk, IndexExact, Tag;
    var q, b := QueueAt(st, side, px), RefAbs(cfg, st);
    var st' := WithQueues(st, side, QueuesOf(st, side)[px := q[1..]]).(index := st.index - {q[0].id});
    MatchedAbs(cfg, st, side, px, q[1..], st'.index);
    TagTail(q, px);
    var tail :|
      Resting(b, side) == Tag(q, px) + tail && RefAbs(cfg, st') == WithResting(b, side, Tag(q[1..], px) + tail);
    assert Resting(b, side)[1..] == Tag(q[1..], px) + tail;
    assert q[1..] == DropAt(q, 0);
    DropIndex(st, st', side, px, 0);
    FrontGone(cfg, b, side);
  }

  lemma FrontGone(cfg: Config, b: Book, side: Side)
    requires BookOk(cfg, b) && Resting(b, side) != []
    ensures BookOk(cfg, WithResting(b, side, Resting(b, side)[1..]))
  {
    hide Consumed;
    assert Consumed(Resting(b, side), Resting(b, side)[1..]) by {
      HeadConsumed(Resting(b, side));
    }
    ConsumedBookOk(cfg, b, side, Resting(b, side)[1..]);
  }

  lemma ShrinkFront(cfg: Config, st: Ref, side: Side, px: int, qty: nat)
    requires Matching(cfg, st, side, px) && QueueAt(st, side, px) != [] && 0 < qty <= QueueAt(st, side, px)[0].qty
    ensures var q, b := QueueAt(st, side, px), RefAbs(cfg, st);
      var st' := WithQueues(st, side, QueuesOf(st, side)[px := q[0 := q[0].(qty := qty)]]);
      && Resting(b, side) != [] && Resting(b, side)[0] == Order(q[0].id, q[0].qty, q[0].owner, px)
      && RefAbs(cfg, st') == WithResting(b, side, [Resting(b, side)[0].(qty := qty)] + Resting(b, side)[1..])
      && Matching(cfg, st', side, px)
  {
    hide RefAbs, BookOk, IndexExact, Tag;
    var q, b := QueueAt(st, side, px), RefAbs(cfg, st);
    var q' := q[0 := q[0].(qty := qty)];
    var st' := WithQueues(st, side, QueuesOf(st, side)[px := q']);
    MatchedAbs(cfg, st, side, px, q', st.index);
    TagTail(q, px);
    TagTail(q', px);
    assert q'[1..] == q[1..];
    assert st' == st'.(index := st.index);
    var tail :| Resting(b, side) == Tag(q, px) + tail && RefAbs(cfg, st') == WithResting(b, side, Tag(q', px) + tail);
    var o := Resting(b, side);
    assert [o[0].(qty := qty)] + o[1..] == Tag(q', px) + tail;
    assert o[0 := o[0].(qty := qty)] == [o[0].(qty := qty)] + o[1..];
    ShrinkIndex(st, st', side, px, 0, qty);
    ShrunkOk(cfg, b, side, 0, qty);
  }

  /** Leaving a level: an emptied queue is forgotten. */
  lemma LeaveLevel(cfg: Config, st: Ref, side: Side, px: int)
    requires Matching(cfg, st, side, px)
    ensures QueueAt(st, side, px) != [] ==> RefInv(cfg, st)
    ensures QueueAt(st, side, px) == [] ==>
      var st' := WithQueues(st, side, QueuesOf(st, side) - {px});
      RefInv(cfg, st') && RefAbs(cfg, st') == RefAbs(cfg, st)
  {
    hide BookOk, Concat, Tag, Rungs;
    if QueueAt(st, side, px) == [] {
      RungsErase(cfg, side, QueuesOf(st, side), px);
      SameQueuesIndex(st, WithQueues(st, side, QueuesOf(st, side) - {px}));
    }
  }

  // ---- resting, removing, shrinking ----

  lemma AppendOk(cfg: Config, st: Ref, side: Side, o: Order)
    requires RefInv(cfg, st) && InBand(cfg, o.price) && o.id !in st.index
    requires var b := RefAbs(cfg, st); BookOk(cfg, WithResting(b, side, Insert(Resting(b, side), side, o)))
    ensures var b, m := RefAbs(cfg, st), QueuesOf(st, side);
      var st' := WithQueues(st, side, m[o.price := QueueOf(m, o.price) + [Node(o.id, o.qty, o.owner)]])
                   .(index := st.index[o.id := Loc(side, o.price)]);
      RefInv(cfg, st') && RefAbs(cfg, st') == WithResting(b, side, Insert(Resting(b, side), side, o))
  {
    hide BookOk, Concat, Insert, IndexExact;
    var m := QueuesOf(st, side);
    var n := Node(o.id, o.qty, o.owner);
    var q' := QueueOf(m, o.price) + [n];
    var l := Rungs(cfg, side, m);
    RungsUpdate(cfg, side, m, o.price, q');
    RungAt(cfg, side, m, o.price);
    RungsPriced(cfg, side, m);
    InsertRung(cfg, side, l, o);
    assert Tag(q', o.price) == l[RankOf(cfg, side, o.price)] + [o];
    AppendIndex(st, WithQueues(st, side, m[o.price := q']).(index := st.index[o.id := Loc(side, o.price)]), side,
                o.price, n);
  }

  /** Erases the k-th order of a price, and the price if it was the last. */
  function Dropped(m: Queues, px: int, k: nat): Queues
    requires px in m && k < |m[px]|
  {
    if |m[px]| == 1 then m - {px} else m[px := DropAt(m[px], k)]
  }

  lemma DropOk(cfg: Config, st: Ref, id: nat)
    requires RefInv(cfg, st) && id in st.index
    ensures var loc, b := st.index[id], RefAbs(cfg, st);
      var m, q := QueuesOf(st, loc.side), Resting(b, loc.side);
      && loc.price in m && NodeAt(m[loc.price], id) < |m[loc.price]|
      && Find(q, id) < |q|
      && var queues := Dropped(m, loc.price, NodeAt(m[loc.price], id));
         var st' := WithQueues(st, loc.side, queues).(index := st.index - {id});
      && RefInv(cfg, st') && RefAbs(cfg, st') == WithResting(b, loc.side, RemoveAt(q, Find(q, id)))
  {
    hide BookOk, Concat, IndexExact, Rungs, RemoveAt, Find;
    var loc, b := st.index[id], RefAbs(cfg, st);
    var m := QueuesOf(st, loc.side);
    RefFound(cfg, st, id);
    var k := NodeAt(m[loc.price], id);
    var p := PositionOf(cfg, loc.side, m, loc.price, k);
    RungsDrop(cfg, loc.side, m, loc.price, k);
    var m1 := m[loc.price := DropAt(m[loc.price], k)];
    var st1 := WithQueues(st, loc.side, m1).(index := st.index - {id});
    DropIndex(st, st1, loc.side, loc.price, k);
    RemovedOk(cfg, b, loc.side, p);
    if |m[loc.price]| == 1 {
      RungsErase(cfg, loc.side, m1, loc.price);
      assert m1 - {loc.price} == m - {loc.price};
      SameQueuesIndex(st1, WithQueues(st1, loc.side, m1 - {loc.price}));
    }
  }

  lemma ShrinkPlaceOk(cfg: Config, st: Ref, id: nat, qty: nat)
    requires RefInv(cfg, st) && id in st.index
    requires var q := QueueAt(st, st.index[id].side, st.index[id].price);
      NodeAt(q, id) < |q| && 0 < qty <= q[NodeAt(q, id)].qty
    ensures var loc, b := st.index[id], RefAbs(cfg, st);
      var m, q := QueuesOf(st, loc.side), Resting(b, loc.side);
      && loc.price in m && NodeAt(m[loc.price], id) < |m[loc.price]| && Find(q, id) < |q|
      && var k, p := NodeAt(m[loc.price], id), Find(q, id);
      var st' := WithQueues(st, loc.side, m[loc.price := m[loc.price][k := m[loc.price][k].(qty := qty)]]);
      RefInv(cfg, st') && RefAbs(cfg, st') == WithResting(b, loc.side, q[p := q[p].(qty := qty)])
  {
    hide BookOk, Concat, IndexExact, Rungs, RemoveAt, Find;
    var loc, b := st.index[id], RefAbs(cfg, st);
    var m := QueuesOf(st, loc.side);
    RefFound(cfg, st, id);
    var k := NodeAt(m[loc.price], id);
    var p := PositionOf(cfg, loc.side, m, loc.price, k);
    RungsShrink(cfg, loc.side, m, loc.price, k, qty);
    var st' := WithQueues(st, loc.side, m[loc.price := m[loc.price][k := m[loc.price][k].(qty := qty)]]);
    ShrinkIndex(st, st', loc.side, loc.price, k, qty);
    ShrunkOk(cfg, b, loc.side, p, qty);
  }

  // ---- walking the prices in order ----

  ghost predicate IsFirst(keys: set<int>, side: Side, px: int) {
    px in keys && forall p :: p in keys ==> !Better(side, p, px)
  }

  lemma SomeIn(keys: set<int>)
    requires keys != {}
    ensures exists p :: p in keys
  {
    if forall p :: p !in keys {
      assert false;
    }
  }

  /** A non-empty set of prices has a best one. */
  lemma {:induction false} BestExists(keys: set<int>, side: Side)
    requires keys != {}
    ensures exists px :: IsFirst(keys, side, px)
    decreases |keys|
  {
    SomeIn(keys);
    var x :| x in keys;
    var rest := keys - {x};
    if forall p :: p !in rest {
      assert IsFirst(keys, side, x) by {
        assert forall p :: p in keys ==> p == x || p in rest;
      }
    } else {
      BestExists(rest, side);
      var y :| IsFirst(rest, side, y);
      var z := if Better(side, x, y) then x else y;
      forall p | p in keys ensures !Better(side, p, z) {
        assert p == x || p in rest;
      }
      assert IsFirst(keys, side, z);
    }
  }

  /** The prices of rank r and worse. */
  ghost function KeysFrom(cfg: Config, side: Side, m: Queues, r: int): set<int> {
    set p | p in m.Keys && RankOf(cfg, side, p) >= r
  }

  /** What rests from rank r on starts with the best price not yet walked. */
  lemma WalkBest(cfg: Config, side: Side, m: Queues, r: nat, px: int)
    requires KeysOk(cfg, m, None) && px in KeysFrom(cfg, side, m, r)
    requires forall p :: p in KeysFrom(cfg, side, m, r) ==> !Better(side, p, px)
    ensures var l, k := Rungs(cfg, side, m), RankOf(cfg, side, px);
      && r <= k < |l| && Concat(l[r..]) == Tag(m[px], px) + Concat(l[k + 1..])
      && KeysFrom(cfg, side, m, r) - {px} == KeysFrom(cfg, side, m, k + 1)
  {
    hide Tag, KeysFrom;
    var l, k := Rungs(cfg, side, m), RankOf(cfg, side, px);
    assert px in m && r <= k by { KeyFrom(cfg, side, m, r, px); }
    RungAt(cfg, side, m, px);
    var z := l[r..];
    forall j | 0 <= j < k - r ensures z[j] == [] {
      assert z[j] == l[r + j];
      KeyFrom(cfg, side, m, r, RankPrice(cfg, side, r + j));
    }
    FromRung(z, k - r);
    assert z[k - r + 1..] == l[k + 1..];
    KeysAfter(cfg, side, m, r, px);
  }

  lemma KeyFrom(cfg: Config, side: Side, m: Queues, r: int, px: int)
    ensures px in KeysFrom(cfg, side, m, r) <==> px in m && RankOf(cfg, side, px) >= r
  {
  }

  lemma KeysAfter(cfg: Config, side: Side, m: Queues, r: nat, px: int)
    requires px in KeysFrom(cfg, side, m, r)
    requires forall p :: p in KeysFrom(cfg, side, m, r) ==> !Better(side, p, px)
    ensures KeysFrom(cfg, side, m, r) - {px} == KeysFrom(cfg, side, m, RankOf(cfg, side, px) + 1)
  {
    forall p ensures p in KeysFrom(cfg, side, m, r) - {px} <==> p in KeysFrom(cfg, side, m, RankOf(cfg, side, px) + 1) {
      assert p in KeysFrom(cfg, side, m, r) ==> !Better(side, p, px);
    }
  }

  lemma WalkDone(cfg: Config, side: Side, m: Queues, r: nat)
    requires KeysOk(cfg, m, None) && KeysFrom(cfg, side, m, r) == {} && r <= cfg.numLevels
    ensures Concat(Rungs(cfg, side, m)[r..]) == []
  {
    var l := Rungs(cfg, side, m);
    forall j | 0 <= j < |l[r..]| ensures l[r..][j] == [] {
      assert l[r..][j] == l[r + j];
      assert RankPrice(cfg, side, r + j) !in KeysFrom(cfg, side, m, r);
      assert RankOf(cfg, side, RankPrice(cfg, side, r + j)) == r + j;
    }
    ConcatEmpty(l[r..]);
  }

  lemma AllKeys(cfg: Config, side: Side, m: Queues)
    requires KeysOk(cfg, m, None)
    ensures KeysFrom(cfg, side, m, 0) == m.Keys
  {
    assert forall p :: p in m ==> InBand(cfg, p);
  }

  lemma TagStep(q: seq<Node>, k: nat, px: int, behind: seq<Order>)
    requires k < |q|
    ensures var o := Tag(q[k..], px) + behind;
      o != [] && o[0] == Order(q[k].id, q[k].qty, q[k].owner, px) && o[1..] == Tag(q[k + 1..], px) + behind
  {
    TagTail(q[k..], px);
    var o := Tag(q[k..], px) + behind;
    assert q[k..][1..] == q[k + 1..];
    assert o[1..] == Tag(q[k + 1..], px) + behind;
  }

  class ReferenceBook {
    const cfg: Config
    var bids: Queues
    var asks: Queues
    var index: map<nat, Loc>

    ghost function State(): Ref
      reads this
    {
      Ref(bids, asks, index)
    }

    ghost predicate Valid()
      reads this
    {
      RefInv(cfg, State())
    }

    /** The book this object stands for. */
    ghost function Contents(): Book
      reads this
    {
      RefAbs(cfg, State())
    }

    constructor (config: Config)
      ensures Valid() && cfg == config && Contents() == EmptyBook
    {
      cfg := config;
      bids, asks, index := map[], map[], map[];
      new;
      NoQueues(cfg, Buy, bids);
      NoQueues(cfg, Sell, asks);
    }

    function Book(side: Side): Queues
      reads this
    {
      if side == Buy then bids else asks
    }

    method SetBook(side: Side, m: Queues)
      modifies `bids, `asks
      ensures State() == WithQueues(old(State()), side, m)
    {
      if side == Buy {
        bids := m;
      } else {
        asks := m;
      }
    }

    /** The first price of a side, as its ordered map keeps them. */
    method Begin(side: Side) returns (px: int)
      requires Book(side) != map[]
      ensures IsBest(Book(side), side, px)
    {
      px := First(Book(side).Keys, side);
    }

    static method First(keys: set<int>, side: Side) returns (px: int)
      requires keys != {}
      ensures px in keys && forall p :: p in keys ==> !Better(side, p, px)
    {
      BestExists(keys, side);
      ghost var p :| IsFirst(keys, side, p);
      px :| px in keys && forall p :: p in keys ==> !Better(side, p, px);
    }

    method CrossesAt(side: Side, limit: int) returns (yes: bool)
      requires Valid()
      ensures yes <==> Crosses(Contents(), side, limit)
    {
      hide IndexExact, BookOk, Concat, Tag, Rungs;
      var opp := Opposite(side);
      if Book(opp) == map[] {
        NoQueues(cfg, opp, Book(opp));
        return false;
      }
      var px := Begin(opp);
      BestHeads(cfg, Book(opp), opp, px, None);
      TagTail(Book(opp)[px], px);
      yes := Reaches(side, limit, px);
    }

    /** One price's orders, for a fill-or-kill. */
    method FillableAt(t: Taker, q: seq<Node>, px: int, need: nat, ghost behind: seq<Order>)
      returns (left: nat, verdict: Option<bool>)
      requires Reaches(t.side, t.limit, px) && need > 0
      ensures match verdict
              case Some(yes) => Fillable(Tag(q, px) + behind, t, need) == yes
              case None => left > 0 && (Fillable(Tag(q, px) + behind, t, need) <==> Fillable(behind, t, left))
    {
      hide Tag;
      left := need;
      var k: nat := 0;
      assert q[0..] == q;
      while k < |q|
        invariant k <= |q| && left > 0
        invariant Fillable(Tag(q, px) + behind, t, need) <==> Fillable(Tag(q[k..], px) + behind, t, left)
      {
        TagStep(q, k, px, behind);
        var o := q[k];
        if t.stp != NoStp && o.owner == t.owner {
          if t.stp == CancelIncoming {
            return left, Some(false);
          }
          if t.stp == DecrementCancel {
            if o.qty >= left {
              return left, Some(false);
            }
            left := left - o.qty;
          }
        } else {
          if o.qty >= left {
            return left, Some(true);
          }
          left := left - o.qty;
        }
        k := k + 1;
      }
      assert Tag(q[k..], px) == [];
      assert [] + behind == behind;
      verdict := None;
    }

    method FillableNow(t: Taker, qty: nat) returns (yes: bool)
      requires Valid() && qty > 0
      ensures yes <==> Fillable(Resting(Contents(), Opposite(t.side)), t, qty)
    {
      hide IndexExact, BookOk, Concat, Tag, Rungs, KeysFrom;
      var opp := Opposite(t.side);
      var m := Book(opp);
      var keys, need := m.Keys, qty;
      ghost var r: nat := 0;
      AllKeys(cfg, opp, m);
      assert Rungs(cfg, opp, m)[0..] == Rungs(cfg, opp, m);
      while keys != {}
        invariant r <= cfg.numLevels && need > 0 && keys == KeysFrom(cfg, opp, m, r) && keys <= m.Keys
        invariant Fillable(Resting(Contents(), opp), t, qty) <==> Fillable(Concat(Rungs(cfg, opp, m)[r..]), t, need)
        decreases keys
      {
        var px := First(keys, opp);
        WalkBest(cfg, opp, m, r, px);
        if !Reaches(t.side, t.limit, px) {
          TagTail(m[px], px);
          return false;
        }
        r := RankOf(cfg, opp, px) + 1;
        var left, verdict := FillableAt(t, m[px], px, need, Concat(Rungs(cfg, opp, m)[r..]));
        if verdict.Some? {
          return verdict.value;
        }
        need, keys := left, keys - {px};
      }
      WalkDone(cfg, opp, m, r);
      yes := false;
    }

    /** What a maker's turn leaves. */
    ghost predicate Turned(st: Ref, t: Taker, px: int, qty: nat, u: Turn)
      reads this
    {
      && Matching(cfg, State(), Opposite(t.side), px)
      && var q := Resting(RefAbs(cfg, st), Opposite(t.side));
         && q != [] && qty > 0 && q[0].price == px && u == TakeTurn(q, t, qty)
         && RefAbs(cfg, State()) == WithResting(RefAbs(cfg, st), Opposite(t.side), u.queue)
         && (u.stop || u.left == 0 || |QueueAt(State(), Opposite(t.side), px)| < |QueueAt(st, Opposite(t.side), px)|)
    }

    /** The front order of the level leaves the book. */
    method Pop(side: Side, px: int)
      requires Matching(cfg, State(), side, px) && QueueAt(State(), side, px) != []
      modifies this
      ensures var st, q := old(State()), old(QueueAt(State(), side, px));
        State() == WithQueues(st, side, QueuesOf(st, side)[px := q[1..]]).(index := st.index - {q[0].id})
    {
      hide RefAbs, BookOk, IndexExact;
      var q := Book(side)[px];
      index := index - {q[0].id};
      SetBook(side, Book(side)[px := q[1..]]);
    }

    /** A maker of the taker's own owner, under self-trade prevention. */
    method OwnTurn(t: Taker, px: int, qty: nat) returns (ghost u: Turn, left: nat, stop: bool, events: seq<Event>)
      requires Matching(cfg, State(), Opposite(t.side), px) && QueueAt(State(), Opposite(t.side), px) != [] && qty > 0
      requires t.symbol == cfg.symbol && t.stp != NoStp && QueueAt(State(), Opposite(t.side), px)[0].owner == t.owner
      modifies this
      ensures Turned(old(State()), t, px, qty, u) && u == Turn(events, u.queue, left, stop)
    {
      hide RefAbs, Matching;
      ghost var st, opp := State(), Opposite(t.side);
      var maker := Opposite(t.side);
      PopFront(cfg, st, opp, px);
      InMatch(cfg, st, opp, px);
      u := TakeTurn(Resting(RefAbs(cfg, st), opp), t, qty);
      var q := Book(maker)[px];
      var o := q[0];
      left, stop := qty, false;
      if t.stp == CancelIncoming {
        events, stop := [], true;
        RestingSame(RefAbs(cfg, st), opp);
      } else if t.stp == DecrementCancel && o.qty > qty {
        ShrinkFront(cfg, st, opp, px, o.qty - qty);
        SetBook(maker, Book(maker)[px := q[0 := o.(qty := o.qty - qty)]]);
        events, stop := [StpDecrementEvent(cfg.symbol, o.id, maker, px, o.qty - qty)], true;
      } else {
        Pop(maker, px);
        events := [CanceledEvent(cfg.symbol, o.id, maker, px, o.qty, SelfTrade)];
        if t.stp == DecrementCancel {
          if o.qty == qty {
            stop := true;
          } else {
            left := qty - o.qty;
            events := events + [StpDecrementEvent(cfg.symbol, t.id, t.side, t.limit, left)];
          }
        }
      }
    }

    method TradeTurn(t: Taker, px: int, qty: nat) returns (ghost u: Turn, left: nat, events: seq<Event>)
      requires Matching(cfg, State(), Opposite(t.side), px) && QueueAt(State(), Opposite(t.side), px) != [] && qty > 0
      requires t.symbol == cfg.symbol && !(t.stp != NoStp && QueueAt(State(), Opposite(t.side), px)[0].owner == t.owner)
      modifies this
      ensures Turned(old(State()), t, px, qty, u) && u == Turn(events, u.queue, left, false)
    {
      hide RefAbs, Matching;
      ghost var st, opp := State(), Opposite(t.side);
      var maker := Opposite(t.side);
      PopFront(cfg, st, opp, px);
      InMatch(cfg, st, opp, px);
      u := TakeTurn(Resting(RefAbs(cfg, st), opp), t, qty);
      var q := Book(maker)[px];
      var o := q[0];
      var fill := if o.qty < qty then o.qty else qty;
      left := qty - fill;
      events := [TradeEvent(cfg.symbol, t.id, o.id, t.side, px, fill, o.qty - fill)];
      if o.qty - fill == 0 {
        Pop(maker, px);
      } else {
        ShrinkFront(cfg, st, opp, px, o.qty - fill);
        SetBook(maker, Book(maker)[px := q[0 := o.(qty := o.qty - fill)]]);
      }
    }

    /** Matches against the queue of one price; forgets the price if the queue empties. */
    method MatchLevel(t: Taker, px: int, qty: nat, ghost goal: SweepResult, ghost done: seq<Event>)
      returns (left: nat, stop: bool, events: seq<Event>)
      requires Valid() && qty > 0 && t.symbol == cfg.symbol
      requires IsBest(Book(Opposite(t.side)), Opposite(t.side), px) && Reaches(t.side, t.limit, px)
      requires Continues(goal, done, Resting(Contents(), Opposite(t.side)), t, qty, false)
      modifies this
      ensures Valid() && Resting(Contents(), t.side) == old(Resting(Contents(), t.side))
      ensures Continues(goal, done + events, Resting(Contents(), Opposite(t.side)), t, left, stop)
      ensures stop || left == 0
          || |Resting(Contents(), Opposite(t.side))| < old(|Resting(Contents(), Opposite(t.side))|)
    {
      hide RefAbs, Matching, Continues, TakeTurn, RefInv;
      var opp := Opposite(t.side);
      ghost var st0 := State();
      StartMatch(cfg, st0, opp, px);
      left, stop, events := qty, false, [];
      assert done + [] == done;
      while left > 0 && px in Book(opp) && Book(opp)[px] != [] && !stop
        invariant Matching(cfg, State(), opp, px)
        invariant Resting(Contents(), t.side) == Resting(RefAbs(cfg, st0), t.side)
        invariant Continues(goal, done + events, Resting(Contents(), opp), t, left, stop)
        invariant |Resting(Contents(), opp)| <= |Resting(RefAbs(cfg, st0), opp)|
        invariant State() == st0 || stop || left == 0 || |Resting(Contents(), opp)| < |Resting(RefAbs(cfg, st0), opp)|
        decreases if stop || left == 0 then 0 else 1 + |QueueAt(State(), opp, px)|
      {
        ghost var st := State();
        PopFront(cfg, st, opp, px);
        ghost var q, u: Turn := Resting(RefAbs(cfg, st), opp), TakeTurn(Resting(RefAbs(cfg, st), opp), t, left);
        TurnContinues(goal, done + events, q, t, left);
        TurnSize(q, t, left);
        var ev: seq<Event>;
        if t.stp != NoStp && Book(opp)[px][0].owner == t.owner {
          u, left, stop, ev := OwnTurn(t, px, left);
        } else {
          u, left, ev := TradeTurn(t, px, left);
        }
        assert (done + events) + ev == done + (events + ev);
        events := events + ev;
      }
      InMatch(cfg, State(), opp, px);
      LeaveLevel(cfg, State(), opp, px);
      if Book(opp)[px] == [] {
        SetBook(opp, Book(opp) - {px});
      }
    }

    method Match(t: Taker, qty: nat) returns (left: nat, stop: bool, events: seq<Event>)
      requires Valid() && t.symbol == cfg.symbol
      modifies this
      ensures Valid() && Resting(Contents(), t.side) == old(Resting(Contents(), t.side))
      ensures Sweep(old(Resting(Contents(), Opposite(t.side))), t, qty)
           == SweepResult(Resting(Contents(), Opposite(t.side)), left, stop, events)
    {
      hide RefAbs, Continues, RefInv;
      var opp := Opposite(t.side);
      ghost var goal := Sweep(Resting(Contents(), opp), t, qty);
      left, stop, events := qty, false, [];
      StartsSo(Resting(Contents(), opp), t, qty);
      var more := CrossesAt(t.side, t.limit);
      while left > 0 && more && !stop
        invariant Valid() && (!stop ==> (more <==> Crosses(Contents(), t.side, t.limit)))
        invariant Resting(Contents(), t.side) == old(Resting(Contents(), t.side))
        invariant Continues(goal, events, Resting(Contents(), opp), t, left, stop)
        decreases if stop || left == 0 then 0 else 1 + |Resting(Contents(), opp)|
      {
        SomeQueue(cfg, State(), opp);
        var px := Begin(opp);
        BestFirst(cfg, State(), opp, px);
        var ev: seq<Event>;
        left, stop, ev := MatchLevel(t, px, left, goal, events);
        events := events + ev;
        more := CrossesAt(t.side, t.limit);
      }
      if stop {
        StopsSo(goal, events, Resting(Contents(), opp), t, left);
      } else {
        EndsSo(goal, events, Resting(Contents(), opp), t, left);
      }
    }

    method RestOrder(side: Side, o: Order) returns (events: seq<Event>)
      requires Valid() && InBand(cfg, o.price) && o.id != 0 && o.qty > 0 && !Contains(Contents(), o.id)
      requires !Crosses(Contents(), side, o.price)
      modifies this
      ensures Valid() && Outcome(Contents(), events) == Rest(cfg, old(Contents()), side, o)
    {
      hide RefAbs, RefInv, BookOk, Insert, Contains, Crosses;
      ghost var st := State();
      RefCount(cfg, st);
      RefIndexed(cfg, st, o.id);
      if |index| >= cfg.maxOrders {
        return [CanceledEvent(cfg.symbol, o.id, side, o.price, o.qty, BookFull)];
      }
      RefOk(cfg, st);
      RestOk(cfg, Contents(), side, o);
      AppendOk(cfg, st, side, o);
      SetBook(side, Book(side)[o.price := QueueOf(Book(side), o.price) + [Node(o.id, o.qty, o.owner)]]);
      index := index[o.id := Loc(side, o.price)];
      events := [];
    }

    method Execute(t: Taker, px: int, qty: nat, mayRest: bool) returns (events: seq<Event>)
      requires Valid() && t.symbol == cfg.symbol && t.id != 0 && (mayRest ==> InBand(cfg, t.limit))
      requires !Contains(Contents(), t.id)
      modifies this
      ensures Valid() && Outcome(Contents(), events) == BookSpec.Execute(cfg, old(Contents()), t, px, qty, mayRest)
    {
      hide RefInv, RefAbs, Sweep, Rest, Contains, Crosses, BookOk;
      ghost var b := Contents();
      RefOk(cfg, State());
      AfterSweep(cfg, b, t, qty);
      var left, stop, swept := Match(t, qty);
      BookBySides(Contents(), WithResting(b, Opposite(t.side), Resting(Contents(), Opposite(t.side))), t.side);
      events := swept;
      if left == 0 {
        return;
      }
      if stop {
        return swept + [CanceledEvent(cfg.symbol, t.id, t.side, px, left, SelfTrade)];
      }
      if !mayRest {
        return swept + [CanceledEvent(cfg.symbol, t.id, t.side, px, left, IocExpired)];
      }
      var rested := RestOrder(t.side, Order(t.id, left, t.owner, t.limit));
      events := swept + rested;
    }

    method Add(c: Command) returns (events: seq<Event>)
      requires Valid() && c.kind == NewOrder
      modifies this
      ensures Valid() && Outcome(Contents(), events) == Apply(cfg, old(Contents()), c)
    {
      hide RefInv, RefAbs, Fillable, BookSpec.Execute, Contains, Crosses, EffectiveStp;
      if c.orderId == 0 {
        return [RejectedEvent(c, InvalidOrderId)];
      }
      if c.qty == 0 {
        return [RejectedEvent(c, InvalidQty)];
      }
      var market := c.ordType == Market;
      var limit := if market then (if c.side == Buy then MaxPrice(cfg) else cfg.minPrice) else c.price;
      if !market && (c.price < cfg.minPrice || c.price > MaxPrice(cfg)) {
        return [RejectedEvent(c, InvalidPrice)];
      }
      RefIndexed(cfg, State(), c.orderId);
      if c.orderId in index {
        return [RejectedEvent(c, DuplicateOrderId)];
      }
      var crossing := CrossesAt(c.side, limit);
      if PostOnly(c.flags) && crossing {
        return [RejectedEvent(c, WouldCross)];
      }
      var px := if market then 0 else c.price;
      events := [AcceptedEvent(cfg.symbol, c.orderId, c.side, px, c.qty)];
      var t := Taker(cfg.symbol, c.orderId, c.owner, c.side, limit, EffectiveStp(c.flags, cfg.stp));
      if c.tif == Fok {
        var enough := FillableNow(t, c.qty);
        if !enough {
          return events + [CanceledEvent(cfg.symbol, c.orderId, c.side, px, c.qty, FokUnfilled)];
        }
      }
      var executed := Execute(t, px, c.qty, c.ordType == Limit && c.tif == Day);
      events := events + executed;
    }

    /** Takes a resting order out, and its price with it if it was the last there. */
    method Remove(id: nat)
      requires Valid() && id in index
      modifies this
      ensures Valid()
      ensures var b, side := old(Contents()), old(index[id].side);
        Find(Resting(b, side), id) < |Resting(b, side)| &&
        Contents() == WithResting(b, side, RemoveAt(Resting(b, side), Find(Resting(b, side), id)))
    {
      hide RefInv, RefAbs, RemoveAt, Find;
      DropOk(cfg, State(), id);
      var loc := index[id];
      var k := NodeAt(Book(loc.side)[loc.price], id);
      SetBook(loc.side, Dropped(Book(loc.side), loc.price, k));
      index := index - {id};
    }

    method Cancel(c: Command) returns (events: seq<Event>)
      requires Valid() && c.kind == MsgType.Cancel
      modifies this
      ensures Valid() && Outcome(Contents(), events) == Apply(cfg, old(Contents()), c)
    {
      hide RefInv, RefAbs, RemoveAt, Find, Contains;
      RefIndexed(cfg, State(), c.orderId);
      if c.orderId !in index {
        return [RejectedEvent(c, UnknownOrder)];
      }
      RefFound(cfg, State(), c.orderId);
      var loc := index[c.orderId];
      var q := Book(loc.side)[loc.price];
      var leaves := q[NodeAt(q, c.orderId)].qty;
      Remove(c.orderId);
      events := [CanceledEvent(cfg.symbol, c.orderId, loc.side, loc.price, leaves, UserCanceled)];
    }

    method Modify(c: Command) returns (events: seq<Event>)
      requires Valid() && c.kind == MsgType.Modify
      modifies this
      ensures Valid() && Outcome(Contents(), events) == Apply(cfg, old(Contents()), c)
    {
      hide RefInv, RefAbs, RemoveAt, Find, Contains, BookSpec.Execute, BookOk;
      ghost var st, b := State(), Contents();
      RefIndexed(cfg, st, c.orderId);
      if c.qty == 0 {
        return [RejectedEvent(c, InvalidQty)];
      }
      if c.orderId !in index {
        return [RejectedEvent(c, UnknownOrder)];
      }
      if c.price < cfg.minPrice || c.price > MaxPrice(cfg) {
        return [RejectedEvent(c, InvalidPrice)];
      }
      RefFound(cfg, st, c.orderId);
      RefOk(cfg, st);
      var loc := index[c.orderId];
      var q := Book(loc.side)[loc.price];
      var k := NodeAt(q, c.orderId);
      events := [ModifiedEvent(cfg.symbol, c.orderId, loc.side, c.price, c.qty)];
      if c.price == loc.price && c.qty <= q[k].qty {
        ShrinkPlaceOk(cfg, st, c.orderId, c.qty);
        SetBook(loc.side, Book(loc.side)[loc.price := q[k := q[k].(qty := c.qty)]]);
        return;
      }
      RemovedFree(cfg, b, loc.side, c.orderId);
      Remove(c.orderId);
      var t := Taker(cfg.symbol, c.orderId, q[k].owner, loc.side, c.price, cfg.stp);
      var executed := Execute(t, c.price, c.qty, true);
      events := events + executed;
    }

    /** One command, whichever it is. */
    method Process(c: Command) returns (events: seq<Event>)
      requires Valid()
      modifies this
      ensures Valid() && Outcome(Contents(), events) == Apply(cfg, old(Contents()), c)
    {
      hide RefInv, RefAbs, Apply;
      match c.kind
      case NewOrder => events := Add(c);
      case Cancel => events := Cancel(c);
      case Modify => events := Modify(c);
    }
  }

  lemma RestingSame(b: Book, side: Side)
    ensures WithResting(b, side, Resting(b, side)) == b
  {
  }

  lemma RefOk(cfg: Config, st: Ref)
    requires RefInv(cfg, st)
    ensures BookOk(cfg, RefAbs(cfg, st))
  {
  }

  lemma InMatch(cfg: Config, st: Ref, side: Side, px: int)
    requires Matching(cfg, st, side, px)
    ensures px in QueuesOf(st, side) && QueuesOf(st, side)[px] == QueueAt(st, side, px)
  {
  }

  lemma StartMatch(cfg: Config, st: Ref, side: Side, px: int)
    requires RefInv(cfg, st) && IsBest(QueuesOf(st, side), side, px)
    ensures Matching(cfg, st, side, px) && QueueAt(st, side, px) != []
  {
    hide IndexExact, BookOk;
  }

  lemma SomeQueue(cfg: Config, st: Ref, side: Side)
    requires Resting(RefAbs(cfg, st), side) != []
    ensures QueuesOf(st, side) != map[]
  {
    if QueuesOf(st, side) == map[] {
      NoQueues(cfg, side, QueuesOf(st, side));
    }
  }

  lemma BestFirst(cfg: Config, st: Ref, side: Side, px: int)
    requires RefInv(cfg, st) && IsBest(QueuesOf(st, side), side, px)
    ensures Resting(RefAbs(cfg, st), side) != [] && Resting(RefAbs(cfg, st), side)[0].price == px
  {
    hide IndexExact, BookOk, Concat, Tag, Rungs;
    BestHeads(cfg, QueuesOf(st, side), side, px, None);
    TagTail(QueuesOf(st, side)[px], px);
  }

  lemma RemovedFree(cfg: Config, b: Book, side: Side, id: nat)
    requires BookOk(cfg, b) && Find(Resting(b, side), id) < |Resting(b, side)|
    ensures !Contains(WithResting(b, side, RemoveAt(Resting(b, side), Find(Resting(b, side), id))), id) && id != 0
  {
    var q := Resting(b, side);
    var p := Find(q, id);
    assert q[p].id == id && q[p].id != 0;
    hide BookOk, Find, RemoveAt, Contains;
    RemovedOk(cfg, b, side, p);
  }
}
