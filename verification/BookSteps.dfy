/** The optimised book's in-place steps, and the step of the specification each one is. */
module BookSteps {
  import opened Types
  import opened BookSpec
  import opened BookInvariant
  import opened Ladders
  import opened OrderStores
  import opened BookStates
  import PriceBitmaps

  // ---- popping a filled or canceled maker off the front of the level being swept ----

  /** A change at the leading level shows only at the front of its side's queue. */
  lemma LeadingChange(cfg: Config, st: State, st': State, side: Side, ix: nat)
    requires Leading(cfg, st, side, ix) && Leading(cfg, st', side, ix) && OnlyAt(st, st', ix)
    ensures Resting(Abs(cfg, st'), side) ==
      Orders(st'.recs, QueueAt(st', ix), cfg.minPrice + ix)
        + Concat(LadderOf(cfg, st, side)[RankAt(cfg, side, ix) + 1..])
    ensures Resting(Abs(cfg, st'), Opposite(side)) == Resting(Abs(cfg, st), Opposite(side))
  {
    hide Orders, Concat, BestsOk, OnlyAt;
    var l, l', r := LadderOf(cfg, st, side), LadderOf(cfg, st', side), RankAt(cfg, side, ix);
    LeadingHead(cfg, st', side, ix);
    LadderOnlyAt(cfg, st, st', side, ix);
    LadderUnchanged(cfg, st, st', Opposite(side), ix);
    assert l'[r + 1..] == l[r + 1..];
  }

  /** The front of the leading level's queue is the front of its side's. */
  lemma LeadingFront(cfg: Config, st: State, side: Side, ix: nat)
    requires Leading(cfg, st, side, ix) && QueueAt(st, ix) != []
    ensures var q := Resting(Abs(cfg, st), side);
      q != [] && q[0] == ToOrder(Get(st.recs, QueueAt(st, ix)[0]), cfg.minPrice + ix)
  {
    hide Concat, BestsOk, Abs;
    LeadingHead(cfg, st, side, ix);
  }

  lemma PopFacts(cfg: Config, st: State, side: Side, ix: nat)
    requires Shape(cfg, st) && Others(cfg, st, ix) && ix < |st.queues| && SweptQueue(st, side, ix)
    requires st.queues[ix] != [] && SlotsOk(st)
    ensures var s, st' := st.queues[ix][0], PopS(st, ix);
      && s < |st.recs| && Dropped(st, st', ix, s) && OnlyAt(st, st', ix) && Others(cfg, st', ix)
      && Orders(st'.recs, st'.queues[ix], cfg.minPrice + ix) == Orders(st.recs, st.queues[ix], cfg.minPrice + ix)[1..]
  {
    hide SlotsOk, Orders, Dropped, OnlyAt, Others;
    var q, st' := st.queues[ix], PopS(st, ix);
    PopDrops(st, ix);
    PopOnlyAt(cfg, st, ix);
    OthersKept(cfg, st, st', ix);
    TailChain(st.recs, st'.recs, q, ix);
  }

  lemma PopSwept(st: State, side: Side, ix: nat)
    requires |st.levels| == |st.queues| && ix < |st.queues| && SweptQueue(st, side, ix) && st.queues[ix] != []
    ensures SweptQueue(PopS(st, ix), side, ix)
  {
    var q, st' := st.queues[ix], PopS(st, ix);
    TailChain(st.recs, st'.recs, q, ix);
    hide Chain, Sum, NextLinked;
    SecondAlike(st.recs, q, ix);
  }

  lemma SecondAlike(recs: seq<Rec>, q: seq<nat>, i: int)
    requires Chain(recs, q, i)
    ensures |q| > 1 ==> q[1] != q[0] && q[1] < |recs| && recs[q[1]].side == recs[q[0]].side
    ensures q != [] ==> q[0] < |recs| && recs[q[0]].qty > 0
  {
  }

  lemma OkPositive(cfg: Config, b: Book, side: Side)
    requires BookOk(cfg, b)
    ensures Positive(Resting(b, side))
  {
  }

  lemma PopAbs(cfg: Config, st: State, side: Side, ix: nat)
    requires Leading(cfg, st, side, ix) && Others(cfg, st, ix) && SweptQueue(st, side, ix) && st.queues[ix] != []
    requires SlotsOk(st)
    ensures var q := Resting(Abs(cfg, st), side);
      && q != [] && q[0] == ToOrder(Get(st.recs, st.queues[ix][0]), cfg.minPrice + ix)
      && Abs(cfg, PopS(st, ix)) == WithResting(Abs(cfg, st), side, q[1..])
  {
    hide Orders, Concat, BestsOk, OnlyAt, Others, QueueOk, SlotsOk, Abs, Dropped, LadderOf;
    var st' := PopS(st, ix);
    PopFacts(cfg, st, side, ix);
    PopLeads(cfg, st, side, ix);
    LeadingFront(cfg, st, side, ix);
    LeadingHead(cfg, st, side, ix);
    LeadingChange(cfg, st, st', side, ix);
    BookBySides(Abs(cfg, st'), WithResting(Abs(cfg, st), side, Resting(Abs(cfg, st), side)[1..]), side);
  }

  lemma PopLeads(cfg: Config, st: State, side: Side, ix: nat)
    requires Leading(cfg, st, side, ix) && st.queues[ix] != []
    ensures Leading(cfg, PopS(st, ix), side, ix)
  {
  }

  /** Popping the front maker: the sweep goes on over the rest of the queue. */
  lemma PopOk(cfg: Config, st: State, side: Side, ix: nat)
    requires Sweeping(cfg, st, side, ix) && st.queues[ix] != []
    ensures Sweeping(cfg, PopS(st, ix), side, ix)
    ensures var q := Resting(Abs(cfg, st), side);
      && q != [] && q[0] == ToOrder(Get(st.recs, st.queues[ix][0]), cfg.minPrice + ix)
      && Abs(cfg, PopS(st, ix)) == WithResting(Abs(cfg, st), side, q[1..])
  {
    hide Abs, BookOk, Others, SlotsOk, IndexOk, SweptQueue, Leading, Dropped, OnlyAt, Consumed;
    var st', q := PopS(st, ix), Resting(Abs(cfg, st), side);
    PopFacts(cfg, st, side, ix);
    PopSwept(st, side, ix);
    DroppedSlots(st, st', ix, st.queues[ix][0]);
    DroppedIndex(st, st', ix, st.queues[ix][0]);
    PopLeads(cfg, st, side, ix);
    PopAbs(cfg, st, side, ix);
    OkPositive(cfg, Abs(cfg, st), side);
    HeadConsumed(q);
    ConsumedBookOk(cfg, Abs(cfg, st), side, q[1..]);
  }

  // ---- changing an order's quantity in place ----

  ghost function ResizeS(st: State, ix: nat, s: nat, qty: nat): State
    requires ix < |st.levels|
  {
    var r := Get(st.recs, s);
    st.(levels := st.levels[ix := st.levels[ix].(qty := Sub64(st.levels[ix].qty, r.qty - qty))],
        recs := Put(st.recs, s, r.(qty := qty)))
  }

  lemma {:induction false} ResizeSum(recs: seq<Rec>, q: seq<nat>, k: nat, qty: nat)
    requires k < |q| && NoDup(q) && q[k] < |recs|
    ensures Sum(recs[q[k] := recs[q[k]].(qty := qty)], q) == Sum(recs, q) - recs[q[k]].qty + qty
  {
    var recs' := recs[q[k] := recs[q[k]].(qty := qty)];
    if k == 0 {
      SumSame(recs, recs', q[1..]);
    } else {
      assert q[1..][k - 1] == q[k];
      ResizeSum(recs, q[1..], k - 1, qty);
    }
  }

  /** The level's own queue after one of its orders changed size. */
  lemma ResizeQueue(st: State, ix: nat, k: nat, qty: nat)
    requires |st.levels| == |st.queues| && ix < |st.queues| && QueueOk(st, ix) && k < |st.queues[ix]| && qty > 0
    ensures QueueOk(ResizeS(st, ix, st.queues[ix][k], qty), ix)
    ensures EndsOk(st, ix) ==> EndsOk(ResizeS(st, ix, st.queues[ix][k], qty), ix)
    ensures forall side :: SweptQueue(st, side, ix) ==> SweptQueue(ResizeS(st, ix, st.queues[ix][k], qty), side, ix)
  {
    ResizeSum(st.recs, st.queues[ix], k, qty);
  }

  lemma ResizeOrders(recs: seq<Rec>, q: seq<nat>, k: nat, qty: nat, price: int)
    requires k < |q| && NoDup(q) && q[k] < |recs|
    ensures var o := Orders(recs, q, price);
      Orders(recs[q[k] := recs[q[k]].(qty := qty)], q, price) == o[k := o[k].(qty := qty)]
  {
  }

  lemma ResizeOnlyAt(cfg: Config, st: State, ix: nat, k: nat, qty: nat)
    requires Others(cfg, st, ix) && ix < |st.queues| && QueueOk(st, ix) && k < |st.queues[ix]|
    ensures OnlyAt(st, ResizeS(st, ix, st.queues[ix][k], qty), ix)
  {
    var s := st.queues[ix][k];
    var st' := ResizeS(st, ix, s, qty);
    forall i, j | i != ix && 0 <= j < |QueueAt(st, i)|
      ensures Get(st'.recs, QueueAt(st, i)[j]) == Get(st.recs, QueueAt(st, i)[j])
    {
      if QueueAt(st, i)[j] == s {
        OneQueue(st, ix, i, s);
      }
    }
  }

  lemma ResizeSlots(st: State, ix: nat, s: nat, qty: nat)
    requires ix < |st.levels| && SlotsOk(st) && IndexOk(st)
    ensures SlotsOk(ResizeS(st, ix, s, qty)) && IndexOk(ResizeS(st, ix, s, qty))
  {
    var st' := ResizeS(st, ix, s, qty);
    assert forall t: nat :: Live(st', t) <==> Live(st, t);
    assert forall t :: 0 <= t < |st.recs| ==> st'.recs[t].next == st.recs[t].next && st'.recs[t].id == st.recs[t].id;
    hide Live, ResizeS, QueueAt;
    assert st'.free == st.free && st'.index == st.index && |st'.recs| == |st.recs|;
  }

  /** Everything about resizing the k-th order of level ix but the book it stands for. */
  lemma ResizeFacts(cfg: Config, st: State, ix: nat, k: nat, qty: nat)
    requires Shape(cfg, st) && Others(cfg, st, ix) && ix < |st.queues| && QueueOk(st, ix) && k < |st.queues[ix]|
    requires qty > 0
    requires SlotsOk(st) && IndexOk(st)
    ensures var s, q := st.queues[ix][k], st.queues[ix];
      var st' := ResizeS(st, ix, s, qty);
      && s < |st.recs| && OnlyAt(st, st', ix) && Others(cfg, st', ix) && SlotsOk(st') && IndexOk(st')
      && forall price ::
           Orders(st'.recs, q, price) == Orders(st.recs, q, price)[k := Orders(st.recs, q, price)[k].(qty := qty)]
  {
    hide SlotsOk, IndexOk, Orders, OnlyAt, Others, Sum;
    var s := st.queues[ix][k];
    ResizeOnlyAt(cfg, st, ix, k, qty);
    OthersKept(cfg, st, ResizeS(st, ix, s, qty), ix);
    ResizeSlots(st, ix, s, qty);
    var q := st.queues[ix];
    forall price
      ensures Orders(ResizeS(st, ix, s, qty).recs, q, price)
        == Orders(st.recs, q, price)[k := Orders(st.recs, q, price)[k].(qty := qty)]
    {
      ResizeOrders(st.recs, st.queues[ix], k, qty, price);
    }
  }

  lemma FrontShrunk(q: seq<Order>, qty: nat)
    requires q != [] && 0 < qty <= q[0].qty
    ensures Consumed(q, [q[0].(qty := qty)] + q[1..])
  {
  }

  lemma ResizeFrontAbs(cfg: Config, st: State, side: Side, ix: nat, qty: nat)
    requires Leading(cfg, st, side, ix) && Others(cfg, st, ix) && QueueOk(st, ix) && st.queues[ix] != [] && qty > 0
    requires SlotsOk(st) && IndexOk(st)
    ensures var st', q := ResizeS(st, ix, st.queues[ix][0], qty), Resting(Abs(cfg, st), side);
      && q != [] && q[0] == ToOrder(Get(st.recs, st.queues[ix][0]), cfg.minPrice + ix)
      && Leading(cfg, st', side, ix)
      && Abs(cfg, st') == WithResting(Abs(cfg, st), side, [q[0].(qty := qty)] + q[1..])
  {
    hide Orders, Concat, BestsOk, OnlyAt, Others, QueueOk, SlotsOk, IndexOk, Abs, LadderOf;
    var st', p := ResizeS(st, ix, st.queues[ix][0], qty), st.queues[ix];
    ResizeFacts(cfg, st, ix, 0, qty);
    LeadingFront(cfg, st, side, ix);
    LeadingHead(cfg, st, side, ix);
    LeadingKept(cfg, st, st', side, ix);
    LeadingChange(cfg, st, st', side, ix);
    var o, z := Orders(st.recs, p, cfg.minPrice + ix), Concat(LadderOf(cfg, st, side)[RankAt(cfg, side, ix) + 1..]);
    assert o[0 := o[0].(qty := qty)] + z == [(o + z)[0].(qty := qty)] + (o + z)[1..];
    BookBySides(Abs(cfg, st'), WithResting(Abs(cfg, st), side, [(o + z)[0].(qty := qty)] + (o + z)[1..]), side);
  }

  lemma LeadingKept(cfg: Config, st: State, st': State, side: Side, ix: nat)
    requires Leading(cfg, st, side, ix)
    requires |st'.levels| == |st.levels| && |st'.queues| == |st.queues| && |st'.recs| == |st.recs|
    requires st'.bids == st.bids && st'.asks == st.asks && st'.bestBid == st.bestBid && st'.bestAsk == st.bestAsk
    ensures Leading(cfg, st', side, ix)
  {
  }

  /** Shrinking the front maker of the swept level. */
  lemma ResizeFront(cfg: Config, st: State, side: Side, ix: nat, qty: nat)
    requires Sweeping(cfg, st, side, ix) && st.queues[ix] != []
    requires 0 < qty <= Get(st.recs, st.queues[ix][0]).qty
    ensures var st', q := ResizeS(st, ix, st.queues[ix][0], qty), Resting(Abs(cfg, st), side);
      && Sweeping(cfg, st', side, ix)
      && q != [] && q[0] == ToOrder(Get(st.recs, st.queues[ix][0]), cfg.minPrice + ix)
      && Abs(cfg, st') == WithResting(Abs(cfg, st), side, [q[0].(qty := qty)] + q[1..])
  {
    hide Abs, BookOk, Others, SlotsOk, IndexOk, QueueOk, Leading, OnlyAt, Consumed, Orders;
    var q := Resting(Abs(cfg, st), side);
    ResizeFacts(cfg, st, ix, 0, qty);
    ResizeQueue(st, ix, 0, qty);
    ResizeFrontAbs(cfg, st, side, ix, qty);
    FrontShrunk(q, qty);
    ConsumedBookOk(cfg, Abs(cfg, st), side, [q[0].(qty := qty)] + q[1..]);
  }

  // ---- leaving a swept level ----

  ghost predicate NewBest(st: State, side: Side, ix: int, best: int) {
    if side == Buy then PriceBitmaps.IsPrev(st.bids - {ix}, ix - 1, best)
    else PriceBitmaps.IsNext(st.asks - {ix}, |st.levels|, ix + 1, best)
  }

  ghost function Retire(st: State, side: Side, ix: int, best: int): State {
    if side == Buy then st.(bids := st.bids - {ix}, bestBid := best)
    else st.(asks := st.asks - {ix}, bestAsk := best)
  }

  /** Writes the level's head; an emptied level also loses its tail and its mark, and the best moves on. */
  ghost function SettleS(st: State, side: Side, ix: nat, best: int): State
    requires ix < |st.levels| && ix < |st.queues|
  {
    var q := st.queues[ix];
    var l := st.levels[ix].(head := HeadOf(q), tail := if q == [] then NIL else st.levels[ix].tail);
    var st1 := st.(levels := st.levels[ix := l]);
    if q == [] then Retire(st1, side, ix, best) else st1
  }

  lemma RetireBests(st: State, side: Side, ix: nat, best: int)
    requires BestsOk(st) && ix < |st.levels| && ix == Best(st, side) && NewBest(st, side, ix, best)
    ensures BestsOk(Retire(st, side, ix, best))
  {
  }

  lemma SettleOnlyAt(st: State, side: Side, ix: nat, best: int)
    requires ix < |st.levels| && ix < |st.queues|
    ensures OnlyAt(st, SettleS(st, side, ix, best), ix)
  {
  }

  lemma SettleLevel(cfg: Config, st: State, side: Side, ix: nat, best: int)
    requires Leading(cfg, st, side, ix) && SweptQueue(st, side, ix)
    requires st.queues[ix] == [] ==> NewBest(st, side, ix, best)
    ensures var st' := SettleS(st, side, ix, best);
      && Shape(cfg, st') && QueueOk(st', ix) && EndsOk(st', ix) && BestsOk(st')
      && forall s: Side :: LevelOrders(cfg, st', s, ix) == LevelOrders(cfg, st, s, ix)
  {
    hide Chain, Sum;
    if st.queues[ix] == [] {
      RetireBests(st, side, ix, best);
    }
  }

  lemma SettleSlots(st: State, side: Side, ix: nat, best: int)
    requires ix < |st.levels| && ix < |st.queues| && SlotsOk(st) && IndexOk(st)
    ensures SlotsOk(SettleS(st, side, ix, best)) && IndexOk(SettleS(st, side, ix, best))
  {
    var st' := SettleS(st, side, ix, best);
    assert forall s: nat :: Live(st', s) <==> Live(st, s);
  }

  /** Leaving the level completes the book: the stale ends and mark are put right, nothing else moves. */
  lemma SettleOk(cfg: Config, st: State, side: Side, ix: nat, best: int)
    requires Sweeping(cfg, st, side, ix)
    requires st.queues[ix] == [] ==> NewBest(st, side, ix, best)
    ensures Inv(cfg, SettleS(st, side, ix, best))
    ensures Abs(cfg, SettleS(st, side, ix, best)) == Abs(cfg, st)
  {
    hide BookOk, Others, SlotsOk, IndexOk, QueueOk, EndsOk, BestsOk, OnlyAt, LevelOrders, Concat, NewBest, SettleS,
         LadderOf;
    var st' := SettleS(st, side, ix, best);
    SettleOnlyAt(st, side, ix, best);
    SettleLevel(cfg, st, side, ix, best);
    OthersKept(cfg, st, st', ix);
    OthersJoin(cfg, st', ix);
    SettleSlots(st, side, ix, best);
    LadderUnchanged(cfg, st, st', Buy, ix);
    LadderUnchanged(cfg, st, st', Sell, ix);
  }

  /** Entering a level: the sound book is a sweep about to start. */
  lemma StartSweep(cfg: Config, st: State, side: Side)
    requires Inv(cfg, st) && Best(st, side) in Marked(st, side)
    ensures Sweeping(cfg, st, side, Best(st, side))
  {
    hide BookOk, Abs, SlotsOk, IndexOk, Others;
    assert 0 <= Best(st, side) < cfg.numLevels;
    OthersSplit(cfg, st, Best(st, side));
  }
}
