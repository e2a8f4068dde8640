/** The optimised book's level-2 view, as market data reads it: each level's 64-bit total, best first. */
module BookLevels {
  import opened Types
  import opened BookSpec
  import opened BookInvariant
  import opened Ladders
  import opened OrderStores
  import opened BookStates
  import opened BookFillable
  import opened MissedFills
  import opened OrderBooks
  import opened LevelNotes
  import MarketData
  import MdFeeds

  /** The prices at which a queue rests, best first, each with its total as a 64-bit word. */
  function LevelsFrom(cfg: Config, side: Side, q: seq<Order>, r: nat): seq<(int, nat)>
    decreases cfg.numLevels - r
  {
    if r >= cfg.numLevels then []
    else
      var t := LevelTotal(q, RankPrice(cfg, side, r));
      (if t > 0 then [(RankPrice(cfg, side, r), t % U64)] else []) + LevelsFrom(cfg, side, q, r + 1)
  }

  lemma {:induction false} SkipEmpty(cfg: Config, side: Side, l: Ladder, r: nat, end: nat)
    requires Priced(cfg, side, l) && r <= end <= |l| && forall k :: r <= k < end ==> l[k] == []
    ensures LevelsFrom(cfg, side, Concat(l), r) == LevelsFrom(cfg, side, Concat(l), end)
    decreases end - r
  {
    if r < end {
      RungTotal(cfg, side, l, r);
      assert l[r] == [];
      SkipEmpty(cfg, side, l, r + 1, end);
    }
  }

  /** The walk's first stop, and every next one: nothing rests in between. */
  lemma StartLevels(cfg: Config, st: State, side: Side)
    requires Inv(cfg, st)
    ensures OnWalk(cfg, st, side, Best(st, side)) && 0 <= RankAt(cfg, side, Best(st, side)) <= cfg.numLevels
    ensures var q := Resting(Abs(cfg, st), side);
      LevelsFrom(cfg, side, q, 0) == LevelsFrom(cfg, side, q, RankAt(cfg, side, Best(st, side)))
  {
    hide BookOk, SlotsOk, IndexOk, Others, Orders;
    var l, r := LadderOf(cfg, st, side), RankAt(cfg, side, Best(st, side));
    LadderPriced(cfg, st, side);
    forall k: nat | k < r ensures l[k] == [] {
      AheadOfBest(cfg, st, side, k);
    }
    SkipEmpty(cfg, side, l, 0, r);
  }

  lemma NextLevels(cfg: Config, st: State, side: Side, i: nat, j: int)
    requires Inv(cfg, st) && i in Marked(st, side) && NextAfter(st, side, i, j)
    ensures OnWalk(cfg, st, side, j) && 0 <= RankAt(cfg, side, i) < RankAt(cfg, side, j) <= cfg.numLevels
    ensures var q := Resting(Abs(cfg, st), side);
      LevelsFrom(cfg, side, q, RankAt(cfg, side, i) + 1) == LevelsFrom(cfg, side, q, RankAt(cfg, side, j))
  {
    hide BookOk, SlotsOk, IndexOk, Others, Orders;
    var l, r, r' := LadderOf(cfg, st, side), RankAt(cfg, side, i), RankAt(cfg, side, j);
    LadderPriced(cfg, st, side);
    forall k: nat | r < k < r' ensures l[k] == [] {
      assert LevelAt(cfg, side, k) !in Marked(st, side);
    }
    SkipEmpty(cfg, side, l, r + 1, r');
  }

  /** A marked level holds something, and its word is the total of what rests there. */
  lemma ThisLevel(cfg: Config, st: State, side: Side, i: nat)
    requires Inv(cfg, st) && i in Marked(st, side)
    ensures i < |st.levels| && 0 <= RankAt(cfg, side, i) < cfg.numLevels
    ensures var q, r := Resting(Abs(cfg, st), side), RankAt(cfg, side, i);
      LevelsFrom(cfg, side, q, r) == [(cfg.minPrice + i, st.levels[i].qty)] + LevelsFrom(cfg, side, q, r + 1)
  {
    hide Inv, LadderOf, TotalQty, Concat, LevelTotal, Abs, Priced, LevelsFrom, Orders, NextLinked, HeadOf;
    var l, r := LadderOf(cfg, st, side), RankAt(cfg, side, i);
    SideLadder(cfg, st, side);
    WalkLevel(cfg, st, side, i);
    LadderPriced(cfg, st, side);
    RungTotal(cfg, side, l, r);
    PositiveTotal(cfg, st, side, i);
    Unfold(cfg, side, Resting(Abs(cfg, st), side), r, cfg.minPrice + i, st.levels[i].qty);
  }

  lemma SideLadder(cfg: Config, st: State, side: Side)
    ensures Resting(Abs(cfg, st), side) == Concat(LadderOf(cfg, st, side))
  {
    hide LadderOf, Concat;
  }

  lemma Unfold(cfg: Config, side: Side, q: seq<Order>, r: nat, px: int, word: nat)
    requires r < cfg.numLevels && px == RankPrice(cfg, side, r) && LevelTotal(q, px) > 0
    requires word == LevelTotal(q, px) % U64
    ensures LevelsFrom(cfg, side, q, r) == [(px, word)] + LevelsFrom(cfg, side, q, r + 1)
  {
    hide LevelTotal;
  }

  lemma PositiveTotal(cfg: Config, st: State, side: Side, i: nat)
    requires Inv(cfg, st) && i in Marked(st, side)
    ensures 0 <= RankAt(cfg, side, i) < cfg.numLevels && TotalQty(LadderOf(cfg, st, side)[RankAt(cfg, side, i)]) > 0
  {
    hide BookOk, SlotsOk, IndexOk, BestsOk, Abs;
    WalkLevel(cfg, st, side, i);
    OthersSplit(cfg, st, i);
    var q := st.queues[i];
    assert st.recs[q[0]].qty > 0;
    assert Orders(st.recs, q, cfg.minPrice + i)[0].qty > 0;
  }

  /** Visits a side's price levels, best first. */
  method ForEachLevel(b: OrderBook, side: Side) returns (out: seq<(int, nat)>)
    requires b.Valid()
    ensures out == LevelsFrom(b.cfg, side, Resting(b.Contents(), side), 0)
  {
    hide OrderBook.LadderOk, Inv, Abs, LevelsFrom, PriceBitmaps.PriceBitmap.Valid, OrderIndexes.OrderIndex.Valid,
         OrderStore.Valid;
    assert b.LadderOk() && |b.Levels| == b.levels.Length == b.cfg.numLevels;
    hide OrderBook.Parts, OnWalk, NextAfter;
    out := [];
    ghost var q := Resting(b.Contents(), side);
    StartLevels(b.cfg, b.State(), side);
    var i := if side == Buy then b.bestBid else b.bestAsk;
    assert [] + LevelsFrom(b.cfg, side, q, RankAt(b.cfg, side, i)) == LevelsFrom(b.cfg, side, q, 0);
    while if side == Buy then i >= 0 else i < b.cfg.numLevels
      invariant OnWalk(b.cfg, b.State(), side, i) && 0 <= RankAt(b.cfg, side, i) <= b.cfg.numLevels
      invariant out + LevelsFrom(b.cfg, side, q, RankAt(b.cfg, side, i)) == LevelsFrom(b.cfg, side, q, 0)
      decreases b.cfg.numLevels - RankAt(b.cfg, side, i)
    {
      Stopped(b.cfg, b.State(), side, i);
      ThisLevel(b.cfg, b.State(), side, i);
      var level := (b.cfg.minPrice + i, b.LevelOf(i).qty);
      ghost var rest := LevelsFrom(b.cfg, side, q, RankAt(b.cfg, side, i) + 1);
      assert out + ([level] + rest) == (out + [level]) + rest;
      out := out + [level];
      var j := b.NextLevel(side, i);
      NextLevels(b.cfg, b.State(), side, i, j);
      i := j;
    }
    NoMore(b.cfg, side, q, RankAt(b.cfg, side, i));
    assert out + [] == out;
  }

  /** A level's total, 0 for a price out of the band or with nothing on that side. */
  method LevelQty(b: OrderBook, side: Side, px: int) returns (qty: nat)
    requires b.Valid()
    ensures qty == LevelTotal(Resting(b.Contents(), side), px) % U64
  {
    hide Inv, Abs, LevelTotal, PriceBitmaps.PriceBitmap.Valid, OrderIndexes.OrderIndex.Valid, OrderStore.Valid;
    var rel := px - b.cfg.minPrice;
    if rel < 0 || rel >= b.cfg.numLevels {
      OutOfBand(b.cfg, b.State(), side, px);
      return 0;
    }
    LevelWord(b.cfg, b.State(), side, rel);
    var marked := Marks(b, side, rel);
    qty := if marked then b.LevelOf(rel).qty else 0;
  }

  /** Does a side hold orders at a level? */
  method Marks(b: OrderBook, side: Side, i: nat) returns (yes: bool)
    requires b.Parts() && i < b.cfg.numLevels
    ensures yes <==> i in Marked(b.State(), side)
  {
    hide OrderIndexes.OrderIndex.Valid, OrderStore.Valid, OrderBook.LadderOk;
    if side == Buy {
      yes := b.bidBits.Test(i);
    } else {
      yes := b.askBits.Test(i);
    }
  }

  lemma OutOfBand(cfg: Config, st: State, side: Side, px: int)
    requires Inv(cfg, st) && !InBand(cfg, px)
    ensures LevelTotal(Resting(Abs(cfg, st), side), px) == 0
  {
    hide Abs;
    SideSorted(cfg, Abs(cfg, st), side);
    NoneAt(Resting(Abs(cfg, st), side), px);
  }

  lemma LevelWord(cfg: Config, st: State, side: Side, i: nat)
    requires Inv(cfg, st) && i < cfg.numLevels
    ensures i < |st.levels|
    ensures LevelTotal(Resting(Abs(cfg, st), side), cfg.minPrice + i) % U64
        == if i in Marked(st, side) then st.levels[i].qty else 0
  {
    hide BookOk, SlotsOk, IndexOk, Others, BestsOk, Orders, Concat, LevelTotal;
    var l, r := LadderOf(cfg, st, side), RankAt(cfg, side, i);
    SideLadder(cfg, st, side);
    LadderPriced(cfg, st, side);
    RungTotal(cfg, side, l, r);
    if i in Marked(st, side) {
      WalkLevel(cfg, st, side, i);
    } else {
      assert l[r] == [];
    }
  }

  lemma Stopped(cfg: Config, st: State, side: Side, i: int)
    requires OnWalk(cfg, st, side, i) && if side == Buy then i >= 0 else i < cfg.numLevels
    requires 0 <= RankAt(cfg, side, i) <= cfg.numLevels
    ensures i in Marked(st, side) && i >= 0
  {
  }

  lemma NoMore(cfg: Config, side: Side, q: seq<Order>, r: nat)
    requires r >= cfg.numLevels
    ensures LevelsFrom(cfg, side, q, r) == []
  {
  }

  function AsEntries(s: nat, side: Side, levels: seq<(int, nat)>): seq<MdFeeds.Entry> {
    seq(|levels|, i requires 0 <= i < |levels| => MdFeeds.LevelEntry(Place(s, side, levels[i].0), levels[i].1))
  }

  /** The snapshot the feed sends is this view, symbol by symbol. */
  lemma {:induction false} SnapshotIsView(cfg: Config, books: MarketData.Books, s: nat, side: Side, r: nat)
    requires s < |books|
    ensures MarketData.ListSide(cfg, books, s, side, r)
        == AsEntries(s, side, LevelsFrom(cfg, side, Resting(books[s], side), r))
    decreases cfg.numLevels - r
  {
    if r < cfg.numLevels {
      SnapshotIsView(cfg, books, s, side, r + 1);
    }
  }

  /** The listing a snapshot is cut from: every symbol's book, both sides, read off the books themselves. */
  method ListEngine(cfg: Config, engine: seq<OrderBook>, ghost books: MarketData.Books)
    returns (all: seq<MdFeeds.Entry>)
    requires |books| == |engine|
    requires forall s :: 0 <= s < |engine| ==>
      engine[s].Valid() && engine[s].cfg == MarketData.ForSymbol(cfg, s) && books[s] == engine[s].Contents()
    ensures all == MarketData.ListBooks(cfg, books, 0)
  {
    hide OrderBook.Valid, OrderBook.Contents, LevelsFrom, MarketData.ListSide;
    all := [];
    for s := 0 to |engine|
      invariant all + MarketData.ListBooks(cfg, books, s) == MarketData.ListBooks(cfg, books, 0)
    {
      var bids := ForEachLevel(engine[s], Buy);
      var asks := ForEachLevel(engine[s], Sell);
      SnapshotIsView(cfg, books, s, Buy, 0);
      SnapshotIsView(cfg, books, s, Sell, 0);
      SymbolLevels(cfg, s, Buy, books[s].bids, 0);
      SymbolLevels(cfg, s, Sell, books[s].asks, 0);
      ghost var rest := MarketData.ListBooks(cfg, books, s + 1);
      var now := AsEntries(s, Buy, bids) + AsEntries(s, Sell, asks);
      assert all + (now + rest) == (all + now) + rest;
      all := all + now;
    }
    assert all + [] == all;
  }

  /** A batch's entries, the totals read off the books themselves. */
  method StageBatch(engine: seq<OrderBook>, events: seq<Event>, order: seq<Place>, ghost books: MarketData.Books)
    returns (staged: seq<MdFeeds.Entry>)
    requires |books| == |engine|
    requires forall s :: 0 <= s < |engine| ==> engine[s].Valid() && books[s] == engine[s].Contents()
    requires forall p :: p in order ==> p.symbol < |engine|
    ensures staged == MarketData.Staged(events, order, books)
  {
    hide OrderBook.Valid, OrderBook.Contents, MarketData.Trades, LevelTotal;
    staged := MarketData.Trades(events);
    for i := 0 to |order|
      invariant staged == MarketData.Staged(events, order[..i], books)
    {
      assert order[i] in order;
      var word := LevelQty(engine[order[i].symbol], order[i].side, order[i].price);
      staged := staged + [MdFeeds.LevelEntry(order[i], word)];
      assert order[..i + 1] == order[..i] + [order[i]];
    }
    assert order[..|order|] == order;
  }

  /** The listing of a book does not depend on its symbol. */
  lemma {:induction false} SymbolLevels(cfg: Config, s: nat, side: Side, q: seq<Order>, r: nat)
    ensures LevelsFrom(MarketData.ForSymbol(cfg, s), side, q, r) == LevelsFrom(cfg, side, q, r)
    decreases cfg.numLevels - r
  {
    if r < cfg.numLevels {
      SymbolLevels(cfg, s, side, q, r + 1);
    }
  }
}
