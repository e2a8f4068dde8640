/** The whole feed: engine batches in, packets over a network that may lose, repeat and reorder them, a
    subscriber's book out. Whenever the subscriber is synced at the last packet of a batch, its book is
    the engine's level-2 book as it stood then. */
module MarketData {
  import opened Types
  import opened BookSpec
  import opened BookInvariant
  import opened LevelNotes
  import opened MissedFills
  import opened MdFeeds
  import opened MdNodes

  /** One book per symbol; symbol s is at index s. */
  type Books = seq<Book>

  function ForSymbol(cfg: Config, s: nat): Config {
    cfg.(symbol := s)
  }

  /** What rests at a level of the engine. */
  function Resident(books: Books, p: Place): nat {
    if p.symbol < |books| then LevelTotal(Resting(books[p.symbol], p.side), p.price) else 0
  }

  /** The level's total, as its 64-bit word has it. */
  function Total(books: Books, p: Place): nat {
    Resident(books, p) % U64
  }

  ghost predicate BooksOk(cfg: Config, books: Books) {
    forall s :: 0 <= s < |books| ==> BookOk(ForSymbol(cfg, s), books[s])
  }

  // ---- a batch ----

  datatype Effect = Effect(books: Books, touched: set<Place>, events: seq<Event>)

  /** One command through the engine, with the levels noted for it. */
  function Step(cfg: Config, books: Books, c: Command): Effect {
    if c.symbol >= |books| then Effect(books, {}, [RejectedEvent(c, UnknownSymbol)])
    else
      var b, k := books[c.symbol], ForSymbol(cfg, c.symbol);
      var z := FastApply(k, b, c);
      Effect(books[c.symbol := z.book], LeftBehind(k, b, c) + Notes(z.events), z.events)
  }

  function Batch(cfg: Config, books: Books, cmds: seq<Command>): Effect {
    if cmds == [] then Effect(books, {}, [])
    else
      var before := Batch(cfg, books, cmds[..|cmds| - 1]);
      var z := Step(cfg, before.books, cmds[|cmds| - 1]);
      Effect(z.books, before.touched + z.touched, before.events + z.events)
  }

  /** A killed fill moves no level, and every command notes what it moves away from price 0. */
  lemma StepChanges(cfg: Config, books: Books, c: Command, p: Place)
    requires BooksOk(cfg, books)
    ensures var z := Step(cfg, books, c);
      && |z.books| == |books| && BooksOk(cfg, z.books)
      && (p !in z.touched && p.price != 0 ==> Resident(z.books, p) == Resident(books, p))
  {
    hide Apply, BookOk, Missed;
    if c.symbol < |books| {
      var b, k := books[c.symbol], ForSymbol(cfg, c.symbol);
      ApplyOk(k, b, c);
      if p.symbol == c.symbol && p.price != 0
      && LevelTotal(Resting(Apply(k, b, c).book, p.side), p.price) != LevelTotal(Resting(b, p.side), p.price) {
        ChangesNoted(k, b, c, p.side, p.price);
      }
    }
  }

  /** Every level whose total a batch changes, other than at price 0, is among those noted for it. */
  lemma {:induction false} BatchChanges(cfg: Config, books: Books, cmds: seq<Command>, p: Place)
    requires BooksOk(cfg, books)
    ensures var z := Batch(cfg, books, cmds);
      && |z.books| == |books| && BooksOk(cfg, z.books)
      && (p !in z.touched && p.price != 0 ==> Resident(z.books, p) == Resident(books, p))
    decreases |cmds|
  {
    hide Step, Resident, BooksOk;
    if cmds != [] {
      BatchChanges(cfg, books, cmds[..|cmds| - 1], p);
      StepChanges(cfg, Batch(cfg, books, cmds[..|cmds| - 1]).books, cmds[|cmds| - 1], p);
    }
  }

  /** What a batch changes at price 0 it also lists. */
  ghost predicate ZeroShown(cfg: Config, books: Books, cmds: seq<Command>, order: seq<Place>) {
    forall p: Place :: p.price == 0 && p !in order ==>
      Resident(Batch(cfg, books, cmds).books, p) == Resident(books, p)
  }

  // ---- totals as entries ----

  function Lookup(m: L2, p: Place): nat {
    if p in m then m[p] else 0
  }

  /** m is exactly the engine's level-2 book. */
  ghost predicate IsL2(m: L2, books: Books) {
    (forall p :: Lookup(m, p) == Total(books, p)) && forall p :: p in m ==> m[p] > 0
  }

  lemma OneL2(m: L2, m': L2, books: Books)
    requires IsL2(m, books) && IsL2(m', books)
    ensures m == m'
  {
    forall p ensures (p in m <==> p in m') && (p in m ==> m[p] == m'[p]) {
      assert Lookup(m, p) == Lookup(m', p);
    }
  }

  /** Every level entry carries the engine's own total. */
  ghost predicate Absolute(es: seq<Entry>, books: Books) {
    forall i :: 0 <= i < |es| && es[i].LevelEntry? ==> es[i].qty == Total(books, es[i].place)
  }

  ghost predicate Mentions(es: seq<Entry>, p: Place) {
    exists i :: 0 <= i < |es| && es[i] .LevelEntry? && es[i].place == p
  }

  /** Absolute totals: a mentioned level becomes the engine's, any other stays. */
  lemma {:induction false} ApplyTotals(m: L2, es: seq<Entry>, books: Books, p: Place)
    requires Absolute(es, books) && forall x :: x in m ==> m[x] > 0
    ensures Lookup(ApplyAll(m, es), p) == if Mentions(es, p) then Total(books, p) else Lookup(m, p)
    ensures forall x :: x in ApplyAll(m, es) ==> ApplyAll(m, es)[x] > 0
    decreases |es|
  {
    if es != [] {
      hide Resident;
      var m1 := ApplyEntry(m, es[0]);
      ApplyTotals(m1, es[1..], books, p);
      MentionsTail(es, p);
    }
  }

  lemma MentionsTail(es: seq<Entry>, p: Place)
    requires es != []
    ensures Mentions(es, p) <==> (es[0].LevelEntry? && es[0].place == p) || Mentions(es[1..], p)
  {
    if Mentions(es[1..], p) {
      var i :| 0 <= i < |es[1..]| && es[1..][i].LevelEntry? && es[1..][i].place == p;
      assert es[i + 1].LevelEntry? && es[i + 1].place == p;
    }
    if Mentions(es, p) {
      var i :| 0 <= i < |es| && es[i].LevelEntry? && es[i].place == p;
      assert i > 0 ==> es[1..][i - 1].place == p;
    }
  }

  /** The trades of a batch, then the new total of each level noted, in whatever order they are listed. */
  function Staged(events: seq<Event>, order: seq<Place>, books: Books): seq<Entry> {
    Trades(events) + seq(|order|, i requires 0 <= i < |order| => LevelEntry(order[i], Total(books, order[i])))
  }

  function Trades(events: seq<Event>): (es: seq<Entry>)
    ensures forall i :: 0 <= i < |es| ==> es[i].TradeEntry?
  {
    if events == [] then []
    else if events[0].kind == Trade then
      [TradeEntry(Place(events[0].symbol, events[0].side, events[0].price), events[0].qty)] + Trades(events[1..])
    else Trades(events[1..])
  }

  function CountTrades(events: seq<Event>): nat {
    if events == [] then 0 else (if events[0].kind == Trade then 1 else 0) + CountTrades(events[1..])
  }

  /** The trades published are those of the batch, each once and in their order: symbol, price and quantity, and the
      side of the order that came. */
  lemma {:induction false} TradesAre(events: seq<Event>, k: nat)
    requires k < |events|
    ensures |Trades(events)| == CountTrades(events) && CountTrades(events[..k]) <= CountTrades(events)
    ensures events[k].kind == Trade ==>
      && CountTrades(events[..k]) < |Trades(events)|
      && Trades(events)[CountTrades(events[..k])]
           == TradeEntry(Place(events[k].symbol, events[k].side, events[k].price), events[k].qty)
    decreases k
  {
    if k == 0 {
      CountIs(events);
    } else {
      TradesAre(events[1..], k - 1);
      assert events[..k][1..] == events[1..][..k - 1];
    }
  }

  lemma {:induction false} CountIs(events: seq<Event>)
    ensures |Trades(events)| == CountTrades(events)
  {
    if events != [] {
      CountIs(events[1..]);
    }
  }

  lemma StagedMentions(events: seq<Event>, order: seq<Place>, books: Books, p: Place)
    requires p in order
    ensures Mentions(Staged(events, order, books), p)
  {
    var i :| 0 <= i < |order| && order[i] == p;
    assert Staged(events, order, books)[|Trades(events)| + i].place == p;
  }

  /** A batch's entries, which may list more than was noted, carry the public book from the engine's old
      level-2 book to its new one if and only if no total moved at price 0 without being listed. */
  lemma BatchExact(cfg: Config, books: Books, cmds: seq<Command>, order: seq<Place>, m: L2)
    requires BooksOk(cfg, books) && IsL2(m, books)
    requires forall p :: p in Batch(cfg, books, cmds).touched ==> p in order
    ensures var z := Batch(cfg, books, cmds);
      IsL2(ApplyAll(m, Staged(z.events, order, z.books)), z.books) <==>
      forall p: Place :: p.price == 0 && p !in order ==> Total(z.books, p) == Total(books, p)
  {
    hide Batch, Resident, BooksOk, Trades;
    var z := Batch(cfg, books, cmds);
    var es := Staged(z.events, order, z.books);
    forall p: Place
      ensures Lookup(ApplyAll(m, es), p) == if p in order then Total(z.books, p) else Total(books, p)
      ensures p !in order && p.price != 0 ==> Total(z.books, p) == Total(books, p)
    {
      BatchChanges(cfg, books, cmds, p);
      ApplyTotals(m, es, z.books, p);
      if p in order {
        StagedMentions(z.events, order, z.books, p);
      } else {
        StagedOnly(z.events, order, z.books, p);
      }
      assert Lookup(m, p) == Total(books, p);
    }
    ApplyTotals(m, es, z.books, Place(0, Buy, 0));
  }

  lemma StagedOnly(events: seq<Event>, order: seq<Place>, books: Books, p: Place)
    requires p !in order
    ensures !Mentions(Staged(events, order, books), p)
  {
    var es := Staged(events, order, books);
    forall i | 0 <= i < |es| && es[i].LevelEntry? ensures es[i].place != p {
      assert i >= |Trades(events)| && es[i].place == order[i - |Trades(events)|];
    }
  }

  // ---- the snapshot listing ----

  /** One side of a book, best price first, from rank r on. */
  function ListSide(cfg: Config, books: Books, s: nat, side: Side, r: nat): seq<Entry>
    decreases cfg.numLevels - r
  {
    if r >= cfg.numLevels then []
    else
      var p := Place(s, side, if side == Buy then MaxPrice(cfg) - r else cfg.minPrice + r);
      (if Resident(books, p) > 0 then [LevelEntry(p, Total(books, p))] else []) + ListSide(cfg, books, s, side, r + 1)
  }

  /** Every symbol's book, both sides. */
  function ListBooks(cfg: Config, books: Books, s: nat): seq<Entry>
    decreases |books| - s
  {
    if s >= |books| then []
    else ListSide(cfg, books, s, Buy, 0) + ListSide(cfg, books, s, Sell, 0) + ListBooks(cfg, books, s + 1)
  }

  lemma MentionsConcat(a: seq<Entry>, b: seq<Entry>, p: Place)
    ensures Mentions(a + b, p) <==> Mentions(a, p) || Mentions(b, p)
  {
    if Mentions(a, p) {
      var i :| 0 <= i < |a| && a[i].LevelEntry? && a[i].place == p;
      assert (a + b)[i].place == p;
    }
    if Mentions(b, p) {
      var i :| 0 <= i < |b| && b[i].LevelEntry? && b[i].place == p;
      assert (a + b)[|a| + i].place == p;
    }
    if Mentions(a + b, p) {
      var i :| 0 <= i < |a + b| && (a + b)[i].LevelEntry? && (a + b)[i].place == p;
      assert if i < |a| then a[i].place == p else b[i - |a|].place == p;
    }
  }

  lemma {:induction false} ListSideHas(cfg: Config, books: Books, s: nat, side: Side, r: nat, px: int)
    requires r <= cfg.numLevels && Resident(books, Place(s, side, px)) > 0 && InBand(cfg, px)
    requires (if side == Buy then MaxPrice(cfg) - px else px - cfg.minPrice) >= r
    ensures Mentions(ListSide(cfg, books, s, side, r), Place(s, side, px))
    decreases cfg.numLevels - r
  {
    var p := Place(s, side, if side == Buy then MaxPrice(cfg) - r else cfg.minPrice + r);
    var first := if Resident(books, p) > 0 then [LevelEntry(p, Total(books, p))] else [];
    MentionsConcat(first, ListSide(cfg, books, s, side, r + 1), Place(s, side, px));
    if p.price == px {
      assert first[0].place == Place(s, side, px);
    } else {
      ListSideHas(cfg, books, s, side, r + 1, px);
    }
  }

  lemma {:induction false} ListSideAbsolute(cfg: Config, books: Books, s: nat, side: Side, r: nat)
    ensures Absolute(ListSide(cfg, books, s, side, r), books)
    decreases cfg.numLevels - r
  {
    if r < cfg.numLevels {
      ListSideAbsolute(cfg, books, s, side, r + 1);
    }
  }

  lemma {:induction false} ListBooksAbsolute(cfg: Config, books: Books, s: nat)
    ensures Absolute(ListBooks(cfg, books, s), books)
    decreases |books| - s
  {
    if s < |books| {
      ListSideAbsolute(cfg, books, s, Buy, 0);
      ListSideAbsolute(cfg, books, s, Sell, 0);
      ListBooksAbsolute(cfg, books, s + 1);
    }
  }

  lemma {:induction false} ListBooksHas(cfg: Config, books: Books, s: nat, p: Place)
    requires s <= p.symbol < |books| && Resident(books, p) > 0 && InBand(cfg, p.price)
    ensures Mentions(ListBooks(cfg, books, s), p)
    decreases |books| - s
  {
    hide Resident;
    var buys, sells := ListSide(cfg, books, s, Buy, 0), ListSide(cfg, books, s, Sell, 0);
    var rest := ListBooks(cfg, books, s + 1);
    MentionsConcat(buys + sells, rest, p);
    MentionsConcat(buys, sells, p);
    if p.symbol == s {
      ListSideHas(cfg, books, s, p.side, 0, p.price);
    } else {
      ListBooksHas(cfg, books, s + 1, p);
    }
  }

  lemma TotalInBand(cfg: Config, books: Books, p: Place)
    requires BooksOk(cfg, books) && Resident(books, p) > 0
    ensures p.symbol < |books| && InBand(cfg, p.price)
  {
    var q := Resting(books[p.symbol], p.side);
    assert BookOk(ForSymbol(cfg, p.symbol), books[p.symbol]);
    if forall k :: 0 <= k < |q| ==> q[k].price != p.price {
      NoneAt(q, p.price);
      assert false;
    }
  }

  /** The listing rebuilds the engine's level-2 book from nothing. */
  lemma ListExact(cfg: Config, books: Books)
    requires BooksOk(cfg, books)
    ensures IsL2(ApplyAll(map[], ListBooks(cfg, books, 0)), books)
  {
    hide Resident, BooksOk;
    var es := ListBooks(cfg, books, 0);
    ListBooksAbsolute(cfg, books, 0);
    forall p ensures Lookup(ApplyAll(map[], es), p) == Total(books, p) {
      ApplyTotals(map[], es, books, p);
      if Total(books, p) > 0 {
        TotalInBand(cfg, books, p);
        ListBooksHas(cfg, books, 0, p);
      }
    }
    ApplyTotals(map[], es, books, Place(0, Buy, 0));
  }

  /** The listing depends on the level totals alone. */
  lemma {:induction false} ListSideSame(cfg: Config, books: Books, books': Books, s: nat, side: Side, r: nat)
    requires forall p :: Resident(books', p) == Resident(books, p)
    ensures ListSide(cfg, books', s, side, r) == ListSide(cfg, books, s, side, r)
    decreases cfg.numLevels - r
  {
    hide Resident;
    if r < cfg.numLevels {
      ListSideSame(cfg, books, books', s, side, r + 1);
    }
  }

  lemma {:induction false} ListSame(cfg: Config, books: Books, books': Books, s: nat)
    requires |books'| == |books| && forall p :: Resident(books', p) == Resident(books, p)
    ensures ListBooks(cfg, books', s) == ListBooks(cfg, books, s)
    decreases |books| - s
  {
    hide Resident;
    if s < |books| {
      ListSideSame(cfg, books, books', s, Buy, 0);
      ListSideSame(cfg, books, books', s, Sell, 0);
      ListSame(cfg, books, books', s + 1);
    }
  }

  // ---- whole runs ----

  /** `marks` remembers the engine's books at the last packet of each batch; `net` holds every packet ever
      sent. */
  datatype System = System(books: Books, pub: MdPub, feed: Feed, marks: map<nat, Books>, net: set<MdPacket>, sub: MdSub)

  /** A batch is of the commands that passed the risk gate; `order` lists at least the levels noted for them, and
      may list those of a modify the gate refused. */
  datatype Move =
    | CommitBatch(cmds: seq<Command>, order: seq<Place>)
    | Beat
    | Finish
    | Arrive(p: MdPacket)

  function Sent(ps: seq<MdPacket>): set<MdPacket> {
    set k | 0 <= k < |ps| :: ps[k]
  }

  /** A publisher that starts with the engine as recovered, and a subscriber that has heard nothing. */
  function Init(cfg: Config, books: Books, every: nat): System {
    System(books, MdPub(every, 0, 0, []), Feed(ApplyAll(map[], ListBooks(cfg, books, 0)), [], map[]), map[], {},
           NewMdSub)
  }

  ghost predicate Can(cfg: Config, sys: System, m: Move) {
    match m
    case CommitBatch(cmds, order) => forall p :: p in Batch(cfg, sys.books, cmds).touched ==> p in order
    case Arrive(p) => p in sys.net
    case _ => true
  }

  function Do(cfg: Config, sys: System, m: Move): System {
    match m
    case CommitBatch(cmds, order) =>
      var z := Batch(cfg, sys.books, cmds);
      var pub := sys.pub.(staged := Staged(z.events, order, z.books));
      var all := ListBooks(cfg, z.books, 0);
      var (pub', sent) := FlushS(pub, all);
      var feed := FeedAfter(sys.feed, Cut(pub.staged), if SnapshotDue(pub) then Some(SnapParts(all)) else None);
      sys.(books := z.books, pub := pub', feed := feed, marks := sys.marks[pub'.seq_ := z.books],
           net := sys.net + Sent(sent))
    case Beat => sys.(net := sys.net + {Heartbeat(sys.pub.seq_)})
    case Finish =>
      var parts := SnapParts(ListBooks(cfg, sys.books, 0));
      sys.(pub := sys.pub.(sinceSnapshot := 0), feed := FeedAfter(sys.feed, [], Some(parts)),
           net := sys.net + Sent(SnapPackets(sys.pub.seq_, parts)) + {End(sys.pub.seq_)})
    case Arrive(p) => sys.(sub := OnPacketS(sys.sub, p))
  }

  /** The feed with more packets, and perhaps a snapshot at its new end. */
  function FeedAfter(f: Feed, cs: seq<seq<Entry>>, snap: Option<seq<seq<Entry>>>): Feed {
    var f1 := f.(history := f.history + cs);
    match snap
    case Some(parts) => f1.(snaps := f1.snaps[|f1.history| := parts])
    case None => f1
  }

  /** What keeps the feed exact: a batch lists what it changes at price 0, and a snapshot's listing fits the
      16 bits in which its parts are counted. */
  ghost predicate Shows(cfg: Config, sys: System, m: Move) {
    match m
    case CommitBatch(cmds, order) =>
      var z := Batch(cfg, sys.books, cmds);
      && ZeroShown(cfg, sys.books, cmds, order)
      && (SnapshotDue(sys.pub.(staged := Staged(z.events, order, z.books))) ==>
            |ListBooks(cfg, z.books, 0)| <= SNAPSHOT_MAX)
    case Finish => |ListBooks(cfg, sys.books, 0)| <= SNAPSHOT_MAX
    case _ => true
  }

  ghost predicate Inv(cfg: Config, sys: System) {
    && BooksOk(cfg, sys.books) && sys.pub.seq_ == |sys.feed.history| && sys.pub.staged == []
    && IsL2(Shadow(sys.feed, |sys.feed.history|), sys.books)
    && FeedOk(sys.feed) && MdOk(sys.sub, sys.feed)
    && (|sys.feed.history| in sys.feed.snaps ==>
         sys.feed.snaps[|sys.feed.history|] == SnapParts(ListBooks(cfg, sys.books, 0)))
    && (forall n :: n in sys.marks ==> n <= |sys.feed.history| && IsL2(Shadow(sys.feed, n), sys.marks[n]))
    && forall p :: p in sys.net ==> Told(sys.feed, p)
  }

  lemma InitOk(cfg: Config, books: Books, every: nat)
    requires BooksOk(cfg, books)
    ensures Inv(cfg, Init(cfg, books, every))
  {
    ListExact(cfg, books);
  }

  /** More packets, ending at the engine's level-2 book, and perhaps a snapshot of it. */
  lemma FeedAfterOk(cfg: Config, books: Books, f: Feed, cs: seq<seq<Entry>>, snap: Option<seq<seq<Entry>>>)
    requires BooksOk(cfg, books) && FeedOk(f) && IsL2(ApplyAll(Shadow(f, |f.history|), Flat(cs)), books)
    requires snap.Some? ==>
      snap.value == SnapParts(ListBooks(cfg, books, 0)) && |ListBooks(cfg, books, 0)| <= SNAPSHOT_MAX
    requires cs == [] && snap.Some? && |f.history| in f.snaps ==> f.snaps[|f.history|] == snap.value
    ensures var g := FeedAfter(f, cs, snap);
      FeedGrows(f, g) && FeedOk(g) && IsL2(Shadow(g, |g.history|), books)
  {
    hide BooksOk, IsL2, ListBooks, Shadow, SnapParts;
    var g := FeedAfter(f, cs, snap);
    assert g.history[..|f.history|] == f.history;
    forall n: nat | n in f.snaps ensures n in g.snaps && g.snaps[n] == f.snaps[n] {
      assert SnapOk(f, n, f.snaps[n]);
    }
    EndShadow(f, g, cs);
    forall n: nat | n in g.snaps ensures SnapOk(g, n, g.snaps[n]) {
      if n in f.snaps {
        assert SnapOk(f, n, f.snaps[n]);
        ShadowGrows(f, g, n);
      } else {
        ListedSnapOk(cfg, books, g);
      }
    }
  }

  lemma {:induction false} ApplyPacketsConcat(b: L2, x: seq<seq<Entry>>, y: seq<seq<Entry>>)
    ensures ApplyPackets(b, x + y) == ApplyPackets(ApplyPackets(b, x), y)
    decreases |y|
  {
    if y == [] {
      assert x + y == x;
    } else {
      assert (x + y)[..|x + y| - 1] == x + y[..|y| - 1];
      ApplyPacketsConcat(b, x, y[..|y| - 1]);
    }
  }

  lemma EndShadow(f: Feed, g: Feed, cs: seq<seq<Entry>>)
    requires g.base == f.base && g.history == f.history + cs
    ensures Shadow(g, |g.history|) == ApplyAll(Shadow(f, |f.history|), Flat(cs))
  {
    assert g.history[..|g.history|] == g.history && f.history[..|f.history|] == f.history;
    ApplyPacketsConcat(f.base, f.history, cs);
    ApplyFlat(ApplyPackets(f.base, f.history), cs);
  }

  lemma ListedSnapOk(cfg: Config, books: Books, g: Feed)
    requires BooksOk(cfg, books) && IsL2(Shadow(g, |g.history|), books)
    requires |ListBooks(cfg, books, 0)| <= SNAPSHOT_MAX
    ensures SnapOk(g, |g.history|, SnapParts(ListBooks(cfg, books, 0)))
  {
    hide BooksOk, IsL2, ListBooks, Shadow;
    var all := ListBooks(cfg, books, 0);
    SnapCarries(all);
    CutFlat(all);
    ApplyFlat(map[], Cut(all));
    ListExact(cfg, books);
    OneL2(ApplyAll(map[], all), Shadow(g, |g.history|), books);
    if all == [] {
      var blank: seq<seq<Entry>> := [[]];
      assert blank[..0] == [];
      assert ApplyPackets(map[], blank) == ApplyAll(ApplyPackets(map[], blank[..0]), []);
    }
  }

  lemma {:induction false} NumberedTold(f: Feed, n: nat, cs: seq<seq<Entry>>)
    requires n + |cs| <= |f.history| && forall i :: 0 <= i < |cs| ==> f.history[n + i] == cs[i]
    ensures forall p :: p in Sent(Numbered(n, cs)) ==> Told(f, p)
    decreases |cs|
  {
    if cs != [] {
      forall i | 0 <= i < |cs[1..]| ensures f.history[n + 1 + i] == cs[1..][i] {
        assert f.history[n + (i + 1)] == cs[i + 1];
      }
      NumberedTold(f, n + 1, cs[1..]);
      var ps := Numbered(n, cs);
      assert f.history[n + 0] == cs[0];
      forall p | p in Sent(ps) ensures Told(f, p) {
        var k :| 0 <= k < |ps| && ps[k] == p;
        if k > 0 {
          assert ps[1..] == Numbered(n + 1, cs[1..]);
          assert Numbered(n + 1, cs[1..])[k - 1] in Sent(Numbered(n + 1, cs[1..]));
        }
      }
    }
  }

  lemma SnapTold(f: Feed, n: nat)
    requires n in f.snaps
    ensures forall p :: p in Sent(SnapPackets(n, f.snaps[n])) ==> Told(f, p)
  {
  }

  lemma SentConcat(a: seq<MdPacket>, b: seq<MdPacket>)
    ensures Sent(a + b) == Sent(a) + Sent(b)
  {
    forall p ensures p in Sent(a + b) <==> p in Sent(a) + Sent(b) {
      if p in Sent(b) {
        var k :| 0 <= k < |b| && b[k] == p;
        assert (a + b)[|a| + k] == p;
      }
      if p in Sent(a) {
        var k :| 0 <= k < |a| && a[k] == p;
        assert (a + b)[k] == p;
      }
    }
  }

  /** A system whose feed has grown, with packets of the new feed. */
  lemma Carried(cfg: Config, sys: System, g: Feed, books: Books, pub: MdPub, marks: map<nat, Books>,
                sent: set<MdPacket>)
    requires Inv(cfg, sys) && FeedGrows(sys.feed, g) && FeedOk(g) && BooksOk(cfg, books)
    requires IsL2(Shadow(g, |g.history|), books)
    requires pub.seq_ == |g.history| && pub.staged == []
    requires |g.history| in g.snaps ==> g.snaps[|g.history|] == SnapParts(ListBooks(cfg, books, 0))
    requires marks == sys.marks || marks == sys.marks[|g.history| := books]
    requires forall p :: p in sent ==> Told(g, p)
    ensures Inv(cfg, System(books, pub, g, marks, sys.net + sent, sys.sub))
  {
    hide BooksOk, IsL2, ListBooks, Shadow, SnapParts, FeedOk, Told, MdOk;
    MdGrows(sys.sub, sys.feed, g);
    forall p | p in sys.net ensures Told(g, p) {
      ToldGrows(sys.feed, g, p);
    }
    forall n | n in marks ensures n <= |g.history| && IsL2(Shadow(g, n), marks[n]) {
      if marks[n] != books || n != |g.history| {
        ShadowGrows(sys.feed, g, n);
      }
    }
  }

  lemma CommitBatchOk(cfg: Config, sys: System, cmds: seq<Command>, order: seq<Place>)
    requires Inv(cfg, sys) && Can(cfg, sys, CommitBatch(cmds, order)) && Shows(cfg, sys, CommitBatch(cmds, order))
    ensures Inv(cfg, Do(cfg, sys, CommitBatch(cmds, order)))
  {
    hide BooksOk, IsL2, ListBooks, Shadow, SnapParts, FeedOk, Told, MdOk, Batch, Staged, Sent, Cut, Resident;
    var z := Batch(cfg, sys.books, cmds);
    var staged := Staged(z.events, order, z.books);
    var pub := sys.pub.(staged := staged);
    var all := ListBooks(cfg, z.books, 0);
    var cs := Cut(staged);
    var snap := if SnapshotDue(pub) then Some(SnapParts(all)) else None;
    var g := FeedAfter(sys.feed, cs, snap);
    BatchChanges(cfg, sys.books, cmds, Place(0, Buy, 0));
    BatchExact(cfg, sys.books, cmds, order, Shadow(sys.feed, |sys.feed.history|));
    CutFlat(staged);
    QuietBatch(cfg, sys.books, cmds, order);
    FeedAfterOk(cfg, z.books, sys.feed, cs, snap);
    NumberedTold(g, |sys.feed.history|, cs);
    OldSnaps(sys.feed);
    var (pub', sent) := FlushS(pub, all);
    if snap.Some? {
      SnapTold(g, |g.history|);
      SentConcat(Numbered(sys.pub.seq_, cs), SnapPackets(|g.history|, SnapParts(all)));
    }
    Carried(cfg, sys, g, z.books, pub', sys.marks[|g.history| := z.books], Sent(sent));
  }

  lemma OldSnaps(f: Feed)
    requires FeedOk(f)
    ensures forall n: nat :: n in f.snaps ==> n <= |f.history|
  {
    forall n: nat | n in f.snaps ensures n <= |f.history| {
      assert SnapOk(f, n, f.snaps[n]);
    }
  }

  /** A batch that stages nothing changed no level. */
  lemma QuietBatch(cfg: Config, books: Books, cmds: seq<Command>, order: seq<Place>)
    requires BooksOk(cfg, books) && ZeroShown(cfg, books, cmds, order)
    requires forall p :: p in Batch(cfg, books, cmds).touched ==> p in order
    ensures var z := Batch(cfg, books, cmds);
      Cut(Staged(z.events, order, z.books)) == [] ==> ListBooks(cfg, z.books, 0) == ListBooks(cfg, books, 0)
  {
    hide BooksOk, Batch, Resident;
    var z := Batch(cfg, books, cmds);
    if Cut(Staged(z.events, order, z.books)) == [] {
      assert order == [];
      BatchChanges(cfg, books, cmds, Place(0, Buy, 0));
      forall p ensures Resident(z.books, p) == Resident(books, p) {
        BatchChanges(cfg, books, cmds, p);
      }
      ListSame(cfg, books, z.books, 0);
    }
  }

  lemma FinishOk(cfg: Config, sys: System)
    requires Inv(cfg, sys) && Shows(cfg, sys, Finish)
    ensures Inv(cfg, Do(cfg, sys, Finish))
  {
    hide BooksOk, IsL2, ListBooks, Shadow, SnapParts, FeedOk, MdOk, Sent;
    var parts := SnapParts(ListBooks(cfg, sys.books, 0));
    var g := FeedAfter(sys.feed, [], Some(parts));
    assert Flat([]) == [] && sys.feed.history + [] == sys.feed.history;
    FeedAfterOk(cfg, sys.books, sys.feed, [], Some(parts));
    SnapTold(g, |g.history|);
    var pub := sys.pub.(sinceSnapshot := 0);
    Carried(cfg, sys, g, sys.books, pub, sys.marks, Sent(SnapPackets(sys.pub.seq_, parts)) + {End(sys.pub.seq_)});
    assert sys.net + Sent(SnapPackets(sys.pub.seq_, parts)) + {End(sys.pub.seq_)}
        == sys.net + (Sent(SnapPackets(sys.pub.seq_, parts)) + {End(sys.pub.seq_)});
  }

  lemma MoveOk(cfg: Config, sys: System, m: Move)
    requires Inv(cfg, sys) && Can(cfg, sys, m) && Shows(cfg, sys, m)
    ensures Inv(cfg, Do(cfg, sys, m))
  {
    match m
    case CommitBatch(cmds, order) =>
      CommitBatchOk(cfg, sys, cmds, order);
    case Beat =>
    case Finish =>
      FinishOk(cfg, sys);
    case Arrive(p) =>
      OnPacketOk(sys.sub, p, sys.feed);
  }

  /** Any run; moves that cannot be made do nothing. */
  ghost function Run(cfg: Config, books: Books, every: nat, moves: seq<Move>): System {
    if moves == [] then Init(cfg, books, every)
    else
      var before := Run(cfg, books, every, moves[..|moves| - 1]);
      var m := moves[|moves| - 1];
      if Can(cfg, before, m) then Do(cfg, before, m) else before
  }

  ghost predicate AllShown(cfg: Config, books: Books, every: nat, moves: seq<Move>) {
    moves == [] ||
    (var before, m := moves[..|moves| - 1], moves[|moves| - 1];
     AllShown(cfg, books, every, before)
       && (Can(cfg, Run(cfg, books, every, before), m) ==> Shows(cfg, Run(cfg, books, every, before), m)))
  }

  lemma {:induction false} RunOk(cfg: Config, books: Books, every: nat, moves: seq<Move>)
    requires BooksOk(cfg, books) && AllShown(cfg, books, every, moves)
    ensures Inv(cfg, Run(cfg, books, every, moves))
    decreases |moves|
  {
    hide Inv, Can, Do, BooksOk, Init, Shows;
    if moves == [] {
      InitOk(cfg, books, every);
    } else {
      var before, m := moves[..|moves| - 1], moves[|moves| - 1];
      RunOk(cfg, books, every, before);
      if Can(cfg, Run(cfg, books, every, before), m) {
        MoveOk(cfg, Run(cfg, books, every, before), m);
      }
    }
  }

  /** In every run that shows what it changes: a subscriber synced at the last packet of a batch holds the
      engine's level-2 book as it was then; one synced at the publisher's own number holds the book as it is. */
  lemma SyncedIsExact(cfg: Config, books: Books, every: nat, moves: seq<Move>)
    requires BooksOk(cfg, books) && AllShown(cfg, books, every, moves)
    ensures SyncedExactly(Run(cfg, books, every, moves))
  {
    hide Run;
    RunOk(cfg, books, every, moves);
  }

  ghost predicate SyncedExactly(sys: System) {
    && (sys.sub.synced && sys.sub.seq_ in sys.marks ==> IsL2(sys.sub.books, sys.marks[sys.sub.seq_]))
    && (sys.sub.synced && sys.sub.seq_ == sys.pub.seq_ ==> IsL2(sys.sub.books, sys.books))
  }

  // ---- runs that show what they change ----

  ghost predicate AllZeroFree(books: Books) {
    forall s :: 0 <= s < |books| ==> ZeroFree(books[s])
  }

  lemma BatchZeroFree(cfg: Config, books: Books, cmds: seq<Command>)
    requires AllZeroFree(books) && forall k :: 0 <= k < |cmds| ==> !PricedZero(cmds[k])
    ensures AllZeroFree(Batch(cfg, books, cmds).books)
    decreases |cmds|
  {
    hide Apply, ZeroFree, Missed;
    if cmds != [] {
      var c, before := cmds[|cmds| - 1], Batch(cfg, books, cmds[..|cmds| - 1]).books;
      BatchZeroFree(cfg, books, cmds[..|cmds| - 1]);
      if c.symbol < |before| {
        ApplyOff(ForSymbol(cfg, c.symbol), before[c.symbol], c);
      }
    }
  }

  lemma ZeroFreeResident(cfg: Config, books: Books, p: Place)
    requires BooksOk(cfg, books) && AllZeroFree(books) && p.price == 0
    ensures Resident(books, p) == 0
  {
    hide BookOk, ZeroFree;
    if p.symbol < |books| {
      ZeroFreeIff(ForSymbol(cfg, p.symbol), books[p.symbol]);
    }
  }

  /** Outside the band nothing rests at price 0. */
  lemma OutOfBandZeroFree(cfg: Config, books: Books)
    requires BooksOk(cfg, books) && !InBand(cfg, 0)
    ensures AllZeroFree(books)
  {
    forall s | 0 <= s < |books| ensures ZeroFree(books[s]) {
      assert BookOk(ForSymbol(cfg, s), books[s]);
    }
  }

  /** Engines between runs of commands stay sound, whatever the feed shows. */
  lemma {:induction false} RunBooks(cfg: Config, books: Books, every: nat, moves: seq<Move>)
    requires BooksOk(cfg, books)
    ensures BooksOk(cfg, Run(cfg, books, every, moves).books)
      && |Run(cfg, books, every, moves).books| == |books|
    decreases |moves|
  {
    hide BooksOk, Batch, ListBooks, Can, FlushS, OnPacketS;
    if moves != [] {
      var before, m := Run(cfg, books, every, moves[..|moves| - 1]), moves[|moves| - 1];
      RunBooks(cfg, books, every, moves[..|moves| - 1]);
      if m.CommitBatch? {
        BatchChanges(cfg, before.books, m.cmds, Place(0, Buy, 0));
      }
    }
  }

  /** After every move of the run, nothing rests at price 0. */
  ghost predicate ZeroFreeAlong(cfg: Config, books: Books, every: nat, moves: seq<Move>) {
    && AllZeroFree(Run(cfg, books, every, moves).books)
    && (moves != [] ==> ZeroFreeAlong(cfg, books, every, moves[..|moves| - 1]))
  }

  /** Such runs show all they change, over any number of levels a snapshot can carry. */
  lemma {:induction false} ZeroFreeShows(cfg: Config, books: Books, every: nat, moves: seq<Move>)
    requires BooksOk(cfg, books) && ZeroFreeAlong(cfg, books, every, moves)
    requires |books| * cfg.numLevels <= SNAPSHOT_MAX
    ensures AllShown(cfg, books, every, moves)
    decreases |moves|
  {
    hide BooksOk, AllZeroFree, Run, Can, ZeroShown;
    if moves != [] {
      var t, m := moves[..|moves| - 1], moves[|moves| - 1];
      ZeroFreeShows(cfg, books, every, t);
      RunBooks(cfg, books, every, t);
      var sys := Run(cfg, books, every, t);
      ListShort(cfg, sys.books);
      if m.CommitBatch? && Can(cfg, sys, m) {
        RunLast(cfg, books, every, moves);
        RunBooks(cfg, books, every, moves);
        BothZeroFree(cfg, sys.books, m.cmds, m.order);
        ListShort(cfg, Batch(cfg, sys.books, m.cmds).books);
      }
    }
  }

  lemma RunLast(cfg: Config, books: Books, every: nat, moves: seq<Move>)
    requires moves != []
    ensures var before, m := Run(cfg, books, every, moves[..|moves| - 1]), moves[|moves| - 1];
      m.CommitBatch? && Can(cfg, before, m) ==>
        Run(cfg, books, every, moves).books == Batch(cfg, before.books, m.cmds).books
  {
    hide Batch, ListBooks, Can, FlushS;
  }

  lemma BothZeroFree(cfg: Config, books: Books, cmds: seq<Command>, order: seq<Place>)
    requires BooksOk(cfg, books) && AllZeroFree(books) && AllZeroFree(Batch(cfg, books, cmds).books)
    ensures ZeroShown(cfg, books, cmds, order)
  {
    hide BooksOk, AllZeroFree, Batch, Resident;
    BatchChanges(cfg, books, cmds, Place(0, Buy, 0));
    forall p: Place | p.price == 0 ensures Resident(Batch(cfg, books, cmds).books, p) == Resident(books, p) {
      ZeroFreeResident(cfg, books, p);
      ZeroFreeResident(cfg, Batch(cfg, books, cmds).books, p);
    }
  }

  /** No command of the run asks to rest at price 0. */
  ghost predicate NonePricedZero(moves: seq<Move>) {
    forall i, k :: 0 <= i < |moves| && moves[i].CommitBatch? && 0 <= k < |moves[i].cmds| ==>
      !PricedZero(moves[i].cmds[k])
  }

  lemma {:induction false} StaysZeroFree(cfg: Config, books: Books, every: nat, moves: seq<Move>)
    requires AllZeroFree(books) && NonePricedZero(moves)
    ensures ZeroFreeAlong(cfg, books, every, moves)
    decreases |moves|
  {
    hide AllZeroFree, Batch, ListBooks, Can, FlushS, OnPacketS;
    if moves != [] {
      var t, m := moves[..|moves| - 1], moves[|moves| - 1];
      StaysZeroFree(cfg, books, every, t);
      if m.CommitBatch? {
        assert m == moves[|moves| - 1];
        BatchZeroFree(cfg, Run(cfg, books, every, t).books, m.cmds);
      }
    }
  }

  lemma {:induction false} OutOfBandAlong(cfg: Config, books: Books, every: nat, moves: seq<Move>)
    requires BooksOk(cfg, books) && !InBand(cfg, 0)
    ensures ZeroFreeAlong(cfg, books, every, moves)
    decreases |moves|
  {
    hide BooksOk, AllZeroFree, Run;
    RunBooks(cfg, books, every, moves);
    OutOfBandZeroFree(cfg, Run(cfg, books, every, moves).books);
    if moves != [] {
      OutOfBandAlong(cfg, books, every, moves[..|moves| - 1]);
    }
  }

  /** The feed in any configuration: price 0 is outside the band, or nothing rests there at first and no order is
      priced 0; and the bands of all symbols together have no more levels than a snapshot carries. Then a synced
      subscriber is exact in every run. */
  lemma PlainRunsExact(cfg: Config, books: Books, every: nat, moves: seq<Move>)
    requires BooksOk(cfg, books) && |books| * cfg.numLevels <= SNAPSHOT_MAX
    requires !InBand(cfg, 0) || (AllZeroFree(books) && NonePricedZero(moves))
    ensures SyncedExactly(Run(cfg, books, every, moves))
  {
    hide Run, BooksOk, AllZeroFree, NonePricedZero;
    if !InBand(cfg, 0) {
      OutOfBandAlong(cfg, books, every, moves);
    } else {
      StaysZeroFree(cfg, books, every, moves);
    }
    ZeroFreeShows(cfg, books, every, moves);
    SyncedIsExact(cfg, books, every, moves);
  }

  // ---- how long a listing can be ----

  function PriceAt(cfg: Config, side: Side, r: nat): int {
    if side == Buy then MaxPrice(cfg) - r else cfg.minPrice + r
  }

  lemma {:induction false} SideShort(cfg: Config, books: Books, s: nat, side: Side, r: nat, first: nat)
    requires forall k: nat :: r <= k < first ==> Resident(books, Place(s, side, PriceAt(cfg, side, k))) == 0
    requires first <= cfg.numLevels
    ensures |ListSide(cfg, books, s, side, r)|
      <= cfg.numLevels - (if r < first then first else if r < cfg.numLevels then r else cfg.numLevels)
    decreases cfg.numLevels - r
  {
    hide Resident;
    if r < cfg.numLevels {
      SideShort(cfg, books, s, side, r + 1, first);
      assert Place(s, side, PriceAt(cfg, side, r)).price == PriceAt(cfg, side, r);
    }
  }

  /** No price has levels on both sides. */
  lemma BookShort(cfg: Config, books: Books, s: nat)
    requires BooksOk(cfg, books) && s < |books|
    ensures |ListSide(cfg, books, s, Buy, 0)| + |ListSide(cfg, books, s, Sell, 0)| <= cfg.numLevels
  {
    hide ListSide;
    var b := books[s];
    assert BookOk(ForSymbol(cfg, s), b);
    var ask := if b.asks == [] then MaxPrice(cfg) + 1 else b.asks[0].price;
    forall k: nat | k < ask - cfg.minPrice
      ensures Resident(books, Place(s, Sell, PriceAt(cfg, Sell, k))) == 0
    {
      NoneAt(b.asks, PriceAt(cfg, Sell, k));
    }
    forall k: nat | k < MaxPrice(cfg) + 1 - ask
      ensures Resident(books, Place(s, Buy, PriceAt(cfg, Buy, k))) == 0
    {
      NoneAt(b.bids, PriceAt(cfg, Buy, k));
    }
    SideShort(cfg, books, s, Sell, 0, ask - cfg.minPrice);
    SideShort(cfg, books, s, Buy, 0, MaxPrice(cfg) + 1 - ask);
  }

  lemma {:induction false} ListShortFrom(cfg: Config, books: Books, s: nat)
    requires BooksOk(cfg, books) && s <= |books|
    ensures |ListBooks(cfg, books, s)| <= (|books| - s) * cfg.numLevels
    decreases |books| - s
  {
    hide ListSide, BooksOk;
    if s < |books| {
      BookShort(cfg, books, s);
      ListShortFrom(cfg, books, s + 1);
      assert (|books| - s) * cfg.numLevels == (|books| - s - 1) * cfg.numLevels + cfg.numLevels;
    }
  }

  /** A listing is no longer than the bands of all symbols together. */
  lemma ListShort(cfg: Config, books: Books)
    requires BooksOk(cfg, books)
    ensures |ListBooks(cfg, books, 0)| <= |books| * cfg.numLevels
  {
    ListShortFrom(cfg, books, 0);
  }

  // ---- with price 0 in the band ----

  lemma Then(cfg: Config, books: Books, every: nat, moves: seq<Move>, m: Move)
    requires Can(cfg, Run(cfg, books, every, moves), m)
    ensures Run(cfg, books, every, moves + [m]) == Do(cfg, Run(cfg, books, every, moves), m)
  {
    hide Can, Do;
    assert (moves + [m])[..|moves|] == moves;
  }

  lemma {:induction false} EmptySide(cfg: Config, side: Side, r: nat)
    ensures ListSide(cfg, [EmptyBook], 0, side, r) == []
    decreases cfg.numLevels - r
  {
    if r < cfg.numLevels {
      EmptySide(cfg, side, r + 1);
    }
  }

  lemma EmptyListing(cfg: Config)
    ensures ListBooks(cfg, [EmptyBook], 0) == []
  {
    hide ListSide;
    EmptySide(cfg, Buy, 0);
    EmptySide(cfg, Sell, 0);
    assert ListBooks(cfg, [EmptyBook], 1) == [];
  }

  /** A snapshot of an empty book syncs a newcomer at once. */
  lemma EmptySnapshot()
    ensures OnPacketS(NewMdSub, Snapshot(0, 0, 1, []))
      == NewMdSub.(synced := true, snapId := 0, snapParts := [[Filler]], snapHave := 1)
  {
    var s := NewMdSub.(snapId := 0, snapParts := [[Filler]], snapHave := 1);
    assert Blanks(1)[0 := [Filler]] == [[Filler]];
    assert [[Filler]][..0] == [] && [Filler][1..] == [];
    assert ApplyPackets(map[], [[Filler]]) == ApplyAll(ApplyPackets(map[], [[Filler]][..0]), [Filler]);
    assert ApplyAll(map[], [Filler]) == ApplyAll(ApplyEntry(map[], Filler), [Filler][1..]);
    assert DropOld(map[], 0) == map[];
  }

  function ZeroBid(id: nat, qty: nat): Command {
    Command(NewOrder, id, 0, qty, 0, 0, Buy, Limit, Day, 0, 0, 0)
  }

  /** An order at price 0 is a batch that notes nothing. */
  lemma ZeroBatch(cfg: Config, id: nat, qty: nat)
    requires InBand(cfg, 0) && cfg.maxOrders > 0 && id > 0 && qty > 0
    ensures var z := Batch(cfg, [EmptyBook], [ZeroBid(id, qty)]);
      z.touched == {} && Trades(z.events) == [] && z.books == [Book([Order(id, qty, 0, 0)], [])]
  {
    var c, k := ZeroBid(id, qty), ForSymbol(cfg, 0);
    PriceZeroUnnoted(k, id, qty);
    var z := Apply(k, EmptyBook, c);
    assert z == Outcome(Book([Order(id, qty, 0, 0)], []), [AcceptedEvent(0, id, Buy, 0, qty)]);
    NotesOne(z.events[0]);
    assert [c][..0] == [];
    assert Batch(cfg, [EmptyBook], [c][..0]) == Effect([EmptyBook], {}, []);
    assert [] + z.events == z.events;
    assert z.events[1..] == [];
  }

  /** With price 0 in the band the promise fails: after this run the subscriber is synced at the last packet
      and its book lacks the level at price 0. */
  lemma WrongAtZero(cfg: Config, id: nat, qty: nat)
    requires InBand(cfg, 0) && cfg.maxOrders > 0 && id > 0 && 0 < qty < U64
    ensures var moves := [Finish, Arrive(Snapshot(0, 0, 1, [])), CommitBatch([ZeroBid(id, qty)], [])];
      var sys := Run(cfg, [EmptyBook], 0, moves);
      && sys.sub.synced && sys.sub.seq_ == sys.pub.seq_ && sys.sub.seq_ in sys.marks
      && sys.marks[sys.sub.seq_] == sys.books && !IsL2(sys.sub.books, sys.books)
  {
    hide Run, Batch, ListBooks, OnPacketS, Apply;
    var books, p, c := [EmptyBook], Snapshot(0, 0, 1, []), ZeroBid(id, qty);
    var t0: seq<Move> := [];
    assert Run(cfg, books, 0, t0) == Init(cfg, books, 0) by { StartsAt(cfg, books, 0); }
    EmptyListing(cfg);
    SnapCarries([]);
    Then(cfg, books, 0, t0, Finish);
    var t1 := t0 + [Finish];
    assert SnapPackets(0, [[]])[0] == p;
    assert p in Sent(SnapPackets(0, [[]]));
    Then(cfg, books, 0, t1, Arrive(p));
    EmptySnapshot();
    var t2 := t1 + [Arrive(p)];
    ZeroBatch(cfg, id, qty);
    assert Run(cfg, books, 0, t2).books == books;
    assert Batch(cfg, books, [c]).touched == {};
    Then(cfg, books, 0, t2, CommitBatch([c], []));
    var sys := Run(cfg, books, 0, t2 + [CommitBatch([c], [])]);
    assert sys.books == [Book([Order(id, qty, 0, 0)], [])];
    TotalOne(Order(id, qty, 0, 0), 0);
    assert Total(sys.books, Place(0, Buy, 0)) == qty && Lookup(sys.sub.books, Place(0, Buy, 0)) == 0;
    assert t2 + [CommitBatch([c], [])] == [Finish, Arrive(p), CommitBatch([c], [])];
  }

  lemma StartsAt(cfg: Config, books: Books, every: nat)
    ensures Run(cfg, books, every, []) == Init(cfg, books, every)
  {
  }

  // ---- a listing too long for its snapshot ----

  /** The rank of a price on its side. */
  function RankIn(cfg: Config, side: Side, px: int): int {
    if side == Buy then MaxPrice(cfg) - px else px - cfg.minPrice
  }

  /** Level entries only, each of a level of its own. */
  ghost predicate Listed(l: seq<Entry>) {
    && (forall i :: 0 <= i < |l| ==> l[i].LevelEntry?)
    && forall i, j :: 0 <= i < j < |l| ==> l[i].place != l[j].place
  }

  ghost predicate SideFrom(cfg: Config, l: seq<Entry>, s: nat, side: Side, r: int) {
    forall i :: 0 <= i < |l| ==>
      && l[i].LevelEntry? && l[i].place.symbol == s && l[i].place.side == side
      && RankIn(cfg, side, l[i].place.price) >= r
  }

  ghost predicate SymbolsFrom(l: seq<Entry>, s: nat) {
    forall i :: 0 <= i < |l| ==> l[i].LevelEntry? && l[i].place.symbol >= s
  }

  lemma Joined(a: seq<Entry>, b: seq<Entry>)
    requires Listed(a) && Listed(b)
    requires forall i, j :: 0 <= i < |a| && 0 <= j < |b| ==> a[i].place != b[j].place
    ensures Listed(a + b)
  {
  }

  lemma {:induction false} SidePlaces(cfg: Config, books: Books, s: nat, side: Side, r: nat)
    ensures Listed(ListSide(cfg, books, s, side, r)) && SideFrom(cfg, ListSide(cfg, books, s, side, r), s, side, r)
    decreases cfg.numLevels - r
  {
    hide Resident;
    if r < cfg.numLevels {
      var p := Place(s, side, if side == Buy then MaxPrice(cfg) - r else cfg.minPrice + r);
      var first := if Resident(books, p) > 0 then [LevelEntry(p, Total(books, p))] else [];
      SidePlaces(cfg, books, s, side, r + 1);
      Joined(first, ListSide(cfg, books, s, side, r + 1));
    }
  }

  lemma {:induction false} ListPlaces(cfg: Config, books: Books, s: nat)
    ensures Listed(ListBooks(cfg, books, s)) && SymbolsFrom(ListBooks(cfg, books, s), s)
    decreases |books| - s
  {
    hide ListSide;
    if s < |books| {
      var buys, sells := ListSide(cfg, books, s, Buy, 0), ListSide(cfg, books, s, Sell, 0);
      SidePlaces(cfg, books, s, Buy, 0);
      SidePlaces(cfg, books, s, Sell, 0);
      ListPlaces(cfg, books, s + 1);
      Joined(buys, sells);
      assert forall i :: 0 <= i < |buys + sells| ==> (buys + sells)[i].place.symbol == s;
      Joined(buys + sells, ListBooks(cfg, books, s + 1));
    }
  }

  /** Each level is listed once: what is listed later is not among what is listed before. */
  lemma ListedOnce(cfg: Config, books: Books, k: nat, i: nat)
    requires k <= i < |ListBooks(cfg, books, 0)|
    ensures var all := ListBooks(cfg, books, 0); all[i].LevelEntry? && !Mentions(all[..k], all[i].place)
  {
    ListPlaces(cfg, books, 0);
  }

  /** A snapshot rebuilds the engine's level-2 book if and only if every total it does not carry is 0; it carries
      the whole listing if and only if that has at most 60 * 65535 levels. */
  lemma SnapshotIff(cfg: Config, books: Books)
    requires BooksOk(cfg, books)
    ensures var all := ListBooks(cfg, books, 0);
      && 0 <= Carries(|all|) <= |all| && (Carries(|all|) == |all| <==> |all| <= SNAPSHOT_MAX)
      && (IsL2(ApplyPackets(map[], SnapParts(all)), books) <==>
            forall i :: Carries(|all|) <= i < |all| ==> all[i].LevelEntry? && all[i].qty == 0)
  {
    hide BooksOk, ListBooks, Resident, SnapParts, Carries;
    var all := ListBooks(cfg, books, 0);
    var k := Carries(|all|);
    SnapCarries(all);
    ApplyFlat(map[], SnapParts(all));
    ListBooksAbsolute(cfg, books, 0);
    var m := ApplyAll(map[], all[..k]);
    forall p: Place ensures Lookup(m, p) == if Mentions(all[..k], p) then Total(books, p) else 0 {
      ApplyTotals(map[], all[..k], books, p);
    }
    ApplyTotals(map[], all[..k], books, Place(0, Buy, 0));
    forall i | k <= i < |all|
      ensures all[i].LevelEntry? && Lookup(m, all[i].place) == 0 && all[i].qty == Total(books, all[i].place)
    {
      ListedOnce(cfg, books, k, i);
    }
    if forall i :: k <= i < |all| ==> all[i].qty == 0 {
      forall p: Place ensures Lookup(m, p) == Total(books, p) {
        if !Mentions(all[..k], p) && Total(books, p) > 0 {
          BeyondCarried(cfg, books, k, p);
        }
      }
    }
  }

  /** A level with a total that is not carried is listed beyond. */
  lemma BeyondCarried(cfg: Config, books: Books, k: nat, p: Place)
    requires BooksOk(cfg, books) && Total(books, p) > 0 && k <= |ListBooks(cfg, books, 0)|
    requires !Mentions(ListBooks(cfg, books, 0)[..k], p)
    ensures var all := ListBooks(cfg, books, 0); exists i :: k <= i < |all| && all[i].LevelEntry? && all[i].qty > 0
  {
    hide BooksOk, ListBooks;
    var all := ListBooks(cfg, books, 0);
    TotalInBand(cfg, books, p);
    ListBooksHas(cfg, books, 0, p);
    ListBooksAbsolute(cfg, books, 0);
    assert all == all[..k] + all[k..];
    MentionsConcat(all[..k], all[k..], p);
    var i :| 0 <= i < |all[k..]| && all[k..][i].LevelEntry? && all[k..][i].place == p;
    assert all[k..][i] == all[k + i];
  }

  /** A lone part syncs a newcomer. */
  lemma LonePart(es: seq<Entry>)
    requires es != []
    ensures var s := OnPacketS(NewMdSub, Snapshot(0, 0, 1, es));
      s.synced && s.seq_ == 0 && s.books == ApplyPackets(map[], [es])
  {
    var parts := [es];
    SnapshotRecovers(NewMdSub, 0, parts);
    assert OnParts(NewMdSub, 0, parts, 0) == OnParts(OnPacketS(NewMdSub, Snapshot(0, 0, 1, es)), 0, parts, 1);
    assert DropOld(map[], 0) == map[];
  }

  /** With 65537 parts to send, the publisher sends one, marked 1 of 1: the newcomer that hears it is synced on the
      first 60 levels. */
  lemma OneOfOne(cfg: Config, books: Books)
    requires BooksOk(cfg, books)
    requires var all := ListBooks(cfg, books, 0);
      && PER_PACKET * U16 < |all| <= PER_PACKET * (U16 + 1)
      && exists i :: PER_PACKET <= i < |all| && all[i].LevelEntry? && all[i].qty > 0
    ensures var p := Snapshot(0, 0, 1, ListBooks(cfg, books, 0)[..PER_PACKET]);
      var sys := Run(cfg, books, 0, [Finish, Arrive(p)]);
      sys.sub.synced && sys.sub.seq_ == sys.pub.seq_ && sys.books == books && !IsL2(sys.sub.books, books)
  {
    hide Run, ListBooks, OnPacketS, BooksOk, Resident, IsL2;
    var all := ListBooks(cfg, books, 0);
    var es := all[..PER_PACKET];
    var p := Snapshot(0, 0, 1, es);
    PartsAre(all);
    assert SnapParts(all) == [es];
    SnapshotIff(cfg, books);
    LonePart(es);
    var t0: seq<Move> := [];
    assert Run(cfg, books, 0, t0) == Init(cfg, books, 0) by { StartsAt(cfg, books, 0); }
    Then(cfg, books, 0, t0, Finish);
    assert SnapPackets(0, [es])[0] == p;
    Then(cfg, books, 0, t0 + [Finish], Arrive(p));
    assert t0 + [Finish] + [Arrive(p)] == [Finish, Arrive(p)];
  }

  /** One bid in each of n symbols. */
  function OneEach(n: nat, px: int): Books {
    seq(n, _ => Book([Order(1, 1, 0, px)], []))
  }

  lemma OneEachTotals(n: nat, px: int, s: nat, side: Side)
    requires s < n
    ensures Resident(OneEach(n, px), Place(s, side, px)) == if side == Buy then 1 else 0
    ensures forall x: int :: x != px ==> Resident(OneEach(n, px), Place(s, side, x)) == 0
  {
    var o := Order(1, 1, 0, px);
    TotalOne(o, px);
    forall x: int | x != px ensures Resident(OneEach(n, px), Place(s, side, x)) == 0 {
      TotalOne(o, x);
    }
  }

  lemma {:induction false} OneEachSide(cfg: Config, n: nat, px: int, s: nat, side: Side, r: nat)
    requires s < n && InBand(cfg, px)
    ensures var l := ListSide(cfg, OneEach(n, px), s, side, r);
      && |l| == (if side == Buy && r <= MaxPrice(cfg) - px then 1 else 0)
      && forall i :: 0 <= i < |l| ==> l[i].LevelEntry? && l[i].qty == 1
    decreases cfg.numLevels - r
  {
    hide Resident, OneEach;
    if r < cfg.numLevels {
      OneEachTotals(n, px, s, side);
      OneEachSide(cfg, n, px, s, side, r + 1);
    }
  }

  lemma {:induction false} OneEachListed(cfg: Config, n: nat, px: int, s: nat)
    requires s <= n && InBand(cfg, px)
    ensures var l := ListBooks(cfg, OneEach(n, px), s);
      |l| == n - s && forall i :: 0 <= i < |l| ==> l[i].LevelEntry? && l[i].qty == 1
    decreases n - s
  {
    hide ListSide;
    if s < n {
      OneEachSide(cfg, n, px, s, Buy, 0);
      OneEachSide(cfg, n, px, s, Sell, 0);
      OneEachListed(cfg, n, px, s + 1);
    }
  }

  /** With one order in each of 65536 * 60 + 1 symbols it comes to that. */
  lemma SnapshotMisleads(cfg: Config, px: int)
    requires InBand(cfg, px) && cfg.maxOrders > 0
    ensures var books := OneEach(PER_PACKET * U16 + 1, px);
      var all := ListBooks(cfg, books, 0);
      && BooksOk(cfg, books) && |all| == |books|
      && var sys := Run(cfg, books, 0, [Finish, Arrive(Snapshot(0, 0, 1, all[..PER_PACKET]))]);
         sys.sub.synced && sys.sub.seq_ == sys.pub.seq_ && !IsL2(sys.sub.books, sys.books)
  {
    hide Run, ListBooks, IsL2;
    var n := PER_PACKET * U16 + 1;
    OneEachListed(cfg, n, px, 0);
    OneEachOk(cfg, n, px);
    assert ListBooks(cfg, OneEach(n, px), 0)[PER_PACKET].qty > 0;
    OneOfOne(cfg, OneEach(n, px));
  }

  lemma OneEachOk(cfg: Config, n: nat, px: int)
    requires InBand(cfg, px) && cfg.maxOrders > 0
    ensures BooksOk(cfg, OneEach(n, px))
  {
    forall s | 0 <= s < n ensures BookOk(ForSymbol(cfg, s), Book([Order(1, 1, 0, px)], [])) {
    }
  }
}
