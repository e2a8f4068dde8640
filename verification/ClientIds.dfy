/** Exchange-assigned ids are invisible: what one session is told is what an engine run directly on the
    client's own ids would tell it. */
module ClientIds {
  import opened Types
  import opened BookSpec
  import opened BookInvariant
  import opened MissedFills
  import opened Renaming
  import opened MarketData

  datatype Key = Key(clientId: nat, symbol: nat, owner: nat)

  datatype Ids = Ids(fwd: map<Key, nat>, rev: map<nat, Key>, next: nat)

  /** The two maps are mutually inverse, and every id they hold has been assigned. */
  ghost predicate Inverse(ids: Ids) {
    && (forall k :: k in ids.fwd ==> k.clientId != 0 && ids.fwd[k] in ids.rev && ids.rev[ids.fwd[k]] == k)
    && (forall x :: x in ids.rev ==> ids.rev[x] in ids.fwd && ids.fwd[ids.rev[x]] == x && 0 < x < ids.next)
    && ids.next > 0
  }

  /** A new order's exchange id: the live order's if the client id is in use, else a fresh one; 0 for 0. */
  function ForNewS(ids: Ids, k: Key): (nat, Ids) {
    if k.clientId == 0 then (0, ids)
    else if k in ids.fwd then (ids.fwd[k], ids)
    else (ids.next, Ids(ids.fwd[k := ids.next], ids.rev[ids.next := k], ids.next + 1))
  }

  /** A cancel's or modify's: the live order's, or 0. */
  function FindS(ids: Ids, k: Key): nat {
    if k in ids.fwd then ids.fwd[k] else 0
  }

  /** What a viewer is shown: its own client id, or 0. */
  function ToClient(ids: Ids, x: nat, viewer: nat): nat {
    if x in ids.rev && ids.rev[x].owner == viewer then ids.rev[x].clientId else 0
  }

  function RetireS(ids: Ids, x: nat): Ids {
    if x in ids.rev then ids.(fwd := ids.fwd - {ids.rev[x]}, rev := ids.rev - {x}) else ids
  }

  lemma ForNewOk(ids: Ids, k: Key)
    requires Inverse(ids)
    ensures var (x, ids1) := ForNewS(ids, k);
      && Inverse(ids1) && (x == 0 <==> k.clientId == 0) && (x != 0 ==> x in ids1.rev && ids1.rev[x] == k)
      && (forall y :: y in ids1.rev ==> y == x || (y in ids.rev && ids1.rev[y] == ids.rev[y]))
      && (forall y :: y in ids.rev ==> y in ids1.rev && ids1.rev[y] == ids.rev[y])
  {
  }

  lemma RetireOk(ids: Ids, x: nat)
    requires Inverse(ids)
    ensures Inverse(RetireS(ids, x))
  {
  }

  /** No session learns of another's orders: a report names an order, other than the command's own, only if its key
      is the viewer's, and a cancel or modify reaches only an order of its session, symbol and client id. */
  lemma OnlyOwnersSee(ids: Ids, e: Event, x: nat, clientId: nat, viewer: nat, k: Key)
    requires Inverse(ids)
    ensures var r := Report(ids, e, x, clientId, viewer);
      && (e.orderId != x ==>
            if e.orderId in ids.rev && ids.rev[e.orderId].owner == viewer
            then r.orderId == ids.rev[e.orderId].clientId != 0 else r.orderId == 0)
      && (r.makerId != 0 <==> e.makerId != 0 && e.makerId in ids.rev && ids.rev[e.makerId].owner == viewer)
    ensures FindS(ids, k) != 0 <==> exists y :: y in ids.rev && ids.rev[y] == k
    ensures FindS(ids, k) != 0 ==> FindS(ids, k) in ids.rev && ids.rev[FindS(ids, k)] == k
  {
    if k in ids.fwd {
      assert ids.rev[ids.fwd[k]] == k;
    }
    if e.orderId in ids.rev {
      assert ids.rev[e.orderId].clientId != 0;
    }
    if e.makerId in ids.rev {
      assert ids.rev[e.makerId].clientId != 0;
    }
  }

  // ---- a session ----

  /** An id an event names, of an order that is no longer live, is retired. */
  function RetireDead(ids: Ids, xs: seq<nat>, books: Books, symbol: nat): Ids
    decreases |xs|
  {
    if xs == [] then ids
    else
      var x := xs[0];
      var ids1 := if x != 0 && (symbol >= |books| || !Contains(books[symbol], x)) then RetireS(ids, x) else ids;
      RetireDead(ids1, xs[1..], books, symbol)
  }

  /** The ids the events of a command mention, other than its own, and then its own. */
  function Mentioned(es: seq<Event>, x: nat): seq<nat> {
    if es == [] then [x]
    else
      (if es[0].orderId != x then [es[0].orderId] else []) + (if es[0].makerId != 0 then [es[0].makerId] else [])
      + Mentioned(es[1..], x)
  }

  /** A report: the command's own order under the client's own id, any other through the map. */
  function Report(ids: Ids, e: Event, x: nat, clientId: nat, owner: nat): Event {
    e.(orderId := if e.orderId == x then clientId else ToClient(ids, e.orderId, owner),
       makerId := if e.makerId != 0 then ToClient(ids, e.makerId, owner) else 0)
  }

  datatype Session = Session(books: Books, ids: Ids)

  function Assign(ids: Ids, c: Command, owner: nat): (nat, Ids) {
    var key := Key(c.orderId, c.symbol, owner);
    if c.kind == NewOrder then ForNewS(ids, key) else (FindS(ids, key), ids)
  }

  /** One command of the session: ids assigned, the engine run on them, the events translated back, and the
      ids of orders that have gone released. */
  function Handle(cfg: Config, owner: nat, s: Session, c: Command): (Session, seq<Event>) {
    var (x, ids1) := Assign(s.ids, c, owner);
    var z := Step(cfg, s.books, c.(orderId := x));
    var reports := seq(|z.events|, i requires 0 <= i < |z.events| => Report(ids1, z.events[i], x, c.orderId, owner));
    (Session(z.books, RetireDead(ids1, Mentioned(z.events, x), z.books, c.symbol)), reports)
  }

  /** The session over a fresh engine, and the reports command by command. */
  function RunSession(cfg: Config, owner: nat, symbols: nat, cmds: seq<Command>): (Session, seq<seq<Event>>) {
    if cmds == [] then (Session(seq(symbols, _ => EmptyBook), Ids(map[], map[], 1)), [])
    else
      var (s, told) := RunSession(cfg, owner, symbols, cmds[..|cmds| - 1]);
      var (s1, now) := Handle(cfg, owner, s, cmds[|cmds| - 1]);
      (s1, told + [now])
  }

  /** The engine run directly on the client's ids. */
  function RunDirect(cfg: Config, symbols: nat, cmds: seq<Command>): (Books, seq<seq<Event>>) {
    if cmds == [] then (seq(symbols, _ => EmptyBook), [])
    else
      var (books, told) := RunDirect(cfg, symbols, cmds[..|cmds| - 1]);
      var z := Step(cfg, books, cmds[|cmds| - 1]);
      (z.books, told + [z.events])
  }

  // ---- the two agree ----

  /** The name each live exchange id stands for. */
  function NameOf(ids: Ids): Names {
    (x: nat) => if x in ids.rev then ids.rev[x].clientId else 0
  }

  /** The maps hold exactly the session's live orders, each under its symbol. */
  ghost predicate HoldsLive(books: Books, ids: Ids, owner: nat) {
    && (forall x :: x in ids.rev ==> ids.rev[x].owner == owner && ids.rev[x].symbol < |books|
                                     && Contains(books[ids.rev[x].symbol], x))
    && forall s, x :: 0 <= s < |books| && Contains(books[s], x) ==> x in ids.rev && ids.rev[x].symbol == s
  }

  ghost predicate SessionOk(cfg: Config, owner: nat, s: Session, direct: Books) {
    && BooksOk(cfg, s.books) && Inverse(s.ids) && HoldsLive(s.books, s.ids, owner)
    && |direct| == |s.books| && forall i :: 0 <= i < |s.books| ==> direct[i] == RenBook(s.books[i], NameOf(s.ids))
  }

  /** Renamings that agree on a book's ids rename it alike. */
  lemma RenSame(b: Book, f: Names, g: Names)
    requires forall id :: Contains(b, id) ==> f(id) == g(id)
    ensures RenBook(b, f) == RenBook(b, g)
  {
    forall k | 0 <= k < |b.bids| ensures f(b.bids[k].id) == g(b.bids[k].id) {
      assert HasId(b.bids, b.bids[k].id) && Contains(b, b.bids[k].id);
    }
    forall k | 0 <= k < |b.asks| ensures f(b.asks[k].id) == g(b.asks[k].id) {
      assert HasId(b.asks, b.asks[k].id) && Contains(b, b.asks[k].id);
    }
    assert RenQ(b.bids, f) == RenQ(b.bids, g);
    assert RenQ(b.asks, f) == RenQ(b.asks, g);
  }

  /** The name of every id during one command: its own order's, else through the map. */
  function During(ids: Ids, x: nat, clientId: nat): Names {
    (y: nat) => if y == x then clientId else if y in ids.rev then ids.rev[y].clientId else 0
  }

  lemma {:induction false} RetireDeadFacts(ids: Ids, xs: seq<nat>, books: Books, symbol: nat)
    requires Inverse(ids)
    ensures var ids' := RetireDead(ids, xs, books, symbol);
      && Inverse(ids') && ids'.next == ids.next
      && forall y :: (y in ids'.rev <==> y in ids.rev && (y !in xs || (symbol < |books| && Contains(books[symbol], y))))
                     && (y in ids'.rev ==> ids'.rev[y] == ids.rev[y])
    decreases |xs|
  {
    if xs != [] {
      var x := xs[0];
      var ids1 := if x != 0 && (symbol >= |books| || !Contains(books[symbol], x)) then RetireS(ids, x) else ids;
      RetireOk(ids, x);
      RetireDeadFacts(ids1, xs[1..], books, symbol);
      assert forall y :: y in xs <==> y == x || y in xs[1..];
    }
  }

  lemma {:induction false} MentionedIs(es: seq<Event>, x: nat, y: nat)
    requires y != 0
    ensures y in Mentioned(es, x) <==> y == x || Named(es, y)
    decreases |es|
  {
    if es != [] {
      MentionedIs(es[1..], x, y);
      NamedConcat([es[0]], es[1..], y);
      NamedOne(es[0], y);
      assert [es[0]] + es[1..] == es;
    }
  }

  /** Assigning keeps the maps inverse and names the command's order by the client's id. */
  lemma AssignOk(ids: Ids, c: Command, owner: nat)
    requires Inverse(ids)
    ensures var (x, ids1) := Assign(ids, c, owner);
      && Inverse(ids1) && (c.kind == NewOrder ==> (x == 0 <==> c.orderId == 0))
      && (x != 0 ==> x in ids1.rev && ids1.rev[x] == Key(c.orderId, c.symbol, owner))
      && (forall y :: y in ids1.rev ==> y == x || (y in ids.rev && ids1.rev[y] == ids.rev[y]))
      && (forall y :: y in ids.rev ==> y in ids1.rev && ids1.rev[y] == ids.rev[y])
      && (forall y :: y in ids.rev && ids.rev[y] == Key(c.orderId, c.symbol, owner) ==> y == x)
  {
    ForNewOk(ids, Key(c.orderId, c.symbol, owner));
  }

  /** A report is the engine's event under that renaming. */
  lemma ReportIs(ids: Ids, e: Event, x: nat, clientId: nat, owner: nat)
    requires forall y :: y in ids.rev ==> ids.rev[y].owner == owner
    requires x != 0 ==> x in ids.rev && ids.rev[x].clientId == clientId
    ensures Report(ids, e, x, clientId, owner) == RenEvent(e, During(ids, x, clientId))
  {
  }

  lemma BookIds(cfg: Config, b: Book)
    requires BookOk(cfg, b)
    ensures BookNonZero(b) && !Contains(b, 0)
  {
  }

  lemma TellsApart(b: Book, id: nat, f: Names)
    requires forall y :: Contains(b, y) && f(y) == f(id) ==> y == id
    ensures BookTells(b, id, f)
  {
    forall k | 0 <= k < |b.bids| && f(b.bids[k].id) == f(id) ensures b.bids[k].id == id {
      assert HasId(b.bids, b.bids[k].id) && Contains(b, b.bids[k].id);
    }
    forall k | 0 <= k < |b.asks| && f(b.asks[k].id) == f(id) ensures b.asks[k].id == id {
      assert HasId(b.asks, b.asks[k].id) && Contains(b, b.asks[k].id);
    }
  }

  /** The names during a command are those of the map, for every order resting in its symbol's book, and
      the command's own name is no other order's. */
  lemma DuringTells(cfg: Config, owner: nat, s: Session, c: Command)
    requires BooksOk(cfg, s.books) && Inverse(s.ids) && HoldsLive(s.books, s.ids, owner) && c.symbol < |s.books|
    ensures var (x, ids1) := Assign(s.ids, c, owner);
      var f := During(ids1, x, c.orderId);
      && BookTells(s.books[c.symbol], x, f)
      && RenBook(s.books[c.symbol], f) == RenBook(s.books[c.symbol], NameOf(s.ids))
  {
    hide Contains, RenBook, BookOk, Assign, BookTells, Inverse;
    var (x, ids1) := Assign(s.ids, c, owner);
    var f, b := During(ids1, x, c.orderId), s.books[c.symbol];
    AssignOk(s.ids, c, owner);
    forall y | Contains(b, y) ensures f(y) == NameOf(s.ids)(y) && (f(y) == f(x) ==> y == x) {
      assert y in s.ids.rev && s.ids.rev[y].symbol == c.symbol;
      assert s.ids.rev[y] == Key(NameOf(s.ids)(y), c.symbol, owner);
    }
    RenSame(b, NameOf(s.ids), f);
    TellsApart(b, x, f);
  }

  /** One command on its own symbol's book: the direct engine sees the renamed command on the renamed book. */
  lemma StepAgrees(cfg: Config, owner: nat, s: Session, direct: Books, c: Command)
    requires SessionOk(cfg, owner, s, direct) && c.symbol < |s.books|
    ensures var (x, ids1) := Assign(s.ids, c, owner);
      var f := During(ids1, x, c.orderId);
      var k := ForSymbol(cfg, c.symbol);
      FastApply(k, direct[c.symbol], c) == RenOutcome(FastApply(k, s.books[c.symbol], c.(orderId := x)), f)
  {
    hide FastApply, Contains, RenBook, BookOk, Assign, BookTells, Inverse, HoldsLive, RenOutcome;
    var (x, ids1) := Assign(s.ids, c, owner);
    var f, b, k := During(ids1, x, c.orderId), s.books[c.symbol], ForSymbol(cfg, c.symbol);
    AssignOk(s.ids, c, owner);
    DuringTells(cfg, owner, s, c);
    BookIds(k, b);
    RenFastApply(k, b, c.(orderId := x), f);
    assert RenCommand(c.(orderId := x), f) == c;
  }

  /** An order live after the command keeps its id, and its key; every other id of this symbol is retired. */
  lemma LiveOne(cfg: Config, owner: nat, s: Session, c: Command, y: nat)
    requires BooksOk(cfg, s.books) && Inverse(s.ids) && HoldsLive(s.books, s.ids, owner) && y != 0
    ensures var (x, ids1) := Assign(s.ids, c, owner);
      var z := Step(cfg, s.books, c.(orderId := x));
      var ids2 := RetireDead(ids1, Mentioned(z.events, x), z.books, c.symbol);
      && |z.books| == |s.books|
      && (y in ids2.rev ==>
           ids2.rev[y].owner == owner && ids2.rev[y].symbol < |z.books| && Contains(z.books[ids2.rev[y].symbol], y))
      && forall i :: 0 <= i < |z.books| && Contains(z.books[i], y) ==> y in ids2.rev && ids2.rev[y].symbol == i
  {
    hide FastApply, Contains, BookOk, Assign, Step, Mentioned, RetireDead, Inverse, Named, BooksOk;
    var (x, ids1) := Assign(s.ids, c, owner);
    var z := Step(cfg, s.books, c.(orderId := x));
    AssignOk(s.ids, c, owner);
    RetireDeadFacts(ids1, Mentioned(z.events, x), z.books, c.symbol);
    StepBooks(cfg, s.books, c.(orderId := x));
    StepLive(cfg, s.books, c.(orderId := x), y);
    MentionedIs(z.events, x, y);
  }

  lemma MapsAfter(cfg: Config, owner: nat, s: Session, c: Command)
    requires BooksOk(cfg, s.books) && Inverse(s.ids)
    ensures var (x, ids1) := Assign(s.ids, c, owner);
      var z := Step(cfg, s.books, c.(orderId := x));
      var ids2 := RetireDead(ids1, Mentioned(z.events, x), z.books, c.symbol);
      && BooksOk(cfg, z.books) && |z.books| == |s.books| && Inverse(ids2) && 0 !in ids2.rev
  {
    hide Assign, Step, Mentioned, RetireDead, BooksOk, Inverse;
    var (x, ids1) := Assign(s.ids, c, owner);
    var z := Step(cfg, s.books, c.(orderId := x));
    AssignOk(s.ids, c, owner);
    RetireDeadFacts(ids1, Mentioned(z.events, x), z.books, c.symbol);
    StepBooks(cfg, s.books, c.(orderId := x));
    NoZeroKey(RetireDead(ids1, Mentioned(z.events, x), z.books, c.symbol));
  }

  /** After a command the maps hold exactly the orders then live. */
  lemma LiveAfter(cfg: Config, owner: nat, s: Session, c: Command)
    requires BooksOk(cfg, s.books) && Inverse(s.ids) && HoldsLive(s.books, s.ids, owner)
    ensures var (x, ids1) := Assign(s.ids, c, owner);
      var z := Step(cfg, s.books, c.(orderId := x));
      var ids2 := RetireDead(ids1, Mentioned(z.events, x), z.books, c.symbol);
      && BooksOk(cfg, z.books) && |z.books| == |s.books| && Inverse(ids2) && HoldsLive(z.books, ids2, owner)
  {
    hide Contains, Assign, Step, Mentioned, RetireDead, BooksOk, Inverse;
    var (x, ids1) := Assign(s.ids, c, owner);
    var z := Step(cfg, s.books, c.(orderId := x));
    var ids2 := RetireDead(ids1, Mentioned(z.events, x), z.books, c.symbol);
    MapsAfter(cfg, owner, s, c);
    forall y | y in ids2.rev
      ensures ids2.rev[y].owner == owner && ids2.rev[y].symbol < |z.books| && Contains(z.books[ids2.rev[y].symbol], y) {
      LiveOne(cfg, owner, s, c, y);
    }
    forall i, y | 0 <= i < |z.books| && Contains(z.books[i], y) ensures y in ids2.rev && ids2.rev[y].symbol == i {
      NoZeroId(cfg, z.books, i);
      LiveOne(cfg, owner, s, c, y);
    }
  }

  lemma NoZeroKey(ids: Ids)
    requires Inverse(ids)
    ensures 0 !in ids.rev
  {
  }

  lemma NoZeroId(cfg: Config, books: Books, i: nat)
    requires BooksOk(cfg, books) && i < |books|
    ensures !Contains(books[i], 0)
  {
    BookIds(ForSymbol(cfg, i), books[i]);
  }

  lemma StepBooks(cfg: Config, books: Books, c: Command)
    requires BooksOk(cfg, books)
    ensures var z := Step(cfg, books, c);
      && |z.books| == |books| && BooksOk(cfg, z.books)
      && forall i :: 0 <= i < |books| && i != c.symbol ==> z.books[i] == books[i]
  {
    hide FastApply, BookOk;
    if c.symbol < |books| {
      var b, k := books[c.symbol], ForSymbol(cfg, c.symbol);
      AnswerOk(Words, k, b, c);
      assert Answer(Words, k, b, c) == FastApply(k, b, c);
    }
  }

  lemma StepLive(cfg: Config, books: Books, c: Command, y: nat)
    requires BooksOk(cfg, books) && y != 0
    ensures var z := Step(cfg, books, c);
      && |z.books| == |books|
      && (c.symbol < |books| ==>
            && (Contains(z.books[c.symbol], y) ==> y == c.orderId || Contains(books[c.symbol], y))
            && (Contains(books[c.symbol], y) && !Contains(z.books[c.symbol], y) ==>
                 y == c.orderId || Named(z.events, y))
            && (Named(z.events, y) ==> y == c.orderId || Contains(books[c.symbol], y)))
      && (c.symbol >= |books| && Named(z.events, y) ==> y == c.orderId)
  {
    hide FastApply, BookOk, Contains;
    if c.symbol < |books| {
      FastNames(ForSymbol(cfg, c.symbol), books[c.symbol], c, y);
    } else {
      NamedOne(RejectedEvent(c, UnknownSymbol), y);
    }
  }

  lemma NameKept(cfg: Config, owner: nat, s: Session, c: Command, i: nat, y: nat)
    requires BooksOk(cfg, s.books) && Inverse(s.ids) && HoldsLive(s.books, s.ids, owner)
    requires i < |s.books| && i != c.symbol && Contains(s.books[i], y)
    ensures NameOf(s.ids)(y) == NameOf(Handle(cfg, owner, s, c).0.ids)(y)
  {
    hide Contains, Assign, Mentioned, RetireDead, BooksOk, Inverse, Step, HoldsLive;
    var (x, ids1) := Assign(s.ids, c, owner);
    var z := Step(cfg, s.books, c.(orderId := x));
    var ids2 := RetireDead(ids1, Mentioned(z.events, x), z.books, c.symbol);
    AssignOk(s.ids, c, owner);
    RetireDeadFacts(ids1, Mentioned(z.events, x), z.books, c.symbol);
    StepBooks(cfg, s.books, c.(orderId := x));
    LiveAfter(cfg, owner, s, c);
    LiveKnown(s.books, s.ids, owner, i, y);
    LiveKnown(z.books, ids2, owner, i, y);
  }

  lemma LiveKnown(books: Books, ids: Ids, owner: nat, i: nat, y: nat)
    requires HoldsLive(books, ids, owner) && i < |books| && Contains(books[i], y)
    ensures y in ids.rev
  {
  }

  /** Books away from the command's symbol keep their names. */
  lemma OthersNamed(cfg: Config, owner: nat, s: Session, direct: Books, c: Command, i: nat)
    requires SessionOk(cfg, owner, s, direct) && i < |s.books| && i != c.symbol
    ensures var (s', _) := Handle(cfg, owner, s, c);
      |s'.books| == |s.books| && s'.books[i] == s.books[i] && direct[i] == RenBook(s'.books[i], NameOf(s'.ids))
  {
    hide Contains, Assign, Step, BooksOk, RenBook, Inverse, HoldsLive;
    var (x, _) := Assign(s.ids, c, owner);
    StepBooks(cfg, s.books, c.(orderId := x));
    var ids2 := Handle(cfg, owner, s, c).0.ids;
    forall y | Contains(s.books[i], y) ensures NameOf(s.ids)(y) == NameOf(ids2)(y) {
      NameKept(cfg, owner, s, c, i, y);
    }
    RenSame(s.books[i], NameOf(s.ids), NameOf(ids2));
  }

  /** The command's own book keeps its names too. */
  lemma OwnNamed(cfg: Config, owner: nat, s: Session, c: Command)
    requires BooksOk(cfg, s.books) && Inverse(s.ids) && HoldsLive(s.books, s.ids, owner) && c.symbol < |s.books|
    ensures var (x, ids1) := Assign(s.ids, c, owner);
      var z := Step(cfg, s.books, c.(orderId := x));
      var ids2 := RetireDead(ids1, Mentioned(z.events, x), z.books, c.symbol);
      && |z.books| == |s.books|
      && RenBook(z.books[c.symbol], During(ids1, x, c.orderId)) == RenBook(z.books[c.symbol], NameOf(ids2))
  {
    hide FastApply, Contains, BookOk, Assign, Step, Mentioned, RetireDead, Named, BooksOk, RenBook;
    var (x, ids1) := Assign(s.ids, c, owner);
    var z := Step(cfg, s.books, c.(orderId := x));
    var ids2 := RetireDead(ids1, Mentioned(z.events, x), z.books, c.symbol);
    LiveAfter(cfg, owner, s, c);
    AssignOk(s.ids, c, owner);
    RetireDeadFacts(ids1, Mentioned(z.events, x), z.books, c.symbol);
    NoZeroId(cfg, z.books, c.symbol);
    forall y | Contains(z.books[c.symbol], y) ensures During(ids1, x, c.orderId)(y) == NameOf(ids2)(y) {
      assert y in ids2.rev && y != 0;
    }
    RenSame(z.books[c.symbol], During(ids1, x, c.orderId), NameOf(ids2));
  }

  /** What the session is told of one command is the direct engine's events. */
  lemma ReportsAgree(cfg: Config, owner: nat, s: Session, direct: Books, c: Command)
    requires SessionOk(cfg, owner, s, direct)
    ensures Handle(cfg, owner, s, c).1 == Step(cfg, direct, c).events
  {
    hide FastApply, Contains, BookOk, Assign, Mentioned, RetireDead, Named, BooksOk, RenBook;
    var (x, ids1) := Assign(s.ids, c, owner);
    AssignOk(s.ids, c, owner);
    var z, reports := Step(cfg, s.books, c.(orderId := x)), Handle(cfg, owner, s, c).1;
    var f := During(ids1, x, c.orderId);
    OwnersSame(s.ids, ids1, x, c, owner);
    forall i | 0 <= i < |z.events| ensures reports[i] == RenEvent(z.events[i], f) {
      ReportIs(ids1, z.events[i], x, c.orderId, owner);
    }
    if c.symbol < |s.books| {
      StepAgrees(cfg, owner, s, direct, c);
    }
    assert reports == RenEvents(z.events, f);
  }

  lemma OwnersSame(ids: Ids, ids1: Ids, x: nat, c: Command, owner: nat)
    requires forall y :: y in ids.rev ==> ids.rev[y].owner == owner
    requires forall y :: y in ids1.rev ==> y == x || (y in ids.rev && ids1.rev[y] == ids.rev[y])
    requires x in ids1.rev ==>
        (x in ids.rev && ids1.rev[x] == ids.rev[x]) || ids1.rev[x] == Key(c.orderId, c.symbol, owner)
    ensures forall y :: y in ids1.rev ==> ids1.rev[y].owner == owner
  {
  }

  lemma HandleOk(cfg: Config, owner: nat, s: Session, direct: Books, c: Command)
    requires SessionOk(cfg, owner, s, direct)
    ensures SessionOk(cfg, owner, Handle(cfg, owner, s, c).0, Step(cfg, direct, c).books)
  {
    hide FastApply, Contains, BookOk, Assign, Mentioned, RetireDead, Named, BooksOk, RenBook, Inverse, HoldsLive;
    LiveAfter(cfg, owner, s, c);
    forall i: nat | i < |s.books| && i != c.symbol
      ensures direct[i] == RenBook(Handle(cfg, owner, s, c).0.books[i], NameOf(Handle(cfg, owner, s, c).0.ids))
    {
      OthersNamed(cfg, owner, s, direct, c, i);
    }
    if c.symbol < |s.books| {
      StepAgrees(cfg, owner, s, direct, c);
      OwnNamed(cfg, owner, s, c);
    }
  }

  lemma FreshOk(cfg: Config, owner: nat, symbols: nat)
    ensures SessionOk(cfg, owner, Session(seq(symbols, _ => EmptyBook), Ids(map[], map[], 1)),
                      seq(symbols, _ => EmptyBook))
  {
  }

  /** Exchange ids are invisible: over any command stream of one session on a fresh engine, the reports are
      exactly what an engine run on the client's own ids emits, and the maps hold exactly the live orders. */
  lemma {:induction false} IdsInvisible(cfg: Config, owner: nat, symbols: nat, cmds: seq<Command>)
    ensures RunSession(cfg, owner, symbols, cmds).1 == RunDirect(cfg, symbols, cmds).1
    ensures SessionOk(cfg, owner, RunSession(cfg, owner, symbols, cmds).0, RunDirect(cfg, symbols, cmds).0)
    decreases |cmds|
  {
    hide Handle, Step, SessionOk;
    if cmds == [] {
      FreshOk(cfg, owner, symbols);
    } else {
      var before := cmds[..|cmds| - 1];
      IdsInvisible(cfg, owner, symbols, before);
      ReportsAgree(cfg, owner, RunSession(cfg, owner, symbols, before).0, RunDirect(cfg, symbols, before).0,
                   cmds[|cmds| - 1]);
      HandleOk(cfg, owner, RunSession(cfg, owner, symbols, before).0, RunDirect(cfg, symbols, before).0,
               cmds[|cmds| - 1]);
    }
  }

  // ---- in place ----

  class ClientIdMap {
    var fwd: map<Key, nat>
    var rev: map<nat, Key>
    var next: nat

    function State(): Ids
      reads this
    {
      Ids(fwd, rev, next)
    }

    constructor (firstExchangeId: nat := 1)
      ensures State() == Ids(map[], map[], firstExchangeId)
      ensures firstExchangeId > 0 ==> Inverse(State())
    {
      fwd, rev, next := map[], map[], firstExchangeId;
    }

    method ForNew(k: Key) returns (x: nat)
      modifies this
      ensures (x, State()) == ForNewS(old(State()), k)
    {
      if k.clientId == 0 {
        return 0;
      }
      if k !in fwd {
        fwd := fwd[k := next];
        rev := rev[next := k];
        next := next + 1;
      }
      x := fwd[k];
    }

    method Find(k: Key) returns (x: nat)
      ensures x == FindS(State(), k)
    {
      x := if k in fwd then fwd[k] else 0;
    }

    method Retire(x: nat)
      modifies this`fwd, this`rev
      ensures State() == RetireS(old(State()), x)
    {
      if x !in rev {
        return;
      }
      fwd := fwd - {rev[x]};
      rev := rev - {x};
    }
  }
}
