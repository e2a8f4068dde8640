/** The mirror in place: two arrays of level totals over the optimised book. */
module BookMirrors {
  import opened Types
  import opened BookSpec
  import opened Mirrors
  import opened OrderBooks

  class BookMirror {
    const cfg: Config
    const bidQty: array<nat>
    const askQty: array<nat>
    var book: OrderBook

    ghost predicate Valid()
      reads this, bidQty, askQty, book, book.Repr
    {
      && book.Valid() && book.cfg == cfg && bidQty != askQty && this !in book.Repr
      && bidQty as object !in book.Repr && askQty as object !in book.Repr
      && bidQty.Length == cfg.numLevels && askQty.Length == cfg.numLevels
    }

    ghost function State(): Mirror
      reads this, bidQty, askQty, book, book.Repr
      requires Valid()
    {
      Mirror(bidQty[..], askQty[..], book.Contents())
    }

    /** A mirror with nothing in it, over an engine of its own. */
    constructor (config: Config)
      requires ValidConfig(config) && config.stp == NoStp
      ensures Valid() && cfg == config && fresh(bidQty) && fresh(askQty) && fresh(book) && fresh(book.Repr)
      ensures State() == Fresh(cfg) && MirrorOk(cfg, State())
    {
      hide OrderBook.Parts, OrderBook.Contents, BookStates.Inv, MirrorOk;
      FreshOk(config);
      var inner := OrderBook.Open(config);
      cfg, book := config, inner;
      bidQty := new nat[config.numLevels](_ => 0);
      askQty := new nat[config.numLevels](_ => 0);
      new;
      assert bidQty[..] == Zeros(cfg.numLevels) && askQty[..] == Zeros(cfg.numLevels);
    }

    function QtyAt(side: Side, i: nat): nat
      requires i < bidQty.Length && i < askQty.Length
      reads bidQty, askQty
    {
      if side == Buy then bidQty[i] else askQty[i]
    }

    method Store(side: Side, i: nat, qty: nat)
      requires i < bidQty.Length && i < askQty.Length && bidQty != askQty
      modifies bidQty, askQty
      ensures side == Buy ==> bidQty[..] == old(bidQty[..])[i := qty] && askQty[..] == old(askQty[..])
      ensures side == Sell ==> askQty[..] == old(askQty[..])[i := qty] && bidQty[..] == old(bidQty[..])
    {
      if side == Buy {
        bidQty[i] := qty;
      } else {
        askQty[i] := qty;
      }
    }

    method SetLevel(side: Side, i: nat, qty: nat, allowAdd: bool) returns (events: seq<Event>)
      requires Valid() && i < cfg.numLevels
      modifies bidQty, askQty, book.Repr
      ensures Valid() && book == old(book)
      ensures (State(), events) == Mirrors.SetLevel(cfg, old(State()), side, i, qty, allowAdd)
    {
      hide OrderBook.Parts, OrderBook.Contents, BookStates.Inv, Apply;
      var cur := QtyAt(side, i);
      events := [];
      if qty == 0 {
        if cur != 0 {
          events := book.Cancel(Base(cfg, MsgType.Cancel, side, i, qty));
        }
      } else if cur == 0 {
        if !allowAdd {
          return;
        }
        events := book.Add(Base(cfg, NewOrder, side, i, qty));
      } else {
        events := book.Modify(Base(cfg, MsgType.Modify, side, i, qty));
      }
      Store(side, i, qty);
    }

    method Touch(side: Side, u: Update, additions: bool) returns (events: seq<Event>)
      requires Valid()
      modifies bidQty, askQty, book.Repr
      ensures Valid() && book == old(book) && (State(), events) == Mirrors.Touch(cfg, old(State()), side, u, additions)
    {
      hide OrderBook.Parts, OrderBook.Contents, BookStates.Inv, Mirrors.SetLevel;
      events := [];
      var rel := u.px - cfg.minPrice;
      if rel < 0 || rel >= cfg.numLevels {
        return;
      }
      var reduces := u.qty < QtyAt(side, rel);
      if reduces != additions {
        events := SetLevel(side, rel, u.qty, additions);
      }
    }

    method PassOver(side: Side, ups: seq<Update>, additions: bool) returns (events: seq<Event>)
      requires Valid()
      modifies bidQty, askQty, book.Repr
      ensures Valid() && book == old(book) && (State(), events) == Pass(cfg, old(State()), side, ups, additions)
    {
      hide OrderBook.Parts, OrderBook.Contents, BookStates.Inv, Mirrors.Touch;
      events := [];
      var i := 0;
      ghost var goal := Pass(cfg, State(), side, ups, additions);
      assert ups[0..] == ups;
      assert [] + goal.1 == goal.1;
      while i < |ups|
        invariant 0 <= i <= |ups| && Valid()
        invariant Pass(cfg, State(), side, ups[i..], additions).0 == goal.0
        invariant events + Pass(cfg, State(), side, ups[i..], additions).1 == goal.1
      {
        assert ups[i..][1..] == ups[i + 1..] && ups[i..][0] == ups[i];
        var now := Touch(side, ups[i], additions);
        ghost var later := Pass(cfg, State(), side, ups[i + 1..], additions).1;
        assert events + (now + later) == (events + now) + later;
        events := events + now;
        i := i + 1;
      }
      assert events + [] == events;
    }

    /** One diff: reductions on both sides, then the rest on both sides. */
    method ApplyDiff(bids: seq<Update>, asks: seq<Update>) returns (events: seq<Event>)
      requires Valid()
      modifies bidQty, askQty, book.Repr
      ensures Valid() && book == old(book) && (State(), events) == Mirrors.ApplyDiff(cfg, old(State()), bids, asks)
      ensures old(MirrorOk(cfg, State()) && Proper(cfg, State(), Diff(bids, asks))) ==>
          MirrorOk(cfg, State()) && NoTrade(events)
    {
      hide OrderBook.Parts, OrderBook.Contents, BookStates.Inv, Pass, MirrorOk, Distinct, Mirrors.Uncrossed, Count;
      if MirrorOk(cfg, State()) && Proper(cfg, State(), Diff(bids, asks)) {
        NeverTrades(cfg, State(), bids, asks);
      }
      events := PassOver(Buy, bids, false);
      var e2 := PassOver(Sell, asks, false);
      var e3 := PassOver(Buy, bids, true);
      var e4 := PassOver(Sell, asks, true);
      events := events + e2 + e3 + e4;
    }

    method Clear()
      requires bidQty != askQty && ValidConfig(cfg) && bidQty.Length == cfg.numLevels && askQty.Length == cfg.numLevels
      modifies this`book, bidQty, askQty
      ensures Valid() && State() == Fresh(cfg) && fresh(book) && fresh(book.Repr)
    {
      hide OrderBook.Parts, OrderBook.Contents, BookStates.Inv;
      for i := 0 to cfg.numLevels
        invariant forall k :: 0 <= k < i ==> bidQty[k] == 0 && askQty[k] == 0
        modifies bidQty, askQty
      {
        bidQty[i], askQty[i] := 0, 0;
      }
      var inner := OrderBook.Open(cfg);
      book := inner;
      assert bidQty[..] == Zeros(cfg.numLevels) && askQty[..] == Zeros(cfg.numLevels);
    }

    method SeedOver(side: Side, ups: seq<Update>) returns (events: seq<Event>)
      requires Valid()
      modifies bidQty, askQty, book.Repr
      ensures Valid() && book == old(book) && (State(), events) == SeedSide(cfg, old(State()), side, ups)
    {
      hide OrderBook.Parts, OrderBook.Contents, BookStates.Inv, Mirrors.SetLevel, SeedSide;
      events := [];
      var i := 0;
      ghost var goal := SeedSide(cfg, State(), side, ups);
      assert ups[0..] == ups;
      assert [] + goal.1 == goal.1;
      while i < |ups|
        invariant 0 <= i <= |ups| && Valid()
        invariant SeedSide(cfg, State(), side, ups[i..]).0 == goal.0
        invariant events + SeedSide(cfg, State(), side, ups[i..]).1 == goal.1
      {
        SeedNext(cfg, State(), side, ups, i);
        var rel := ups[i].px - cfg.minPrice;
        var now: seq<Event> := [];
        if 0 <= rel < cfg.numLevels {
          now := SetLevel(side, rel, ups[i].qty, true);
        }
        ghost var later := SeedSide(cfg, State(), side, ups[i + 1..]).1;
        assert events + (now + later) == (events + now) + later;
        events := events + now;
        i := i + 1;
      }
      SeedNext(cfg, State(), side, ups, i);
      assert events + [] == events;
    }

    /** Drops everything and starts again from a snapshot. */
    method Seed(bids: seq<Update>, asks: seq<Update>) returns (events: seq<Event>)
      requires Valid() && ValidConfig(cfg)
      modifies this`book, bidQty, askQty
      ensures Valid() && (State(), events) == Mirrors.Seed(cfg, bids, asks)
      ensures cfg.stp == NoStp && Proper(cfg, Fresh(cfg), Reseed(bids, asks)) ==>
          MirrorOk(cfg, State()) && NoTrade(events)
    {
      hide OrderBook.Parts, OrderBook.Contents, BookStates.Inv, SeedSide, MirrorOk, Distinct, Mirrors.Uncrossed, Count;
      if cfg.stp == NoStp && Proper(cfg, Fresh(cfg), Reseed(bids, asks)) {
        SeedNeverTrades(cfg, bids, asks);
      }
      Clear();
      events := SeedOver(Buy, bids);
      var e2 := SeedOver(Sell, asks);
      events := events + e2;
    }
  }
}
