/** The feed makes progress: snapshots come at least as often as asked for, and whoever hears a whole one and the
    packets behind it, in either order, is synced on the engine's book; whoever hears a number knows if it is behind. */
module FeedProgress {
  import opened Types
  import opened LevelNotes
  import opened MdFeeds
  import opened MdNodes
  import opened MarketData

  // ---- when a snapshot is sent ----

  /** How many datagrams n entries take. */
  function Datagrams(n: nat): nat {
    (n + 59) / 60
  }

  /** A flush sends its entries in consecutively numbered packets and, if and only if that brings the packets since the
      last snapshot to `every`, a snapshot tagged with the last of them. */
  lemma FlushSnapshotsIff(p: MdPub, all: seq<Entry>)
    ensures var (q, sent) := FlushS(p, all);
      var cs := Cut(p.staged);
      && |cs| == Datagrams(|p.staged|) && q.seq_ == p.seq_ + |cs|
      && if p.every != 0 && p.sinceSnapshot + |cs| >= p.every
         then sent == Numbered(p.seq_, cs) + SnapPackets(q.seq_, SnapParts(all)) && q.sinceSnapshot == 0
         else sent == Numbered(p.seq_, cs) && q.sinceSnapshot == p.sinceSnapshot + |cs|
  {
    if p.staged != [] {
      CutAt(p.staged, 0);
    }
  }

  /** The number of the last snapshot, or 0 before any. */
  function LastSnapshot(sys: System): int {
    |sys.feed.history| - sys.pub.sinceSnapshot
  }

  ghost predicate KeepsUp(sys: System) {
    && sys.pub.seq_ == |sys.feed.history| && LastSnapshot(sys) >= 0
    && (LastSnapshot(sys) > 0 ==> LastSnapshot(sys) in sys.feed.snaps)
    && (sys.pub.every != 0 ==> sys.pub.sinceSnapshot < sys.pub.every)
  }

  /** Everything numbered, and every snapshot's every part, has been sent. */
  ghost predicate Spoken(sys: System) {
    && (forall i: nat :: i < |sys.feed.history| ==> Incremental(i + 1, sys.feed.history[i]) in sys.net)
    && forall n: nat :: n in sys.feed.snaps ==> Sent(SnapPackets(n, sys.feed.snaps[n])) <= sys.net
  }

  lemma CommitKeepsUp(cfg: Config, sys: System, cmds: seq<Command>, order: seq<Place>)
    requires KeepsUp(sys)
    ensures KeepsUp(Do(cfg, sys, CommitBatch(cmds, order)))
    ensures Do(cfg, sys, CommitBatch(cmds, order)).pub.every == sys.pub.every
  {
    hide Batch, Staged, ListBooks, SnapParts, Cut;
  }

  lemma {:induction false} NumberedAt(n: nat, cs: seq<seq<Entry>>, i: nat)
    requires i < |cs|
    ensures Incremental(n + i + 1, cs[i]) in Sent(Numbered(n, cs))
    decreases |cs|
  {
    var ps := Numbered(n, cs);
    if i == 0 {
      assert ps[0] == Incremental(n + 1, cs[0]);
    } else {
      NumberedAt(n + 1, cs[1..], i - 1);
      var rest := Numbered(n + 1, cs[1..]);
      var k :| 0 <= k < |rest| && rest[k] == Incremental(n + i + 1, cs[i]);
      assert ps[k + 1] == rest[k];
    }
  }

  lemma CommitSpoken(cfg: Config, sys: System, cmds: seq<Command>, order: seq<Place>)
    requires Spoken(sys) && sys.pub.seq_ == |sys.feed.history|
    ensures Spoken(Do(cfg, sys, CommitBatch(cmds, order)))
  {
    hide Batch, Staged, ListBooks, SnapParts, Cut, Sent, SnapPackets, Numbered;
    var z := Batch(cfg, sys.books, cmds);
    var pub, all := sys.pub.(staged := Staged(z.events, order, z.books)), ListBooks(cfg, z.books, 0);
    var cs, now := Cut(pub.staged), Do(cfg, sys, CommitBatch(cmds, order));
    SentConcat(Numbered(pub.seq_, cs), SnapPackets(pub.seq_ + |cs|, SnapParts(all)));
    forall i: nat | i < |now.feed.history| ensures Incremental(i + 1, now.feed.history[i]) in now.net {
      if i >= |sys.feed.history| {
        NumberedAt(pub.seq_, cs, i - |sys.feed.history|);
      }
    }
  }

  lemma FinishSpoken(cfg: Config, sys: System)
    requires Spoken(sys) && sys.pub.seq_ == |sys.feed.history|
    ensures Spoken(Do(cfg, sys, Finish))
  {
    hide ListBooks, SnapParts, Sent, SnapPackets;
    var now := Do(cfg, sys, Finish);
    assert now.feed.history == sys.feed.history;
  }

  lemma {:induction false} RunProgress(cfg: Config, books: Books, every: nat, moves: seq<Move>)
    ensures KeepsUp(Run(cfg, books, every, moves)) && Spoken(Run(cfg, books, every, moves))
    ensures Run(cfg, books, every, moves).pub.every == every
    decreases |moves|
  {
    hide KeepsUp, Spoken, Can, FlushS, Batch, ListBooks, OnPacketS;
    if moves == [] {
      StartsUp(cfg, books, every);
    } else {
      var before, m := Run(cfg, books, every, moves[..|moves| - 1]), moves[|moves| - 1];
      RunProgress(cfg, books, every, moves[..|moves| - 1]);
      if Can(cfg, before, m) {
        MoveProgress(cfg, before, m);
      }
    }
  }

  lemma StartsUp(cfg: Config, books: Books, every: nat)
    ensures KeepsUp(Init(cfg, books, every)) && Spoken(Init(cfg, books, every))
  {
    hide ListBooks;
  }

  lemma MoveProgress(cfg: Config, sys: System, m: Move)
    requires KeepsUp(sys) && Spoken(sys)
    ensures KeepsUp(Do(cfg, sys, m)) && Spoken(Do(cfg, sys, m)) && Do(cfg, sys, m).pub.every == sys.pub.every
  {
    match m
    case CommitBatch(cmds, order) =>
      CommitKeepsUp(cfg, sys, cmds, order);
      CommitSpoken(cfg, sys, cmds, order);
    case Beat =>
    case Finish =>
      hide ListBooks, SnapParts;
      FinishSpoken(cfg, sys);
    case Arrive(p) =>
      hide OnPacketS;
  }

  /** In every run with snapshots every so many packets: no more than that since the last one, all told. */
  lemma SnapshotsKeepUp(cfg: Config, books: Books, every: nat, moves: seq<Move>)
    requires every > 0
    ensures var sys := Run(cfg, books, every, moves);
      |sys.feed.history| >= every ==>
        exists n: nat :: n in sys.feed.snaps && |sys.feed.history| - every < n <= |sys.feed.history|
                      && Sent(SnapPackets(n, sys.feed.snaps[n])) <= sys.net
  {
    hide Run, SnapPackets, Sent;
    RunProgress(cfg, books, every, moves);
    var sys := Run(cfg, books, every, moves);
    if |sys.feed.history| >= every {
      var n: nat := LastSnapshot(sys);
      assert n in sys.feed.snaps;
    }
  }

  // ---- hearing everything ----

  /** A subscriber that hears these packets, in their order. */
  function Hears(s: MdSub, ps: seq<MdPacket>): MdSub
    decreases |ps|
  {
    if ps == [] then s else Hears(OnPacketS(s, ps[0]), ps[1..])
  }

  lemma {:induction false} HearsThen(s: MdSub, a: seq<MdPacket>, b: seq<MdPacket>)
    ensures Hears(s, a + b) == Hears(Hears(s, a), b)
    decreases |a|
  {
    hide OnPacketS;
    if a == [] {
      assert a + b == b;
    } else {
      assert (a + b)[1..] == a[1..] + b;
      HearsThen(OnPacketS(s, a[0]), a[1..], b);
    }
  }

  lemma {:induction false} HearsParts(s: MdSub, n: nat, parts: seq<seq<Entry>>, from: nat)
    requires from <= |parts|
    ensures Hears(s, SnapPackets(n, parts)[from..]) == OnParts(s, n, parts, from)
    decreases |parts| - from
  {
    hide OnPacketS;
    var ps := SnapPackets(n, parts);
    if from < |parts| {
      assert ps[from..][0] == Snapshot(n, from, |parts|, parts[from]) && ps[from..][1..] == ps[from + 1..];
      HearsParts(OnPacketS(s, ps[from]), n, parts, from + 1);
    }
  }

  /** A synced subscriber that hears the packets that follow stays synced, up to the last. */
  lemma {:induction false} HearsOn(s: MdSub, f: Feed, n: nat)
    requires n <= |f.history| && s.synced && s.seq_ == n && s.books == Shadow(f, n)
    ensures var t := Hears(s, Numbered(n, f.history[n..]));
      t.synced && t.seq_ == |f.history| && t.books == Shadow(f, |f.history|)
    decreases |f.history| - n
  {
    hide ApplyAll, Shadow;
    if n < |f.history| {
      var rest := f.history[n..];
      assert rest[0] == f.history[n] && rest[1..] == f.history[n + 1..];
      ShadowNext(f, n);
      HearsOn(OnPacketS(s, Incremental(n + 1, rest[0])), f, n + 1);
      assert Numbered(n, rest)[1..] == Numbered(n + 1, rest[1..]);
    }
  }

  /** A lost subscriber keeps what it hears until a snapshot comes. */
  lemma {:induction false} HearsEarly(s: MdSub, f: Feed, n: nat)
    requires n <= |f.history| && !s.synced
    ensures var t := Hears(s, Numbered(n, f.history[n..]));
      && !t.synced
      && (forall k: nat :: k in t.pending <==> k in s.pending || n < k <= |f.history|)
      && (forall k: nat :: n < k <= |f.history| ==> t.pending[k] == f.history[k - 1])
      && (forall k: nat :: k in s.pending && !(n < k <= |f.history|) ==> t.pending[k] == s.pending[k])
    decreases |f.history| - n
  {
    if n < |f.history| {
      var rest := f.history[n..];
      assert rest[0] == f.history[n] && rest[1..] == f.history[n + 1..];
      var s1 := OnPacketS(s, Incremental(n + 1, rest[0]));
      HearsEarly(s1, f, n + 1);
      assert Numbered(n, rest)[1..] == Numbered(n + 1, rest[1..]);
    }
  }

  /** With all of the next packets buffered, replay takes them all. */
  lemma {:induction false} ReplayAll(s: MdSub, m: nat)
    requires s.seq_ <= m && forall k: nat :: k in s.pending <==> s.seq_ < k <= m
    ensures Replay(s).pending == map[] && Replay(s).seq_ == m
    decreases |s.pending|
  {
    hide ApplyAll;
    if s.seq_ < m {
      var k := s.seq_ + 1;
      OneFewer(s.pending, k);
      ReplayAll(s.(books := ApplyAll(s.books, s.pending[k]), seq_ := k, pending := s.pending - {k}), m);
    } else {
      assert forall k: nat :: k !in s.pending;
      assert s.pending == map[];
    }
  }

  /** All parts of one snapshot, and every packet behind it: whoever is lost and has buffered nothing else is synced
      at the feed's last number, on the public book, whichever comes first. */
  lemma WholeSyncs(s: MdSub, f: Feed, n: nat)
    requires n in f.snaps && SnapOk(f, n, f.snaps[n]) && !s.synced && s.pending == map[]
    ensures var parts, news := SnapPackets(n, f.snaps[n]), Numbered(n, f.history[n..]);
      && (var t := Hears(s, parts + news); t.synced && t.seq_ == |f.history| && t.books == Shadow(f, |f.history|))
      && (var t := Hears(s, news + parts); t.synced && t.seq_ == |f.history| && t.books == Shadow(f, |f.history|))
  {
    hide OnPacketS, Replay, Shadow, ApplyPackets, Numbered, Hears;
    var parts, news := SnapPackets(n, f.snaps[n]), Numbered(n, f.history[n..]);
    assert parts[0..] == parts;
    HearsThen(s, parts, news);
    HearsParts(s, n, f.snaps[n], 0);
    SnapshotRecovers(s, n, f.snaps[n]);
    NoneBuffered(n, f.snaps[n]);
    HearsOn(Hears(s, parts), f, n);
    HearsThen(s, news, parts);
    HearsEarly(s, f, n);
    var early := Hears(s, news);
    HearsParts(early, n, f.snaps[n], 0);
    SnapshotRecovers(early, n, f.snaps[n]);
    AllBuffered(f, n, early.pending);
  }

  lemma NoneBuffered(n: nat, parts: seq<seq<Entry>>)
    ensures var u := Recovered(n, parts, map[]);
      u.pending == map[] && u.seq_ == n && u.books == ApplyPackets(map[], parts)
  {
    assert DropOld(map[], n) == map[];
  }

  lemma AllBuffered(f: Feed, n: nat, pending: map<nat, seq<Entry>>)
    requires n in f.snaps && SnapOk(f, n, f.snaps[n])
    requires forall k: nat :: k in pending <==> n < k <= |f.history|
    requires forall k: nat :: n < k <= |f.history| ==> pending[k] == f.history[k - 1]
    ensures var u := Recovered(n, f.snaps[n], pending);
      u.pending == map[] && u.seq_ == |f.history| && u.books == Shadow(f, |f.history|)
  {
    hide Replay, Shadow;
    var s := NewMdSub.(books := ApplyPackets(map[], f.snaps[n]), seq_ := n, synced := true,
                       pending := DropOld(pending, n));
    ReplayAll(s, |f.history|);
    ReplayOk(s, f);
  }

  /** In every run that shows what it changes, and for every snapshot it has sent: a newcomer that hears its parts and
      the packets behind it, all of which have been sent, holds the engine's level-2 book as it is, in whichever
      order the two come. */
  lemma NewcomerSyncs(cfg: Config, books: Books, every: nat, moves: seq<Move>, n: nat)
    requires BooksOk(cfg, books) && AllShown(cfg, books, every, moves)
    requires n in Run(cfg, books, every, moves).feed.snaps
    ensures var sys := Run(cfg, books, every, moves);
      && n <= |sys.feed.history|
      && var parts, news := SnapPackets(n, sys.feed.snaps[n]), Numbered(n, sys.feed.history[n..]);
         && Sent(parts) <= sys.net && Sent(news) <= sys.net
         && SyncedAt(Hears(NewMdSub, parts + news), sys) && SyncedAt(Hears(NewMdSub, news + parts), sys)
  {
    hide Run, Hears, Numbered, SnapPackets, Shadow, BooksOk;
    RunOk(cfg, books, every, moves);
    RunProgress(cfg, books, every, moves);
    var sys := Run(cfg, books, every, moves);
    assert SnapOk(sys.feed, n, sys.feed.snaps[n]);
    WholeSyncs(NewMdSub, sys.feed, n);
    NewsSent(sys, n);
  }

  /** Synced at the publisher's own number on the engine's level-2 book. */
  ghost predicate SyncedAt(s: MdSub, sys: System) {
    s.synced && s.seq_ == sys.pub.seq_ && IsL2(s.books, sys.books)
  }

  lemma NewsSent(sys: System, n: nat)
    requires Spoken(sys) && n <= |sys.feed.history|
    ensures Sent(Numbered(n, sys.feed.history[n..])) <= sys.net
  {
    NumberedSent(n, sys.feed.history[n..], sys.net);
  }

  lemma {:induction false} NumberedSent(n: nat, cs: seq<seq<Entry>>, net: set<MdPacket>)
    requires forall i: nat :: i < |cs| ==> Incremental(n + i + 1, cs[i]) in net
    ensures Sent(Numbered(n, cs)) <= net
    decreases |cs|
  {
    if cs != [] {
      forall i: nat | i < |cs[1..]| ensures Incremental(n + 1 + i + 1, cs[1..][i]) in net {
        assert Incremental(n + (i + 1) + 1, cs[i + 1]) in net;
      }
      NumberedSent(n + 1, cs[1..], net);
      var ps := Numbered(n, cs);
      assert Incremental(n + 0 + 1, cs[0]) in net;
      forall p | p in Sent(ps) ensures p in net {
        var k :| 0 <= k < |ps| && ps[k] == p;
        if k > 0 {
          assert Numbered(n + 1, cs[1..])[k - 1] == p;
          assert p in Sent(Numbered(n + 1, cs[1..]));
        }
      }
    }
  }

  // ---- hearing a number ----

  /** In every run that shows what it changes: a subscriber that hears the publisher's own number, in a heartbeat or
      the end, either finds itself behind and waits for a snapshot, or holds the engine's level-2 book as it is. */
  lemma HeardIsCurrent(cfg: Config, books: Books, every: nat, moves: seq<Move>, p: MdPacket)
    requires BooksOk(cfg, books) && AllShown(cfg, books, every, moves)
    requires var sys := Run(cfg, books, every, moves); p == Heartbeat(sys.pub.seq_) || p == End(sys.pub.seq_)
    requires p in Run(cfg, books, every, moves).net
    ensures var sys, now := Run(cfg, books, every, moves), Run(cfg, books, every, moves + [Arrive(p)]);
      && now.books == sys.books
      && (now.sub.synced <==> sys.sub.synced && sys.sub.seq_ == sys.pub.seq_)
      && (now.sub.synced ==> IsL2(now.sub.books, now.books))
      && (p.End? ==> (now.sub.ended <==> now.sub.synced))
  {
    hide Run, BooksOk, IsL2, Told, PartsOk, ListBooks, Shadow;
    var sys := Run(cfg, books, every, moves);
    Then(cfg, books, every, moves, Arrive(p));
    RunOk(cfg, books, every, moves);
    SyncedIsExact(cfg, books, every, moves);
  }

  /** A subscriber has ended if and only if it has heard the end and is synced no earlier, whenever it hears anything
      that may change that: a number, the end, or a part that completes a snapshot. */
  lemma EndedIff(s: MdSub, p: MdPacket)
    requires p.Heartbeat? || p.End? || (p.Snapshot? && !s.synced)
    ensures var t := OnPacketS(s, p);
      && (t.ended <==> t.endSeen && t.synced && t.seq_ >= t.endSeq)
      && (p.End? ==> t.endSeen && t.endSeq == p.seq_)
      && (p.Heartbeat? || p.End? ==> (t.synced <==> s.synced && s.seq_ >= p.seq_))
  {
    hide Replay, ApplyPackets;
  }
}
