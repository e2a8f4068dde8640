/** The public level-2 feed. Incremental packets carry the new totals of the levels that changed;
    snapshots, split over several packets and tagged with the last incremental they reflect, let a
    subscriber that has lost something start again. Books are kept as one map from level to total. */
module MdFeeds {
  import opened Types
  import opened LevelNotes
  import SeqSubscribers

  /** Entries per datagram. */
  const PER_PACKET := 60

  /** A level's new total (0 removes it), a trade, or what stands for an empty snapshot part. */
  datatype Entry = LevelEntry(place: Place, qty: nat) | TradeEntry(place: Place, qty: nat) | Filler

  type L2 = map<Place, nat>

  datatype MdPacket =
    | Incremental(seq_: nat, entries: seq<Entry>)
    | Snapshot(snapSeq: nat, part: nat, parts: nat, entries: seq<Entry>)
    | Heartbeat(seq_: nat)
    | End(seq_: nat)

  function ApplyEntry(b: L2, e: Entry): L2 {
    if e.LevelEntry? then (if e.qty == 0 then b - {e.place} else b[e.place := e.qty]) else b
  }

  function ApplyAll(b: L2, es: seq<Entry>): L2
    decreases |es|
  {
    if es == [] then b else ApplyAll(ApplyEntry(b, es[0]), es[1..])
  }

  function ApplyPackets(b: L2, ps: seq<seq<Entry>>): L2
    decreases |ps|
  {
    if ps == [] then b else ApplyAll(ApplyPackets(b, ps[..|ps| - 1]), ps[|ps| - 1])
  }

  lemma {:induction false} ApplyAllConcat(b: L2, x: seq<Entry>, y: seq<Entry>)
    ensures ApplyAll(b, x + y) == ApplyAll(ApplyAll(b, x), y)
    decreases |x|
  {
    if x == [] {
      assert x + y == y;
    } else {
      assert (x + y)[1..] == x[1..] + y;
      ApplyAllConcat(ApplyEntry(b, x[0]), x[1..], y);
    }
  }

  function Flat(ps: seq<seq<Entry>>): seq<Entry> {
    if ps == [] then [] else Flat(ps[..|ps| - 1]) + ps[|ps| - 1]
  }

  lemma {:induction false} ApplyFlat(b: L2, ps: seq<seq<Entry>>)
    ensures ApplyPackets(b, ps) == ApplyAll(b, Flat(ps))
    decreases |ps|
  {
    if ps != [] {
      ApplyFlat(b, ps[..|ps| - 1]);
      ApplyAllConcat(b, Flat(ps[..|ps| - 1]), ps[|ps| - 1]);
    }
  }

  /** Everything the publisher has said: the book it started from, each incremental packet's entries, and
      the parts of the snapshot tagged with each number. */
  datatype Feed = Feed(base: L2, history: seq<seq<Entry>>, snaps: map<nat, seq<seq<Entry>>>)

  /** The public book after incremental packet n. */
  function Shadow(f: Feed, n: nat): L2
    requires n <= |f.history|
  {
    ApplyPackets(f.base, f.history[..n])
  }

  /** A snapshot's parts rebuild exactly the public book at its number; only a lone part may be empty. */
  ghost predicate SnapOk(f: Feed, n: nat, parts: seq<seq<Entry>>) {
    && n <= |f.history| && |parts| >= 1
    && ApplyPackets(map[], parts) == Shadow(f, n)
    && (|parts| > 1 ==> forall i :: 0 <= i < |parts| ==> parts[i] != [])
  }

  ghost predicate FeedOk(f: Feed) {
    forall n: nat :: n in f.snaps ==> SnapOk(f, n, f.snaps[n])
  }

  /** What a packet of this feed may say. */
  ghost predicate Told(f: Feed, p: MdPacket) {
    match p
    case Incremental(n, es) => 1 <= n <= |f.history| && es == f.history[n - 1]
    case Snapshot(n, part, parts, es) => n in f.snaps && parts == |f.snaps[n]| && part < parts && es == f.snaps[n][part]
    case Heartbeat(n) => n <= |f.history|
    case End(n) => n <= |f.history|
  }

  // ---- the subscriber ----

  const NO_SNAPSHOT: nat := U64 - 1

  datatype MdSub = MdSub(
    synced: bool, ended: bool, endSeen: bool, seq_: nat, endSeq: nat, books: L2, pending: map<nat, seq<Entry>>,
    snapId: nat, snapParts: seq<seq<Entry>>, snapHave: nat)

  const NewMdSub := MdSub(false, false, false, 0, 0, map[], map[], NO_SNAPSHOT, [], 0)

  function CheckEnd(s: MdSub): MdSub {
    s.(ended := s.endSeen && s.synced && s.seq_ >= s.endSeq)
  }

  function LoseSync(s: MdSub): MdSub {
    s.(synced := false, books := map[])
  }

  function DropOld(pending: map<nat, seq<Entry>>, n: nat): map<nat, seq<Entry>> {
    map k | k in pending && k > n :: pending[k]
  }

  /** Applies buffered packets while the next one is there. */
  function Replay(s: MdSub): MdSub
    decreases |s.pending|
  {
    if s.seq_ + 1 !in s.pending then s
    else
      OneFewer(s.pending, s.seq_ + 1);
      Replay(s.(books := ApplyAll(s.books, s.pending[s.seq_ + 1]), seq_ := s.seq_ + 1,
                pending := s.pending - {s.seq_ + 1}))
  }

  lemma OneFewer(m: map<nat, seq<Entry>>, k: nat)
    requires k in m
    ensures |m - {k}| < |m|
  {
    assert (m - {k}).Keys == m.Keys - {k};
    assert |m.Keys| == |m| && |(m - {k}).Keys| == |m - {k}|;
  }

  /** A complete snapshot: rebuild from it, then from what was buffered behind it. */
  function Rebuild(s: MdSub): MdSub {
    var s1 := s.(books := ApplyPackets(map[], s.snapParts), seq_ := s.snapId, synced := true,
                 pending := DropOld(s.pending, s.snapId));
    var s2 := Replay(s1);
    CheckEnd(if s2.pending != map[] then LoseSync(s2) else s2)
  }

  function Blanks(n: nat): seq<seq<Entry>> {
    seq(n, _ => [])
  }

  function OnPart(s: MdSub, n: nat, part: nat, parts: nat, es: seq<Entry>): MdSub {
    var s1 := if part == 0 || n != s.snapId then s.(snapId := n, snapParts := Blanks(parts), snapHave := 0) else s;
    if part >= |s1.snapParts| || s1.snapParts[part] != [] || (es == [] && parts > 1) then s1
    else
      var s2 := s1.(snapParts := s1.snapParts[part := if es == [] then [Filler] else es], snapHave := s1.snapHave + 1);
      if s2.snapHave < |s2.snapParts| then s2 else Rebuild(s2)
  }

  function OnPacketS(s: MdSub, p: MdPacket): MdSub {
    match p
    case Incremental(n, es) =>
      if s.synced && n <= s.seq_ then s
      else if s.synced && n == s.seq_ + 1 then s.(books := ApplyAll(s.books, es), seq_ := n)
      else
        var s1 := if s.synced then LoseSync(s) else s;
        s1.(pending := s1.pending[n := es])
    case Heartbeat(n) => CheckEnd(if s.synced && n > s.seq_ then LoseSync(s) else s)
    case End(n) =>
      var s1 := if s.synced && n > s.seq_ then LoseSync(s) else s;
      CheckEnd(s1.(endSeq := n, endSeen := true))
    case Snapshot(n, part, parts, es) => if s.synced then s else CheckEnd(OnPart(s, n, part, parts, es))
  }

  function Full(parts: seq<seq<Entry>>): nat {
    if parts == [] then 0 else Full(parts[..|parts| - 1]) + if parts[|parts| - 1] != [] then 1 else 0
  }

  lemma {:induction false} FullBlanks(n: nat)
    ensures Full(Blanks(n)) == 0
  {
    if n > 0 {
      assert Blanks(n)[..n - 1] == Blanks(n - 1);
      FullBlanks(n - 1);
    }
  }

  lemma {:induction false} FullSet(parts: seq<seq<Entry>>, i: nat, es: seq<Entry>)
    requires i < |parts| && parts[i] == [] && es != []
    ensures Full(parts[i := es]) == Full(parts) + 1
    decreases |parts|
  {
    var m := |parts| - 1;
    if i < m {
      FullSet(parts[..m], i, es);
      assert parts[i := es][..m] == parts[..m][i := es];
    } else {
      assert parts[i := es][..m] == parts[..m];
    }
  }

  lemma {:induction false} FullAll(parts: seq<seq<Entry>>)
    ensures Full(parts) <= |parts|
    ensures Full(parts) == |parts| ==> forall i :: 0 <= i < |parts| ==> parts[i] != []
    decreases |parts|
  {
    if parts != [] {
      FullAll(parts[..|parts| - 1]);
      assert forall i :: 0 <= i < |parts| - 1 ==> parts[..|parts| - 1][i] == parts[i];
    }
  }

  /** What a snapshot part is stored as. */
  function Stored(es: seq<Entry>): seq<Entry> {
    if es == [] then [Filler] else es
  }

  /** The parts collected so far are the snapshot's own. */
  ghost predicate PartsOk(s: MdSub, f: Feed) {
    && s.snapHave == Full(s.snapParts)
    && (s.snapParts == [] || (s.snapId in f.snaps && |s.snapParts| == |f.snaps[s.snapId]|))
    && forall i :: 0 <= i < |s.snapParts| ==> s.snapParts[i] == [] || s.snapParts[i] == Stored(f.snaps[s.snapId][i])
  }

  /** A synced subscriber holds the public book at its number, and has nothing buffered. */
  ghost predicate MdOk(s: MdSub, f: Feed) {
    && (s.synced ==> s.seq_ <= |f.history| && s.books == Shadow(f, s.seq_) && s.pending == map[])
    && (forall k: nat :: k in s.pending ==> Told(f, Incremental(k, s.pending[k])))
    && PartsOk(s, f)
    && (s.endSeen ==> s.endSeq <= |f.history|)
  }

  lemma ShadowNext(f: Feed, n: nat)
    requires n < |f.history|
    ensures Shadow(f, n + 1) == ApplyAll(Shadow(f, n), f.history[n])
  {
    assert f.history[..n + 1][..n] == f.history[..n];
  }

  lemma {:induction false} ReplayOk(s: MdSub, f: Feed)
    requires s.seq_ <= |f.history| && s.books == Shadow(f, s.seq_)
    requires forall k: nat :: k in s.pending ==> Told(f, Incremental(k, s.pending[k]))
    ensures var t := Replay(s);
      && s.seq_ <= t.seq_ <= |f.history| && t.books == Shadow(f, t.seq_)
      && (forall k: nat :: k in t.pending ==> k in s.pending && t.pending[k] == s.pending[k])
      && t == s.(books := t.books, seq_ := t.seq_, pending := t.pending)
    decreases |s.pending|
  {
    if s.seq_ + 1 in s.pending {
      assert Told(f, Incremental(s.seq_ + 1, s.pending[s.seq_ + 1]));
      ShadowNext(f, s.seq_);
      OneFewer(s.pending, s.seq_ + 1);
      ReplayOk(s.(books := ApplyAll(s.books, s.pending[s.seq_ + 1]), seq_ := s.seq_ + 1,
                  pending := s.pending - {s.seq_ + 1}), f);
    }
  }

  /** Stored parts, all there, rebuild what the snapshot's own parts do. */
  lemma {:induction false} StoredSame(b: L2, parts: seq<seq<Entry>>, stored: seq<seq<Entry>>)
    requires |stored| == |parts| && forall i :: 0 <= i < |parts| ==> stored[i] == Stored(parts[i])
    ensures ApplyPackets(b, stored) == ApplyPackets(b, parts)
    decreases |parts|
  {
    if parts != [] {
      var m := |parts| - 1;
      StoredSame(b, parts[..m], stored[..m]);
      var b1 := ApplyPackets(b, parts[..m]);
      assert ApplyAll(b1, [Filler]) == ApplyAll(ApplyEntry(b1, Filler), [Filler][1..]) == b1;
    }
  }

  lemma RebuildOk(s: MdSub, f: Feed)
    requires MdOk(s, f) && FeedOk(f) && s.snapParts != [] && s.snapHave == |s.snapParts|
    ensures MdOk(Rebuild(s), f)
  {
    hide Shadow, Replay, ApplyPackets;
    FullAll(s.snapParts);
    assert SnapOk(f, s.snapId, f.snaps[s.snapId]);
    StoredSame(map[], f.snaps[s.snapId], s.snapParts);
    var s1 := s.(books := ApplyPackets(map[], s.snapParts), seq_ := s.snapId, synced := true,
                 pending := DropOld(s.pending, s.snapId));
    ReplayOk(s1, f);
  }

  lemma StoreOk(s: MdSub, f: Feed, part: nat, es: seq<Entry>)
    requires MdOk(s, f) && part < |s.snapParts| && s.snapParts[part] == [] && s.snapId in f.snaps
    requires |f.snaps[s.snapId]| == |s.snapParts| && es == f.snaps[s.snapId][part]
    ensures var t := s.(snapParts := s.snapParts[part := Stored(es)], snapHave := s.snapHave + 1);
      MdOk(t, f) && t.snapHave <= |t.snapParts|
  {
    hide Shadow;
    FullSet(s.snapParts, part, Stored(es));
    FullAll(s.snapParts[part := Stored(es)]);
  }

  lemma ResetOk(s: MdSub, f: Feed, n: nat, parts: nat)
    requires MdOk(s, f) && n in f.snaps && |f.snaps[n]| == parts
    ensures MdOk(s.(snapId := n, snapParts := Blanks(parts), snapHave := 0), f)
  {
    hide Shadow;
    FullBlanks(parts);
  }

  lemma OnPartOk(s: MdSub, f: Feed, n: nat, part: nat, parts: nat, es: seq<Entry>)
    requires MdOk(s, f) && FeedOk(f) && !s.synced && Told(f, Snapshot(n, part, parts, es))
    ensures MdOk(OnPart(s, n, part, parts, es), f)
  {
    hide MdOk, Rebuild, FeedOk;
    var s1 := if part == 0 || n != s.snapId then s.(snapId := n, snapParts := Blanks(parts), snapHave := 0) else s;
    ResetOk(s, f, n, parts);
    if part < |s1.snapParts| && s1.snapParts[part] == [] && !(es == [] && parts > 1) {
      PartsCount(s1, f);
      StoreOk(s1, f, part, es);
      var s2 := s1.(snapParts := s1.snapParts[part := Stored(es)], snapHave := s1.snapHave + 1);
      if s2.snapHave == |s2.snapParts| {
        RebuildOk(s2, f);
      }
    }
  }

  lemma PartsCount(s: MdSub, f: Feed)
    requires MdOk(s, f) && s.snapParts != []
    ensures s.snapId in f.snaps && |s.snapParts| == |f.snaps[s.snapId]|
  {
  }

  /** The heart of the recovery: whatever packets of the feed arrive, in whatever order and however often,
      a synced subscriber holds exactly the public book at its sequence number. */
  lemma OnPacketOk(s: MdSub, p: MdPacket, f: Feed)
    requires MdOk(s, f) && FeedOk(f) && Told(f, p)
    ensures MdOk(OnPacketS(s, p), f)
  {
    hide Shadow, OnPart;
    match p
    case Incremental(n, es) =>
      if s.synced && n == s.seq_ + 1 {
        ShadowNext(f, s.seq_);
      }
    case Snapshot(n, part, parts, es) =>
      if !s.synced {
        OnPartOk(s, f, n, part, parts, es);
      }
    case _ =>
  }

  /** The feed only grows; what a subscriber holds stays right. */
  ghost predicate FeedGrows(f: Feed, f': Feed) {
    && f'.base == f.base && |f.history| <= |f'.history| && f'.history[..|f.history|] == f.history
    && forall n: nat :: n in f.snaps ==> n in f'.snaps && f'.snaps[n] == f.snaps[n]
  }

  lemma ShadowGrows(f: Feed, f': Feed, n: nat)
    requires FeedGrows(f, f') && n <= |f.history|
    ensures Shadow(f', n) == Shadow(f, n)
  {
    assert f'.history[..n] == f'.history[..|f.history|][..n];
  }

  lemma MdGrows(s: MdSub, f: Feed, f': Feed)
    requires MdOk(s, f) && FeedGrows(f, f')
    ensures MdOk(s, f')
  {
    hide Shadow;
    if s.synced {
      ShadowGrows(f, f', s.seq_);
    }
    forall k: nat | k in s.pending ensures Told(f', Incremental(k, s.pending[k])) {
      assert Told(f, Incremental(k, s.pending[k]));
      assert f'.history[k - 1] == f'.history[..|f.history|][k - 1];
    }
  }

  lemma ToldGrows(f: Feed, f': Feed, p: MdPacket)
    requires FeedGrows(f, f') && Told(f, p)
    ensures Told(f', p)
  {
    if p.Incremental? {
      assert f'.history[p.seq_ - 1] == f'.history[..|f.history|][p.seq_ - 1];
    }
  }

  // ---- recovery ----

  function OnParts(s: MdSub, n: nat, parts: seq<seq<Entry>>, from: nat): MdSub
    requires from <= |parts|
    decreases |parts| - from
  {
    if from == |parts| then s else OnParts(OnPacketS(s, Snapshot(n, from, |parts|, parts[from])), n, parts, from + 1)
  }

  /** The first `from` parts of a snapshot are stored, the rest still blank. */
  ghost predicate Collecting(s: MdSub, n: nat, parts: seq<seq<Entry>>, from: nat) {
    && !s.synced && s.snapId == n && s.snapHave == from && |s.snapParts| == |parts| && from < |parts|
    && (|parts| > 1 ==> forall i :: 0 <= i < |parts| ==> parts[i] != [])
    && forall i :: 0 <= i < |parts| ==> s.snapParts[i] == if i < from then Stored(parts[i]) else []
  }

  /** The book a snapshot and the packets buffered behind it rebuild. */
  function Recovered(n: nat, parts: seq<seq<Entry>>, pending: map<nat, seq<Entry>>): MdSub {
    Replay(NewMdSub.(books := ApplyPackets(map[], parts), seq_ := n, synced := true, pending := DropOld(pending, n)))
  }

  lemma {:induction false} ReplaySame(s: MdSub, t: MdSub)
    requires s.books == t.books && s.seq_ == t.seq_ && s.pending == t.pending
    ensures var u, v := Replay(s), Replay(t);
      u.books == v.books && u.seq_ == v.seq_ && u.pending == v.pending && u.synced == s.synced
    decreases |s.pending|
  {
    if s.seq_ + 1 in s.pending {
      OneFewer(s.pending, s.seq_ + 1);
      var b, k := ApplyAll(s.books, s.pending[s.seq_ + 1]), s.seq_ + 1;
      ReplaySame(s.(books := b, seq_ := k, pending := s.pending - {k}),
                 t.(books := b, seq_ := k, pending := t.pending - {k}));
    }
  }

  lemma CompletePart(s: MdSub, n: nat, parts: seq<seq<Entry>>)
    requires |parts| >= 1 && Collecting(s, n, parts, |parts| - 1)
    ensures var t := OnPacketS(s, Snapshot(n, |parts| - 1, |parts|, parts[|parts| - 1]));
      var u := Recovered(n, parts, s.pending);
      (t.synced <==> u.pending == map[]) && t.seq_ == u.seq_ && (t.synced ==> t.books == u.books)
  {
    hide Replay, ApplyPackets;
    var m := |parts| - 1;
    var s1 := if m == 0 then s.(snapId := n, snapParts := Blanks(1), snapHave := 0) else s;
    assert s1.snapParts == s.snapParts;
    var s2 := s1.(snapParts := s1.snapParts[m := Stored(parts[m])], snapHave := |parts|);
    StoredSame(map[], parts, s2.snapParts);
    var s3 := s2.(books := ApplyPackets(map[], s2.snapParts), seq_ := n, synced := true,
                  pending := DropOld(s.pending, n));
    ReplaySame(s3, NewMdSub.(books := ApplyPackets(map[], parts), seq_ := n, synced := true,
                             pending := DropOld(s.pending, n)));
  }

  lemma CollectPart(s: MdSub, n: nat, parts: seq<seq<Entry>>, from: nat)
    requires Collecting(s, n, parts, from) && from + 1 < |parts|
    ensures var t := OnPacketS(s, Snapshot(n, from, |parts|, parts[from]));
      Collecting(t, n, parts, from + 1) && t.pending == s.pending
  {
    hide Rebuild;
  }

  lemma {:induction false} CollectFrom(s: MdSub, n: nat, parts: seq<seq<Entry>>, from: nat)
    requires from < |parts| && Collecting(s, n, parts, from)
    ensures var t, u := OnParts(s, n, parts, from), Recovered(n, parts, s.pending);
      (t.synced <==> u.pending == map[]) && t.seq_ == u.seq_ && (t.synced ==> t.books == u.books)
    decreases |parts| - from
  {
    hide Collecting, OnPacketS, Recovered;
    var t := OnPacketS(s, Snapshot(n, from, |parts|, parts[from]));
    if from + 1 == |parts| {
      CompletePart(s, n, parts);
      assert OnParts(t, n, parts, from + 1) == t;
    } else {
      CollectPart(s, n, parts, from);
      CollectFrom(t, n, parts, from + 1);
    }
  }

  /** A whole snapshot, its parts in order, brings a lost subscriber back: it ends synced, at the end of
      the run of packets buffered behind the snapshot, exactly when nothing is buffered beyond that run. */
  lemma SnapshotRecovers(s: MdSub, n: nat, parts: seq<seq<Entry>>)
    requires !s.synced && |parts| >= 1 && (|parts| > 1 ==> forall i :: 0 <= i < |parts| ==> parts[i] != [])
    ensures var t, u := OnParts(s, n, parts, 0), Recovered(n, parts, s.pending);
      (t.synced <==> u.pending == map[]) && t.seq_ == u.seq_ && (t.synced ==> t.books == u.books)
  {
    hide Rebuild, Recovered, CheckEnd;
    var s1 := s.(snapId := n, snapParts := Blanks(|parts|), snapHave := 0);
    CollectFrom(s1, n, parts, 0);
    var p := Snapshot(n, 0, |parts|, parts[0]);
    assert OnPacketS(s, p) == OnPacketS(s1, p);
  }
}
