/** The two ends of the feed in place: the gateway's publisher and a subscriber's book. */
module MdNodes {
  import opened Types
  import opened LevelNotes
  import opened MdFeeds
  import SeqSubscribers

  // ---- the publisher ----

  datatype MdPub = MdPub(every: nat, sinceSnapshot: nat, seq_: nat, staged: seq<Entry>)

  /** Entries, a datagram's worth at a time. */
  function Cut(es: seq<Entry>): seq<seq<Entry>>
    decreases |es|
  {
    if es == [] then [] else if |es| <= PER_PACKET then [es] else [es[..PER_PACKET]] + Cut(es[PER_PACKET..])
  }

  /** The parts of a snapshot, their number a 16-bit word: what is beyond it is not sent. */
  function SnapParts(all: seq<Entry>): seq<seq<Entry>> {
    var ps := if all == [] then [[]] else Cut(all);
    ps[..|ps| % U16]
  }

  const U16 := 0x1_0000

  /** The longest listing a snapshot carries whole. */
  const SNAPSHOT_MAX := PER_PACKET * (U16 - 1)

  /** How many entries of a listing of n a snapshot carries. */
  function Carries(n: nat): nat {
    if n <= SNAPSHOT_MAX then n else PER_PACKET * (((n + PER_PACKET - 1) / PER_PACKET) % U16)
  }

  function Numbered(n: nat, cs: seq<seq<Entry>>): seq<MdPacket>
    decreases |cs|
  {
    if cs == [] then [] else [Incremental(n + 1, cs[0])] + Numbered(n + 1, cs[1..])
  }

  function SnapPackets(n: nat, parts: seq<seq<Entry>>): seq<MdPacket> {
    seq(|parts|, i requires 0 <= i < |parts| => Snapshot(n, i, |parts|, parts[i]))
  }

  /** Sends what is staged; then, if one is due, a snapshot of the whole book, `all`. */
  function FlushS(p: MdPub, all: seq<Entry>): (MdPub, seq<MdPacket>) {
    var cs := Cut(p.staged);
    var p1 := p.(seq_ := p.seq_ + |cs|, sinceSnapshot := p.sinceSnapshot + |cs|, staged := []);
    if SnapshotDue(p) then
      (p1.(sinceSnapshot := 0), Numbered(p.seq_, cs) + SnapPackets(p1.seq_, SnapParts(all)))
    else (p1, Numbered(p.seq_, cs))
  }

  predicate SnapshotDue(p: MdPub) {
    p.every != 0 && p.sinceSnapshot + |Cut(p.staged)| >= p.every
  }

  lemma {:induction false} CutFlat(es: seq<Entry>)
    ensures Flat(Cut(es)) == es && forall i :: 0 <= i < |Cut(es)| ==> Cut(es)[i] != []
    decreases |es|
  {
    if es != [] {
      if |es| <= PER_PACKET {
        assert [es][..0] == [] && [] + es == es;
        assert Flat([es]) == Flat([es][..0]) + es;
      } else {
        CutFlat(es[PER_PACKET..]);
        FlatCons(es[..PER_PACKET], Cut(es[PER_PACKET..]));
      }
    }
  }

  lemma {:induction false} FlatCons(x: seq<Entry>, ps: seq<seq<Entry>>)
    ensures Flat([x] + ps) == x + Flat(ps)
    decreases |ps|
  {
    var all := [x] + ps;
    if ps == [] {
      assert all[..0] == [];
      assert Flat(all[..0]) == [] && [] + x == x && x + [] == x;
    } else {
      var m := |ps| - 1;
      assert all[..|all| - 1] == [x] + ps[..m];
      FlatCons(x, ps[..m]);
      assert x + Flat(ps[..m]) + ps[m] == x + (Flat(ps[..m]) + ps[m]);
    }
  }

  lemma {:induction false} CutAt(es: seq<Entry>, i: nat)
    requires i < |Cut(es)|
    ensures |Cut(es)| == (|es| + PER_PACKET - 1) / PER_PACKET && PER_PACKET * i < |es|
    ensures Cut(es)[i]
        == es[PER_PACKET * i..if PER_PACKET * i + PER_PACKET < |es| then PER_PACKET * i + PER_PACKET else |es|]
    decreases |es|
  {
    if |es| > PER_PACKET {
      var rest := es[PER_PACKET..];
      CutAt(rest, if i == 0 then 0 else i - 1);
    }
  }

  /** How many of n entries the first k datagrams hold. */
  function UpTo(n: nat, k: nat): nat {
    if PER_PACKET * k < n then PER_PACKET * k else n
  }

  lemma {:induction false} CutPrefix(es: seq<Entry>, k: nat)
    requires k <= |Cut(es)|
    ensures Flat(Cut(es)[..k]) == es[..UpTo(|es|, k)]
    decreases k
  {
    hide Cut;
    if k > 0 {
      var ps := Cut(es);
      CutAt(es, k - 1);
      CutPrefix(es, k - 1);
      assert ps[..k][..k - 1] == ps[..k - 1];
      assert ps[..k][k - 1] == es[PER_PACKET * (k - 1)..UpTo(|es|, k)];
    }
  }

  lemma CarriesIs(n: nat)
    requires n > 0
    ensures var parts := (n + PER_PACKET - 1) / PER_PACKET;
      && parts > 0 && parts % U16 <= parts && Carries(n) == UpTo(n, parts % U16) <= n
      && (n <= SNAPSHOT_MAX ==> parts % U16 == parts)
      && (Carries(n) == n <==> n <= SNAPSHOT_MAX)
  {
    var parts := (n + PER_PACKET - 1) / PER_PACKET;
    assert PER_PACKET * (parts - 1) < n <= PER_PACKET * parts;
    if n <= SNAPSHOT_MAX {
      assert parts < U16;
    } else {
      assert parts >= U16 && parts % U16 <= parts - U16;
    }
  }

  /** A snapshot carries the first of the listing's entries, and all of them if and only if they are at most
      60 * 65535. */
  lemma SnapCarries(all: seq<Entry>)
    ensures Carries(|all|) <= |all| && Flat(SnapParts(all)) == all[..Carries(|all|)]
    ensures Carries(|all|) == |all| <==> |all| <= 60 * 65535
    ensures |all| <= SNAPSHOT_MAX ==> SnapParts(all) == if all == [] then [[]] else Cut(all)
  {
    if all == [] {
      NothingCarried();
    } else {
      CutAt(all, 0);
      CarriesIs(|all|);
      hide Cut, Flat, Carries, UpTo;
      var ps := Cut(all);
      CutPrefix(all, |ps| % U16);
      assert ps[..|ps|] == ps;
    }
  }

  lemma NothingCarried()
    ensures SnapParts([]) == [[]] && Flat([[]]) == [] && Carries(0) == 0
  {
    var blank: seq<seq<Entry>> := [[]];
    assert blank[..1] == blank && blank[..0] == [];
    assert Flat(blank) == Flat(blank[..0]) + [];
  }

  lemma SnapStart(n: nat, ps: seq<seq<Entry>>)
    ensures SnapPackets(n, ps)[..0] == [] && |SnapPackets(n, ps)| == |ps|
  {
  }

  lemma SnapNext(n: nat, ps: seq<seq<Entry>>, p: nat)
    requires p < |ps|
    ensures |SnapPackets(n, ps)| == |ps|
    ensures SnapPackets(n, ps)[..p + 1] == SnapPackets(n, ps)[..p] + [MdPacket.Snapshot(n, p, |ps|, ps[p])]
  {
  }

  /** The entries of part p of a listing. */
  function PartAt(all: seq<Entry>, p: nat): seq<Entry> {
    var from := PER_PACKET * p;
    if |all| <= from then [] else all[from..if |all| - from < PER_PACKET then |all| else from + PER_PACKET]
  }

  /** A snapshot's parts, one by one. */
  lemma PartsAre(all: seq<Entry>)
    ensures var n, ps := (|all| + PER_PACKET - 1) / PER_PACKET, SnapParts(all);
      && |ps| == (if n < 1 then 1 else n) % U16
      && forall p: nat :: p < |ps| ==> ps[p] == PartAt(all, p)
  {
    if all != [] {
      CutAt(all, 0);
      var ps := SnapParts(all);
      forall p: nat | p < |ps|
        ensures ps[p] == PartAt(all, p)
      {
        CutAt(all, p);
      }
    }
  }

  lemma NumberedCons(sent: seq<MdPacket>, n: nat, x: seq<Entry>, rest: seq<seq<Entry>>)
    ensures sent + Numbered(n, [x] + rest) == (sent + [Incremental(n + 1, x)]) + Numbered(n + 1, rest)
    ensures |[x] + rest| == 1 + |rest|
  {
    assert ([x] + rest)[1..] == rest;
  }

  lemma CutStep(es: seq<Entry>, i: nat)
    requires i < |es|
    ensures var n := if |es| - i < PER_PACKET then |es| - i else PER_PACKET;
      Cut(es[i..]) == [es[i..i + n]] + Cut(es[i + n..])
  {
    if |es| - i > PER_PACKET {
      assert es[i..][PER_PACKET..] == es[i + PER_PACKET..];
      assert es[i..][..PER_PACKET] == es[i..i + PER_PACKET];
    } else {
      assert es[i..] == es[i..i + (|es| - i)];
    }
  }

  lemma AllCut(n: nat, es: seq<Entry>)
    ensures [] + Numbered(n, Cut(es[0..])) == Numbered(n, Cut(es)) && |Cut(es[0..])| == |Cut(es)|
  {
    assert es[0..] == es;
  }

  lemma NoneCut(sent: seq<MdPacket>, n: nat, es: seq<Entry>)
    requires es == []
    ensures sent + Numbered(n, Cut(es)) == sent && |Cut(es)| == 0
  {
  }

  class MdPublisher {
    const every: nat
    var sinceSnapshot: nat
    var seq_: nat
    var staged: seq<Entry>

    function State(): MdPub
      reads this
    {
      MdPub(every, sinceSnapshot, seq_, staged)
    }

    constructor (snapshotEvery: nat)
      ensures State() == MdPub(snapshotEvery, 0, 0, [])
    {
      every, sinceSnapshot, seq_, staged := snapshotEvery, 0, 0, [];
    }

    method Level(place: Place, qty: nat)
      modifies this`staged
      ensures staged == old(staged) + [LevelEntry(place, qty)]
    {
      staged := staged + [LevelEntry(place, qty)];
    }

    method Trade(place: Place, qty: nat)
      modifies this`staged
      ensures staged == old(staged) + [TradeEntry(place, qty)]
    {
      staged := staged + [TradeEntry(place, qty)];
    }

    /** The end of a batch. */
    method Flush(all: seq<Entry>) returns (sent: seq<MdPacket>)
      modifies this
      ensures (State(), sent) == FlushS(old(State()), all)
    {
      sent := [];
      var i := 0;
      AllCut(seq_, staged);
      hide Cut, Numbered;
      while i < |staged|
        invariant 0 <= i <= |staged| && staged == old(staged)
        invariant sent + Numbered(seq_, Cut(staged[i..])) == Numbered(old(seq_), Cut(staged))
        invariant seq_ + |Cut(staged[i..])| == old(seq_) + |Cut(staged)|
        invariant sinceSnapshot + |Cut(staged[i..])| == old(sinceSnapshot) + |Cut(staged)|
      {
        var n := if |staged| - i < PER_PACKET then |staged| - i else PER_PACKET;
        CutStep(staged, i);
        NumberedCons(sent, seq_, staged[i..i + n], Cut(staged[i + n..]));
        seq_ := seq_ + 1;
        sent := sent + [Incremental(seq_, staged[i..i + n])];
        sinceSnapshot := sinceSnapshot + 1;
        i := i + n;
      }
      NoneCut(sent, seq_, staged[i..]);
      if every != 0 && sinceSnapshot >= every {
        var snap := Snap(all);
        sent := sent + snap;
      }
      staged := [];
    }

    method Snap(all: seq<Entry>) returns (sent: seq<MdPacket>)
      modifies this`sinceSnapshot
      ensures sinceSnapshot == 0 && sent == SnapPackets(seq_, SnapParts(all))
    {
      var parts := (|all| + PER_PACKET - 1) / PER_PACKET;
      if parts < 1 {
        parts := 1;
      }
      parts := parts % U16;
      ghost var ps := SnapParts(all);
      PartsAre(all);
      hide *;
      SnapStart(seq_, ps);
      sent := [];
      for p := 0 to parts
        invariant |ps| == parts && sent == SnapPackets(seq_, ps)[..p]
      {
        SnapNext(seq_, ps, p);
        sent := sent + [MdPacket.Snapshot(seq_, p, parts, PartAt(all, p))];
      }
      assert SnapPackets(seq_, ps)[..parts] == SnapPackets(seq_, ps);
      sinceSnapshot := 0;
    }

    method HeartbeatIfIdle(idle: bool) returns (sent: seq<MdPacket>)
      ensures sent == if idle then [Heartbeat(seq_)] else []
    {
      sent := if idle then [Heartbeat(seq_)] else [];
    }

    /** A last snapshot, then the end, three times. */
    method Finish(all: seq<Entry>) returns (sent: seq<MdPacket>)
      modifies this`sinceSnapshot
      ensures sinceSnapshot == 0 && sent == SnapPackets(seq_, SnapParts(all)) + [End(seq_), End(seq_), End(seq_)]
    {
      sent := Snap(all);
      sent := sent + [End(seq_), End(seq_), End(seq_)];
    }
  }

  // ---- a subscriber ----

  lemma LeastNext(keys: set<nat>, n: nat)
    requires keys != {} && forall k :: k in keys ==> k > n
    ensures SeqSubscribers.Least(keys) == n + 1 <==> n + 1 in keys
  {
  }

  lemma ReplayStep(s: MdSub)
    ensures s.seq_ + 1 !in s.pending ==> Replay(s) == s
    ensures s.seq_ + 1 in s.pending ==>
      var t := s.(books := ApplyAll(s.books, s.pending[s.seq_ + 1]), seq_ := s.seq_ + 1,
                  pending := s.pending - {s.seq_ + 1});
      Replay(s) == Replay(t)
  {
  }

  class MdBook {
    var synced: bool
    var ended: bool
    var endSeen: bool
    var seq_: nat
    var endSeq: nat
    var books: L2
    var pending: map<nat, seq<Entry>>
    var snapId: nat
    var snapParts: seq<seq<Entry>>
    var snapHave: nat

    ghost function State(): MdSub
      reads this
    {
      MdSub(synced, ended, endSeen, seq_, endSeq, books, pending, snapId, snapParts, snapHave)
    }

    constructor ()
      ensures State() == NewMdSub
    {
      synced, ended, endSeen, seq_, endSeq, books, pending := false, false, false, 0, 0, map[], map[];
      snapId, snapParts, snapHave := NO_SNAPSHOT, [], 0;
    }

    method ApplyEntries(es: seq<Entry>)
      modifies this`books
      ensures books == ApplyAll(old(books), es)
    {
      var i := 0;
      assert es[0..] == es;
      while i < |es|
        invariant 0 <= i <= |es|
        invariant ApplyAll(books, es[i..]) == ApplyAll(old(books), es)
      {
        assert es[i..][1..] == es[i + 1..];
        if es[i].LevelEntry? {
          if es[i].qty == 0 {
            books := books - {es[i].place};
          } else {
            books := books[es[i].place := es[i].qty];
          }
        }
        i := i + 1;
      }
    }

    method LosingSync()
      modifies this`synced, this`books
      ensures State() == LoseSync(old(State()))
    {
      synced, books := false, map[];
    }

    /** Forgets buffered packets the book already reflects. */
    method ForgetOld()
      modifies this`pending
      ensures pending == DropOld(old(pending), seq_)
    {
      while pending != map[] && SeqSubscribers.Least(pending.Keys) <= seq_
        invariant DropOld(pending, seq_) == DropOld(old(pending), seq_)
        decreases |pending|
      {
        var k: nat := SeqSubscribers.Least(pending.Keys);
        OneFewer(pending, k);
        pending := pending - {k};
      }
      assert pending == DropOld(pending, seq_);
    }

    /** Applies buffered packets while the next one is there. */
    method ReplayPending()
      requires forall k :: k in pending ==> k > seq_
      modifies this`books, this`seq_, this`pending
      ensures State() == Replay(old(State()))
    {
      hide Replay, ApplyAll, ApplyEntry, SeqSubscribers.Least;
      while pending != map[] && SeqSubscribers.Least(pending.Keys) == seq_ + 1
        invariant forall k :: k in pending ==> k > seq_
        invariant Replay(State()) == Replay(old(State()))
        decreases |pending|
      {
        OneFewer(pending, seq_ + 1);
        ReplayStep(State());
        TakeNext();
      }
      if pending != map[] {
        LeastNext(pending.Keys, seq_);
      }
      ReplayStep(State());
    }

    /** Applies the next packet, which is buffered. */
    method TakeNext()
      requires seq_ + 1 in pending
      modifies this`books, this`seq_, this`pending
      ensures var s := old(State());
        State() == s.(books := ApplyAll(s.books, s.pending[s.seq_ + 1]), seq_ := s.seq_ + 1,
                      pending := s.pending - {s.seq_ + 1})
    {
      ApplyEntries(pending[seq_ + 1]);
      seq_ := seq_ + 1;
      pending := pending - {seq_};
    }

    method OnSnapshotPart(n: nat, part: nat, parts: nat, es: seq<Entry>)
      modifies this
      ensures State() == OnPart(old(State()), n, part, parts, es)
    {
      hide Rebuild;
      if part == 0 || n != snapId {
        snapId, snapParts, snapHave := n, Blanks(parts), 0;
      }
      if part >= |snapParts| || snapParts[part] != [] || (es == [] && parts > 1) {
        return;
      }
      snapParts := snapParts[part := if es == [] then [Filler] else es];
      snapHave := snapHave + 1;
      if snapHave < |snapParts| {
        return;
      }
      RebuildBook();
    }

    /** The snapshot is complete: rebuilds from it and from what was buffered behind it. */
    method RebuildBook()
      modifies this
      ensures State() == Rebuild(old(State()))
    {
      hide Replay, ApplyPackets;
      ApplyParts();
      seq_, synced := snapId, true;
      ForgetOld();
      ReplayPending();
      if pending != map[] {
        LosingSync();
      }
      ended := endSeen && synced && seq_ >= endSeq;
    }

    method ApplyParts()
      modifies this`books
      ensures books == ApplyPackets(map[], snapParts)
    {
      books := map[];
      for i := 0 to |snapParts|
        invariant books == ApplyPackets(map[], snapParts[..i])
      {
        assert snapParts[..i + 1][..i] == snapParts[..i];
        ApplyEntries(snapParts[i]);
      }
      assert snapParts[..|snapParts|] == snapParts;
    }

    method OnPacket(p: MdPacket)
      modifies this
      ensures State() == OnPacketS(old(State()), p)
    {
      hide OnPart;
      match p {
        case Incremental(n, es) =>
          if synced && n <= seq_ {
            return;
          }
          if synced && n == seq_ + 1 {
            ApplyEntries(es);
            seq_ := n;
            return;
          }
          if synced {
            LosingSync();
          }
          pending := pending[n := es];
          return;
        case Heartbeat(n) =>
          if synced && n > seq_ {
            LosingSync();
          }
        case End(n) =>
          if synced && n > seq_ {
            LosingSync();
          }
          endSeq, endSeen := n, true;
        case Snapshot(n, part, parts, es) =>
          if synced {
            return;
          }
          OnSnapshotPart(n, part, parts, es);
      }
      ended := endSeen && synced && seq_ >= endSeq;
    }
  }
}
