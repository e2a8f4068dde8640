/** Replication as a protocol: primaries by epoch, the backup that follows each, and a network that may
    lose, repeat and reorder anything ever sent. Any process may stop between any two steps. */
module Replication {
  import opened Types
  import opened Arithmetic
  import opened SeqStreams
  import opened SeqSubscribers

  /** A primary that waits for its backup and halts on losing it. Its epoch began with `start` commands
      in the journal and this process with `base`; everything up to `flushed` is durable; the responses to
      everything up to `released` have left. */
  datatype Primary = Primary(
    pub: Pub, journal: Log, flushed: nat, start: nat, base: nat, released: nat,
    waiting: bool, halted: bool, closed: bool)

  /** The one backup of an epoch, its journal, and how much of that is flushed. */
  datatype Backup = Backup(sub: Sub, journal: Log, flushed: nat, stopped: bool, promoted: bool)

  /** `net` holds every datagram ever sent. */
  datatype System = System(primaries: map<nat, Primary>, backups: map<nat, Backup>, net: set<Packet>)

  datatype Step =
    | Take(e: nat, c: Command)
    | Commit(e: nat)
    | Service(e: nat, heard: seq<Packet>, control: seq<Packet>)
    | Release(e: nat)
    | LoseReplica(e: nat)
    | Beat(e: nat)
    | Close(e: nat)
    | Restart(e: nat, k: nat)
    | Join(e: nat, k: nat)
    | Deliver(e: nat, p: Packet)
    | Ask(e: nat)
    | FlushAck(e: nat)
    | Stop(e: nat)
    | Promote(e: nat, ringLog2: nat)

  function StartPrimary(pub: Pub, journal: Log): Primary {
    Primary(pub, journal, |journal|, |journal|, |journal|, |journal|, false, false, false)
  }

  function Init(ringLog2: nat): System {
    System(map[1 := StartPrimary(NewPub(1, 1, Pow2(ringLog2)), [])], map[], {})
  }

  function HearAll(p: Pub, hs: seq<Packet>): Pub
    decreases |hs|
  {
    if hs == [] then p else HearAll(HearP(p, hs[0]), hs[1..])
  }

  function ServeAll(p: Pub, log: Log, hs: seq<Packet>): (Pub, seq<Packet>)
    requires p.next == |log| + 1 && p.historyFrom >= 1
    decreases |hs|
  {
    if hs == [] then (p, [])
    else
      var (q, now) := ServeP(p, log, hs[0]);
      var (r, later) := ServeAll(q, log, hs[1..]);
      (r, now + later)
  }

  function Sent(ps: seq<Packet>): set<Packet> {
    set k | 0 <= k < |ps| :: ps[k]
  }

  predicate Running(P: Primary) {
    !P.halted && !P.closed
  }

  predicate Alive(b: Backup) {
    !b.stopped && !b.promoted
  }

  /** The group first, then the control socket; hearing a newer epoch halts the primary, unless the batch
      it was waiting for is already acknowledged. */
  function ServiceP(P: Primary, heard: seq<Packet>, control: seq<Packet>): (Primary, seq<Packet>)
    requires P.pub.next == |P.journal| + 1 && P.pub.historyFrom >= 1
  {
    var h := HearAll(P.pub, heard);
    HearAllKeeps(P.pub, heard);
    var (q, replies) := ServeAll(h, P.journal, control);
    (P.(pub := q, halted := P.halted || (Fenced(q) && !(P.waiting && q.acked >= |P.journal|))), replies)
  }

  lemma {:induction false} HearAllKeeps(p: Pub, hs: seq<Packet>)
    ensures var q := HearAll(p, hs);
      q == p.(fencedBy := q.fencedBy) && (Fenced(p) ==> Fenced(q))
    decreases |hs|
  {
    if hs != [] {
      HearAllKeeps(HearP(p, hs[0]), hs[1..]);
    }
  }

  ghost predicate WellFormed(sys: System) {
    && (forall e :: e in sys.primaries ==> PubOk(e, sys.primaries[e]))
    && forall e :: e in sys.backups ==> e in sys.primaries
  }

  ghost predicate PubOk(e: nat, P: Primary) {
    && P.pub.epoch == e && P.pub.next == |P.journal| + 1 && P.pub.historyFrom >= 1
    && 1 <= P.pub.pending <= P.pub.next && P.flushed <= |P.journal| && P.pub.ringSize > 0
  }

  /** When a step can be taken. */
  ghost predicate Can(sys: System, step: Step) {
    match step
    case Take(e, c) => e in sys.primaries && Running(sys.primaries[e]) && !sys.primaries[e].waiting
    case Commit(e) =>
      e in sys.primaries && Running(sys.primaries[e]) && !sys.primaries[e].waiting
      && sys.primaries[e].pub.pending < sys.primaries[e].pub.next
    case Service(e, heard, control) =>
      e in sys.primaries && Running(sys.primaries[e]) && Sent(heard) <= sys.net && Sent(control) <= sys.net
      && (sys.primaries[e].waiting ==> sys.primaries[e].pub.acked < |sys.primaries[e].journal|)
    case Release(e) =>
      e in sys.primaries && Running(sys.primaries[e]) && sys.primaries[e].waiting
      && sys.primaries[e].pub.acked >= |sys.primaries[e].journal|
    case LoseReplica(e) => e in sys.primaries && Running(sys.primaries[e]) && sys.primaries[e].waiting
    case Beat(e) =>
      e in sys.primaries && Running(sys.primaries[e])
      && (sys.primaries[e].waiting || sys.primaries[e].pub.pending == sys.primaries[e].pub.next)
    case Close(e) =>
      e in sys.primaries && !sys.primaries[e].closed
      && (sys.primaries[e].halted
           || (!sys.primaries[e].waiting && sys.primaries[e].pub.pending == sys.primaries[e].pub.next))
    case Restart(e, k) => e in sys.primaries && sys.primaries[e].flushed <= k <= |sys.primaries[e].journal|
    case Join(e, k) => e in sys.primaries && e !in sys.backups && k <= sys.primaries[e].flushed
    case Deliver(e, p) =>
      e in sys.backups && Alive(sys.backups[e]) && p in sys.net
      && (sys.backups[e].sub.epoch == 0 ==> p.epoch == e)
    case Ask(e) => e in sys.backups && Alive(sys.backups[e]) && GapS(sys.backups[e].sub).Some?
    case FlushAck(e) => e in sys.backups && Alive(sys.backups[e])
    case Stop(e) => e in sys.backups
    case Promote(e, _) =>
      e in sys.backups && Alive(sys.backups[e])
      && var s := sys.backups[e].sub; s.epoch != 0 && s.supersededBy == 0 && !s.unavailable && !EndedS(s)
  }

  function SetPrimary(sys: System, e: nat, P: Primary, sent: seq<Packet>): System {
    sys.(primaries := sys.primaries[e := P], net := sys.net + Sent(sent))
  }

  function SetBackup(sys: System, e: nat, b: Backup, sent: seq<Packet>): System {
    sys.(backups := sys.backups[e := b], net := sys.net + Sent(sent))
  }

  /** Everything staged, as the ring reads it back, and then `last`, unless the publisher is fenced. */
  function FlushP(P: Primary, last: seq<Packet>): (Primary, seq<Packet>)
    requires PubShape(P)
  {
    if Fenced(P.pub) then (P, [])
    else
      var held := AsRead(P.journal, P.pub.ringSize);
      (P.(pub := P.pub.(pending := P.pub.next)), Chunks(P.pub.epoch, held, P.pub.pending, P.pub.next) + last)
  }

  predicate PubShape(P: Primary) {
    P.pub.next == |P.journal| + 1 && 1 <= P.pub.pending && P.pub.ringSize > 0
  }

  /** What is staged fits the ring. */
  predicate BatchFits(P: Primary) {
    P.pub.next <= P.pub.pending + P.pub.ringSize
  }

  /** What each step does. */
  ghost function Do(sys: System, step: Step): System
    requires WellFormed(sys) && Can(sys, step)
  {
    match step
    case Take(e, c) =>
      var P := sys.primaries[e];
      SetPrimary(sys, e, P.(journal := P.journal + [c.(seq_ := P.pub.next)], pub := P.pub.(next := P.pub.next + 1)), [])
    case Commit(e) =>
      var P := sys.primaries[e];
      var (P', sent) := FlushP(P.(flushed := |P.journal|), []);
      SetPrimary(sys, e, P'.(waiting := true), sent)
    case Service(e, heard, control) =>
      var (P', sent) := ServiceP(sys.primaries[e], heard, control);
      SetPrimary(sys, e, P', sent)
    case Release(e) =>
      var P := sys.primaries[e];
      SetPrimary(sys, e, P.(released := |P.journal|, waiting := false), [])
    case LoseReplica(e) => SetPrimary(sys, e, sys.primaries[e].(halted := true), [])
    case Beat(e) =>
      var (P', sent) := FlushP(sys.primaries[e], [Heartbeat(e, sys.primaries[e].pub.next)]);
      SetPrimary(sys, e, P', sent)
    case Close(e) =>
      var P := sys.primaries[e];
      var (P', sent) := FlushP(P.(flushed := |P.journal|), Repeat(End(e, P.pub.next), 3));
      SetPrimary(sys, e, P'.(closed := true), sent)
    case Restart(e, k) =>
      var P := sys.primaries[e];
      SetPrimary(sys, e, P.(pub := NewPub(e, k + 1, P.pub.ringSize), journal := P.journal[..k], flushed := k, base := k,
                            waiting := false, halted := false, closed := false), [])
    case Join(e, k) =>
      SetBackup(sys, e, Backup(NewSub(k + 1), sys.primaries[e].journal[..k], k, false, false), [])
    case Deliver(e, p) =>
      var b := sys.backups[e];
      var (s, out) := ReceiveS(b.sub, p);
      SetBackup(sys, e, b.(sub := s, journal := b.journal + out), [])
    case Ask(e) => SetBackup(sys, e, sys.backups[e], [GapS(sys.backups[e].sub).value])
    case FlushAck(e) =>
      var b := sys.backups[e];
      SetBackup(sys, e, b.(flushed := |b.journal|), if b.sub.epoch == 0 then [] else [Ack(b.sub.epoch, |b.journal|)])
    case Stop(e) => SetBackup(sys, e, sys.backups[e].(stopped := true), [])
    case Promote(e, ringLog2) =>
      var b := sys.backups[e];
      var n := |b.journal|;
      var pub := NewPub(b.sub.epoch + 1, n + 1, Pow2(ringLog2)).(historyFrom := 1);
      SetPrimary(SetBackup(sys, e, b.(flushed := n, promoted := true), []), b.sub.epoch + 1,
                 StartPrimary(pub, b.journal), [])
  }

  // ---- the invariant ----

  /** What backup e has flushed. */
  function Held(sys: System, e: nat): nat {
    if e in sys.backups then sys.backups[e].flushed else 0
  }

  /** `held` is what this epoch's backup has flushed. */
  ghost predicate PrimaryOk(e: nat, P: Primary, held: nat) {
    && PubOk(e, P) && Numbered(P.journal)
    && P.pub.pending <= P.flushed + 1
    && P.start <= P.base < P.pub.pending && P.start <= P.released <= P.flushed
    && (P.pub.acked <= P.base || P.pub.acked <= held)
    && (P.released == P.start || P.released <= held)
    && (P.waiting ==> P.pub.pending == P.pub.next && P.base < |P.journal|)
    && (Fenced(P.pub) ==> P.halted)
    && (P.halted && !Fenced(P.pub) ==> P.pub.pending == P.pub.next)
  }

  ghost predicate BackupOk(e: nat, b: Backup, P: Primary) {
    && P.flushed <= |P.journal|
    && (b.sub.epoch == 0 || b.sub.epoch == e) && b.sub.minEpoch == 1
    && SubOk(b.sub, P.journal, P.flushed)
    && b.sub.expected == |b.journal| + 1 && b.flushed <= |b.journal| <= P.flushed
    && b.journal == P.journal[..|b.journal|]
  }

  ghost predicate PacketOk(sys: System, p: Packet) {
    match p
    case Ack(e, through) => e in sys.backups && through <= sys.backups[e].flushed
    case Unavailable(_, _) => true
    case _ =>
      p.epoch in sys.primaries && sys.primaries[p.epoch].flushed <= |sys.primaries[p.epoch].journal|
      && Faithful(sys.primaries[p.epoch].journal, sys.primaries[p.epoch].flushed, p)
  }

  /** A later primary began as the promoted backup of the one before. */
  ghost predicate Linked(sys: System, e: nat) {
    e in sys.primaries && e > 1 ==>
      && e - 1 in sys.backups && sys.backups[e - 1].promoted
      && var b, P := sys.backups[e - 1], sys.primaries[e];
         P.start == |b.journal| <= P.flushed <= |P.journal| && P.journal[..P.start] == b.journal
  }

  ghost predicate Inv(sys: System) {
    && (forall e :: e in sys.primaries ==> e >= 1 && PrimaryOk(e, sys.primaries[e], Held(sys, e)))
    && (forall e :: e in sys.backups ==> e in sys.primaries && BackupOk(e, sys.backups[e], sys.primaries[e]))
    && (forall p :: p in sys.net ==> PacketOk(sys, p))
    && (forall e :: Linked(sys, e))
    && forall e :: e in sys.backups && sys.backups[e].promoted ==> e + 1 in sys.primaries
  }

  /** What a primary's step never loses. */
  ghost predicate Grows(P: Primary, P': Primary) {
    && P.flushed <= |P.journal| && P.flushed <= P'.flushed <= |P'.journal| && P'.start == P.start
    && P'.journal[..P.flushed] == P.journal[..P.flushed]
  }

  lemma PacketGrows(sys: System, e: nat, P': Primary, p: Packet)
    requires e in sys.primaries && Grows(sys.primaries[e], P') && PacketOk(sys, p)
    ensures PacketOk(sys.(primaries := sys.primaries[e := P']), p)
  {
    if !p.Ack? && !p.Unavailable? && p.epoch == e {
      var P := sys.primaries[e];
      FaithfulGrows(p, P.journal, P.flushed, P'.journal, P'.flushed);
    }
  }

  lemma BackupGrows(e: nat, b: Backup, P: Primary, P': Primary)
    requires Grows(P, P') && BackupOk(e, b, P)
    ensures BackupOk(e, b, P')
  {
    SubGrows(b.sub, P.journal, P.flushed, P'.journal, P'.flushed);
    assert P'.journal[..|b.journal|] == P'.journal[..P.flushed][..|b.journal|];
    assert P.journal[..|b.journal|] == P.journal[..P.flushed][..|b.journal|];
  }

  /** A step of one primary. */
  lemma PrimaryStep(sys: System, e: nat, P': Primary, sent: seq<Packet>)
    requires Inv(sys) && e in sys.primaries && Grows(sys.primaries[e], P') && PrimaryOk(e, P', Held(sys, e))
    requires forall k :: 0 <= k < |sent| ==> PacketOk(sys.(primaries := sys.primaries[e := P']), sent[k])
    ensures Inv(SetPrimary(sys, e, P', sent))
  {
    hide PrimaryOk, BackupOk, PacketOk, Faithful;
    var sys' := SetPrimary(sys, e, P', sent);
    var mid := sys.(primaries := sys.primaries[e := P']);
    forall d | d in sys'.backups ensures BackupOk(d, sys'.backups[d], sys'.primaries[d]) {
      if d == e {
        BackupGrows(e, sys.backups[e], sys.primaries[e], P');
      }
    }
    forall p | p in sys'.net ensures PacketOk(sys', p) {
      if p in sys.net {
        PacketGrows(sys, e, P', p);
      }
      SameNet(mid, sys', p);
    }
    forall d: nat ensures Linked(sys', d) {
      assert Linked(sys, d);
      if d == e && d > 1 {
        LinkGrows(sys.backups[d - 1], sys.primaries[e], P');
      }
    }
  }

  lemma SameNet(sys: System, sys': System, p: Packet)
    requires sys'.primaries == sys.primaries && sys'.backups == sys.backups
    ensures PacketOk(sys', p) <==> PacketOk(sys, p)
  {
  }

  lemma LinkGrows(b: Backup, P: Primary, P': Primary)
    requires Grows(P, P') && P.start == |b.journal| <= P.flushed && P.journal[..P.start] == b.journal
    ensures P'.start == |b.journal| <= P'.flushed && P'.journal[..P'.start] == b.journal
  {
    assert P'.journal[..P.start] == P'.journal[..P.flushed][..P.start];
    assert P.journal[..P.start] == P.journal[..P.flushed][..P.start];
  }

  /** A step of one backup: what it has flushed only grows, and once promoted its journal is final. */
  lemma BackupStep(sys: System, e: nat, b': Backup, sent: seq<Packet>)
    requires Inv(sys) && e in sys.primaries && BackupOk(e, b', sys.primaries[e]) && Held(sys, e) <= b'.flushed
    requires e in sys.backups && sys.backups[e].promoted ==> b'.promoted && b'.journal == sys.backups[e].journal
    requires b'.promoted ==> e in sys.backups && sys.backups[e].promoted
    requires forall k :: 0 <= k < |sent| ==> PacketOk(sys.(backups := sys.backups[e := b']), sent[k])
    ensures Inv(SetBackup(sys, e, b', sent))
  {
    hide BackupOk, PubOk, Numbered, Faithful;
    var sys' := SetBackup(sys, e, b', sent);
    forall d | d in sys'.primaries ensures PrimaryOk(d, sys'.primaries[d], Held(sys', d)) {
      assert PrimaryOk(d, sys.primaries[d], Held(sys, d));
    }
    forall p | p in sys'.net ensures PacketOk(sys', p) {
      if p in sys.net {
        assert PacketOk(sys, p);
      }
      SameNet(sys.(backups := sys.backups[e := b']), sys', p);
    }
    forall d: nat ensures Linked(sys', d) {
      assert Linked(sys, d);
    }
  }

  // ---- every step keeps it ----

  lemma PrimaryFacts(sys: System, e: nat)
    requires Inv(sys) && e in sys.primaries
    ensures PrimaryOk(e, sys.primaries[e], Held(sys, e)) && PubOk(e, sys.primaries[e]) && e >= 1
    ensures e in sys.backups ==> BackupOk(e, sys.backups[e], sys.primaries[e])
    ensures Held(sys, e) <= sys.primaries[e].flushed
  {
  }

  lemma InvWellFormed(sys: System)
    requires Inv(sys)
    ensures WellFormed(sys)
  {
  }

  lemma TakeOk(sys: System, e: nat, c: Command)
    requires Inv(sys) && Can(sys, Take(e, c))
    ensures WellFormed(sys) && Inv(Do(sys, Take(e, c)))
  {
    hide Inv, BackupOk;
    InvWellFormed(sys);
    PrimaryFacts(sys, e);
    var P := sys.primaries[e];
    var P' := P.(journal := P.journal + [c.(seq_ := P.pub.next)], pub := P.pub.(next := P.pub.next + 1));
    assert P'.journal[..P.flushed] == P.journal[..P.flushed];
    PrimaryStep(sys, e, P', []);
  }

  /** What a flush sends is faithful to the journal it has just made durable. */
  lemma FlushOk(sys: System, e: nat, P: Primary, last: seq<Packet>)
    requires PubOk(e, P) && P.flushed == |P.journal| && Numbered(P.journal) && (!Fenced(P.pub) ==> BatchFits(P))
    requires forall k :: 0 <= k < |last| ==>
      last[k].epoch == e && !last[k].Ack? && !last[k].Unavailable? && Faithful(P.journal, P.flushed, last[k])
    ensures var (P', sent) := FlushP(P, last);
      forall k :: 0 <= k < |sent| ==> PacketOk(sys.(primaries := sys.primaries[e := P']), sent[k])
  {
    if !Fenced(P.pub) {
      InReach(e, P.journal, P.pub.ringSize, P.pub.pending, P.pub.next);
    }
    ChunksFaithful(e, P.journal, P.pub.pending, P.pub.next, P.flushed);
  }

  lemma CommitOk(sys: System, e: nat)
    requires Inv(sys) && Can(sys, Commit(e)) && BatchFits(sys.primaries[e])
    ensures WellFormed(sys) && Inv(Do(sys, Commit(e)))
  {
    hide Inv, BackupOk, PacketOk, Faithful, AsRead, Chunks;
    InvWellFormed(sys);
    PrimaryFacts(sys, e);
    var P := sys.primaries[e];
    var P0 := P.(flushed := |P.journal|);
    var (P', sent) := FlushP(P0, []);
    FlushOk(sys, e, P0, []);
    SameJournal(sys, e, P', P'.(waiting := true), sent);
    PrimaryStep(sys, e, P'.(waiting := true), sent);
  }

  lemma SameJournal(sys: System, e: nat, P: Primary, P': Primary, sent: seq<Packet>)
    requires P'.journal == P.journal && P'.flushed == P.flushed
    requires forall k :: 0 <= k < |sent| ==> PacketOk(sys.(primaries := sys.primaries[e := P]), sent[k])
    ensures forall k :: 0 <= k < |sent| ==> PacketOk(sys.(primaries := sys.primaries[e := P']), sent[k])
  {
  }

  lemma BeatOk(sys: System, e: nat)
    requires Inv(sys) && Can(sys, Beat(e))
    ensures WellFormed(sys) && Inv(Do(sys, Beat(e)))
  {
    hide Inv, BackupOk, PacketOk, AsRead, Chunks;
    InvWellFormed(sys);
    PrimaryFacts(sys, e);
    var P := sys.primaries[e];
    var (P', sent) := FlushP(P, [Heartbeat(e, P.pub.next)]);
    FlushOk(sys, e, P, [Heartbeat(e, P.pub.next)]);
    PrimaryStep(sys, e, P', sent);
  }

  lemma CloseOk(sys: System, e: nat)
    requires Inv(sys) && Can(sys, Close(e))
    ensures WellFormed(sys) && Inv(Do(sys, Close(e)))
  {
    hide Inv, BackupOk, PacketOk, AsRead, Chunks;
    InvWellFormed(sys);
    PrimaryFacts(sys, e);
    var P := sys.primaries[e];
    var P0 := P.(flushed := |P.journal|);
    var (P', sent) := FlushP(P0, Repeat(End(e, P.pub.next), 3));
    FlushOk(sys, e, P0, Repeat(End(e, P.pub.next), 3));
    SameJournal(sys, e, P', P'.(closed := true), sent);
    PrimaryStep(sys, e, P'.(closed := true), sent);
  }

  lemma ReleaseOk(sys: System, e: nat)
    requires Inv(sys) && Can(sys, Release(e))
    ensures WellFormed(sys) && Inv(Do(sys, Release(e)))
  {
    hide Inv, BackupOk;
    InvWellFormed(sys);
    PrimaryFacts(sys, e);
    var P := sys.primaries[e];
    PrimaryStep(sys, e, P.(released := |P.journal|, waiting := false), []);
  }

  lemma LoseReplicaOk(sys: System, e: nat)
    requires Inv(sys) && Can(sys, LoseReplica(e))
    ensures WellFormed(sys) && Inv(Do(sys, LoseReplica(e)))
  {
    hide Inv, BackupOk;
    InvWellFormed(sys);
    PrimaryFacts(sys, e);
    PrimaryStep(sys, e, sys.primaries[e].(halted := true), []);
  }

  lemma RestartOk(sys: System, e: nat, k: nat)
    requires Inv(sys) && Can(sys, Restart(e, k))
    ensures WellFormed(sys) && Inv(Do(sys, Restart(e, k)))
  {
    hide Inv, BackupOk;
    InvWellFormed(sys);
    PrimaryFacts(sys, e);
    var P := sys.primaries[e];
    var P' := P.(pub := NewPub(e, k + 1, P.pub.ringSize), journal := P.journal[..k], flushed := k, base := k,
                 waiting := false, halted := false, closed := false);
    assert P'.journal[..P.flushed] == P.journal[..P.flushed];
    PrimaryStep(sys, e, P', []);
  }

  /** Serving datagrams moves only the acknowledged mark, and only to what this epoch's backup has flushed;
      a fenced publisher serves nothing. */
  lemma {:induction false} ServeAllOk(sys: System, e: nat, p: Pub, hs: seq<Packet>)
    requires Inv(sys) && e in sys.primaries && forall k :: 0 <= k < |hs| ==> PacketOk(sys, hs[k])
    requires p.epoch == e && p.next == |sys.primaries[e].journal| + 1 && p.historyFrom >= 1
    ensures var (q, sent) := ServeAll(p, sys.primaries[e].journal, hs);
      && q == p.(acked := q.acked) && (q.acked == p.acked || q.acked <= Held(sys, e)) && q.acked >= p.acked
      && (Fenced(p) ==> q == p) && forall k :: 0 <= k < |sent| ==> PacketOk(sys, sent[k])
    decreases |hs|
  {
    if hs != [] {
      hide Inv;
      var P := sys.primaries[e];
      var (q, now) := ServeP(p, P.journal, hs[0]);
      PrimaryFacts(sys, e);
      ServeOk(sys, e, p, hs[0]);
      ServeAllOk(sys, e, q, hs[1..]);
    }
  }

  lemma ServeOk(sys: System, e: nat, p: Pub, h: Packet)
    requires Inv(sys) && e in sys.primaries && PacketOk(sys, h)
    requires p.epoch == e && p.next == |sys.primaries[e].journal| + 1 && p.historyFrom >= 1
    ensures var (q, sent) := ServeP(p, sys.primaries[e].journal, h);
      && q == p.(acked := q.acked) && (q.acked == p.acked || q.acked <= Held(sys, e)) && q.acked >= p.acked
      && (Fenced(p) ==> q == p) && forall k :: 0 <= k < |sent| ==> PacketOk(sys, sent[k])
  {
    hide Inv;
    PrimaryFacts(sys, e);
    var P := sys.primaries[e];
    if h.epoch == e && h.Retransmit? && h.first >= Oldest(p) {
      var upTo := if h.first + h.count < p.next then h.first + h.count else p.next;
      ChunksFaithful(e, P.journal, h.first, upTo, P.flushed);
    }
  }

  lemma ServiceOk(sys: System, e: nat, heard: seq<Packet>, control: seq<Packet>)
    requires Inv(sys) && Can(sys, Service(e, heard, control))
    ensures WellFormed(sys) && Inv(Do(sys, Service(e, heard, control)))
  {
    hide BackupOk, PacketOk, Faithful;
    InvWellFormed(sys);
    PrimaryFacts(sys, e);
    var P := sys.primaries[e];
    forall k | 0 <= k < |control| ensures PacketOk(sys, control[k]) {
      assert control[k] in Sent(control);
    }
    hide Inv;
    HearAllKeeps(P.pub, heard);
    ServeAllOk(sys, e, HearAll(P.pub, heard), control);
    var (P', sent) := ServiceP(P, heard, control);
    assert sys.primaries[e := P] == sys.primaries;
    SameJournal(sys, e, P, P', sent);
    PrimaryStep(sys, e, P', sent);
  }

  lemma JoinOk(sys: System, e: nat, k: nat)
    requires Inv(sys) && Can(sys, Join(e, k))
    ensures WellFormed(sys) && Inv(Do(sys, Join(e, k)))
  {
    hide Inv, PrimaryOk;
    InvWellFormed(sys);
    PrimaryFacts(sys, e);
    BackupStep(sys, e, Backup(NewSub(k + 1), sys.primaries[e].journal[..k], k, false, false), []);
  }

  lemma DeliverOk(sys: System, e: nat, p: Packet)
    requires Inv(sys) && Can(sys, Deliver(e, p))
    ensures WellFormed(sys) && Inv(Do(sys, Deliver(e, p)))
  {
    hide PrimaryOk, Faithful, ReceiveS, SubOk;
    InvWellFormed(sys);
    assert e in sys.primaries && PacketOk(sys, p);
    hide Inv;
    PrimaryFacts(sys, e);
    var b, P := sys.backups[e], sys.primaries[e];
    var (s, out) := ReceiveS(b.sub, p);
    HeardFaithful(sys, e, p);
    ReceiveDelivers(b.sub, p, P.journal, P.flushed);
    SubRange(s, P.journal, P.flushed);
    ReceiveEpoch(b.sub, p);
    assert b.journal + out == P.journal[..|b.journal| + |out|];
    BackupStep(sys, e, b.(sub := s, journal := b.journal + out), []);
  }

  lemma HeardFaithful(sys: System, e: nat, p: Packet)
    requires PacketOk(sys, p) && e in sys.backups && e in sys.primaries && BackupOk(e, sys.backups[e], sys.primaries[e])
    requires sys.backups[e].flushed <= sys.primaries[e].flushed
    ensures p.epoch == e ==> Faithful(sys.primaries[e].journal, sys.primaries[e].flushed, p)
  {
  }

  lemma ReceiveEpoch(s: Sub, p: Packet)
    ensures var t := ReceiveS(s, p).0;
      && (t.epoch == s.epoch || (s.epoch == 0 && t.epoch == p.epoch)) && t.minEpoch == s.minEpoch
      && ((t.ended == s.ended && t.endSeq == s.endSeq)
           || (t.ended && p.End? && p.next == t.endSeq && p.epoch == t.epoch))
  {
    DrainEpoch(s);
    if p.Data? && p.first <= s.expected <= p.first + |p.cmds| {
      DrainEpoch(DeliverS(s.(epoch := p.epoch), p.first, p.cmds).0);
      DrainEpoch(DeliverS(s, p.first, p.cmds).0);
    }
  }

  lemma {:induction false} DrainEpoch(s: Sub)
    ensures var t := DrainS(s).0;
      t.epoch == s.epoch && t.minEpoch == s.minEpoch && t.ended == s.ended && t.endSeq == s.endSeq
    decreases |s.stash|
  {
    if s.stash != map[] && Least(s.stash.Keys) <= s.expected {
      var k: nat := Least(s.stash.Keys);
      var s1 := s.(stash := s.stash - {k});
      LessStash(s.stash, k);
      if k + |s.stash[k]| > s.expected {
        DrainEpoch(DeliverS(s1, k, s.stash[k]).0);
      } else {
        DrainEpoch(s1);
      }
    }
  }

  lemma AskOk(sys: System, e: nat)
    requires Inv(sys) && Can(sys, Ask(e))
    ensures WellFormed(sys) && Inv(Do(sys, Ask(e)))
  {
    hide PrimaryOk, Faithful, SubOk, GapS;
    InvWellFormed(sys);
    assert e in sys.primaries;
    hide Inv;
    PrimaryFacts(sys, e);
    var b, P := sys.backups[e], sys.primaries[e];
    GapWithin(b.sub, P.journal, P.flushed);
    GapBound(b.sub, P.journal, P.flushed);
    BackupStep(sys, e, b, [GapS(b.sub).value]);
  }

  lemma FlushAckOk(sys: System, e: nat)
    requires Inv(sys) && Can(sys, FlushAck(e))
    ensures WellFormed(sys) && Inv(Do(sys, FlushAck(e)))
  {
    hide PrimaryOk, Faithful, SubOk;
    InvWellFormed(sys);
    assert e in sys.primaries;
    hide Inv;
    PrimaryFacts(sys, e);
    var b := sys.backups[e];
    BackupStep(sys, e, b.(flushed := |b.journal|), if b.sub.epoch == 0 then [] else [Ack(b.sub.epoch, |b.journal|)]);
  }

  lemma StopOk(sys: System, e: nat)
    requires Inv(sys) && Can(sys, Stop(e))
    ensures WellFormed(sys) && Inv(Do(sys, Stop(e)))
  {
    hide PrimaryOk, Faithful, SubOk;
    InvWellFormed(sys);
    assert e in sys.primaries;
    hide Inv;
    PrimaryFacts(sys, e);
    BackupStep(sys, e, sys.backups[e].(stopped := true), []);
  }

  lemma NotYet(sys: System, e: nat)
    requires Inv(sys) && e in sys.backups && !sys.backups[e].promoted
    ensures e + 1 !in sys.primaries && e in sys.primaries && BackupOk(e, sys.backups[e], sys.primaries[e])
    ensures Held(sys, e) <= |sys.backups[e].journal|
  {
    hide PrimaryOk, PacketOk;
    assert Linked(sys, e + 1);
  }

  /** A backup that marks itself promoted, all its journal flushed. */
  lemma MarkPromoted(sys: System, e: nat)
    requires Inv(sys) && e in sys.backups && !sys.backups[e].promoted
    ensures var b := sys.backups[e];
      PromotedBut(SetBackup(sys, e, b.(flushed := |b.journal|, promoted := true), []), e)
  {
    hide Inv, PrimaryOk, BackupOk, PacketOk;
    NotYet(sys, e);
    var b := sys.backups[e];
    var b1 := b.(flushed := |b.journal|);
    FlushedOk(e, b, sys.primaries[e]);
    BackupStep(sys, e, b1, []);
    Marked(SetBackup(sys, e, b1, []), e);
    var sys1 := SetBackup(sys, e, b1, []);
    assert SetBackup(sys1, e, b1.(promoted := true), [])
        == SetBackup(sys, e, b.(flushed := |b.journal|, promoted := true), []);
  }

  lemma FlushedOk(e: nat, b: Backup, P: Primary)
    requires BackupOk(e, b, P)
    ensures BackupOk(e, b.(flushed := |b.journal|), P)
  {
  }

  lemma Marked(sys: System, e: nat)
    requires Inv(sys) && e in sys.backups && !sys.backups[e].promoted
    ensures PromotedBut(SetBackup(sys, e, sys.backups[e].(promoted := true), []), e)
  {
    hide PrimaryOk, BackupOk, PacketOk;
    var sys' := SetBackup(sys, e, sys.backups[e].(promoted := true), []);
    forall p | p in sys'.net ensures PacketOk(sys', p) {
      AckSame(sys, sys', e, p);
    }
    forall d: nat ensures Linked(sys', d) {
      assert Linked(sys, d);
    }
    PromotedOk(e, sys.backups[e], sys.primaries[e]);
  }

  lemma PromotedOk(e: nat, b: Backup, P: Primary)
    requires BackupOk(e, b, P)
    ensures BackupOk(e, b.(promoted := true), P)
  {
  }

  lemma AckSame(sys: System, sys': System, e: nat, p: Packet)
    requires sys'.primaries == sys.primaries && e in sys.backups
    requires sys'.backups == sys.backups[e := sys.backups[e].(promoted := true)] && PacketOk(sys, p)
    ensures PacketOk(sys', p)
  {
  }

  /** The invariant but for the primary that backup e is about to become. */
  ghost predicate PromotedBut(sys: System, e: nat) {
    && (forall d :: d in sys.primaries ==> d >= 1 && PrimaryOk(d, sys.primaries[d], Held(sys, d)))
    && (forall d :: d in sys.backups ==> d in sys.primaries && BackupOk(d, sys.backups[d], sys.primaries[d]))
    && (forall p :: p in sys.net ==> PacketOk(sys, p))
    && (forall d :: Linked(sys, d))
    && forall d :: d in sys.backups && sys.backups[d].promoted && d != e ==> d + 1 in sys.primaries
  }

  lemma PromoteOk(sys: System, e: nat, ringLog2: nat)
    requires Inv(sys) && Can(sys, Promote(e, ringLog2))
    ensures WellFormed(sys) && Inv(Do(sys, Promote(e, ringLog2)))
  {
    hide Inv, PrimaryOk, BackupOk, PacketOk, PromotedBut;
    InvWellFormed(sys);
    MarkPromoted(sys, e);
    NotYet(sys, e);
    PrimaryFacts(sys, e);
    var b := sys.backups[e];
    var n := |b.journal|;
    var pub := NewPub(e + 1, n + 1, Pow2(ringLog2)).(historyFrom := 1);
    BackupEpoch(e, b, sys.primaries[e]);
    FreshPrimaryOk(sys, e, pub, sys.primaries[e]);
    var mid := SetBackup(sys, e, b.(flushed := n, promoted := true), []);
    JoinEpoch(mid, e, StartPrimary(pub, b.journal));
    assert Do(sys, Promote(e, ringLog2)) == SetPrimary(mid, e + 1, StartPrimary(pub, b.journal), []);
  }

  lemma BackupEpoch(e: nat, b: Backup, P: Primary)
    requires BackupOk(e, b, P) && b.sub.epoch != 0
    ensures b.sub.epoch == e && b.sub.expected == |b.journal| + 1
  {
  }

  lemma FreshPrimaryOk(sys: System, e: nat, pub: Pub, P: Primary)
    requires e in sys.backups && BackupOk(e, sys.backups[e], P) && PrimaryOk(e, P, Held(sys, e))
    requires pub.epoch == e + 1 && pub.historyFrom == 1 && !Fenced(pub) && pub.ringSize > 0
    requires pub.next == pub.pending == pub.acked + 1 == |sys.backups[e].journal| + 1
    ensures PrimaryOk(e + 1, StartPrimary(pub, sys.backups[e].journal), 0)
  {
  }

  lemma JoinEpoch(sys: System, e: nat, P: Primary)
    requires PromotedBut(sys, e) && e in sys.backups && sys.backups[e].promoted && e + 1 !in sys.primaries
    requires PrimaryOk(e + 1, P, 0) && P.start == |sys.backups[e].journal| == P.flushed
    requires P.journal == sys.backups[e].journal
    ensures Inv(SetPrimary(sys, e + 1, P, []))
  {
    hide PrimaryOk, BackupOk, Faithful;
    var sys' := SetPrimary(sys, e + 1, P, []);
    assert e + 1 !in sys.backups && e >= 1;
    assert P.journal[..P.start] == P.journal;
    forall p | p in sys'.net ensures PacketOk(sys', p) {
      assert PacketOk(sys, p);
    }
    forall d: nat ensures Linked(sys', d) {
      assert Linked(sys, d);
    }
  }

  /** The one thing a step must not do: commit a batch larger than the ring. */
  ghost predicate Fits(sys: System, step: Step) {
    step.Commit? && step.e in sys.primaries ==> BatchFits(sys.primaries[step.e])
  }

  /** Every step but the commit of a batch larger than the ring keeps the invariant. */
  lemma StepOk(sys: System, step: Step)
    requires Inv(sys) && Can(sys, step) && Fits(sys, step)
    ensures WellFormed(sys) && Inv(Do(sys, step))
  {
    hide Inv, Do, BatchFits;
    match step
    case Take(e, c) => TakeOk(sys, e, c);
    case Commit(e) => CommitOk(sys, e);
    case Service(e, heard, control) => ServiceOk(sys, e, heard, control);
    case Release(e) => ReleaseOk(sys, e);
    case LoseReplica(e) => LoseReplicaOk(sys, e);
    case Beat(e) => BeatOk(sys, e);
    case Close(e) => CloseOk(sys, e);
    case Restart(e, k) => RestartOk(sys, e, k);
    case Join(e, k) => JoinOk(sys, e, k);
    case Deliver(e, p) => DeliverOk(sys, e, p);
    case Ask(e) => AskOk(sys, e);
    case FlushAck(e) => FlushAckOk(sys, e);
    case Stop(e) => StopOk(sys, e);
    case Promote(e, ringLog2) => PromoteOk(sys, e, ringLog2);
  }

  /** A commit keeps the invariant if and only if its batch fits the ring. */
  lemma CommitExact(sys: System, e: nat)
    requires Inv(sys) && Can(sys, Commit(e))
    ensures WellFormed(sys) && (Inv(Do(sys, Commit(e))) <==> BatchFits(sys.primaries[e]))
  {
    hide Inv, BackupOk, Do;
    InvWellFormed(sys);
    if BatchFits(sys.primaries[e]) {
      CommitOk(sys, e);
    } else {
      OverrunSent(sys, e);
    }
  }

  lemma OverrunSent(sys: System, e: nat)
    requires Inv(sys) && WellFormed(sys) && Can(sys, Commit(e)) && !BatchFits(sys.primaries[e])
    ensures !Inv(Do(sys, Commit(e)))
  {
    hide BackupOk, Numbered, AsRead, Chunks, Linked;
    PrimaryFacts(sys, e);
    var P := sys.primaries[e];
    var held := AsRead(P.journal, P.pub.ringSize);
    ReadBack(P.journal, P.pub.ringSize, P.pub.pending);
    FirstCommand(e, held, P.pub.pending, P.pub.next);
    var sent := Chunks(e, held, P.pub.pending, P.pub.next);
    var sys' := Do(sys, Commit(e));
    InSent(sent);
    if Inv(sys') {
      BadPacket(sys', sent[0]);
      assert false;
    }
  }

  lemma InSent(sent: seq<Packet>)
    requires sent != []
    ensures sent[0] in Sent(sent + [])
  {
    assert (sent + [])[0] == sent[0];
  }

  lemma BadPacket(sys: System, p: Packet)
    requires Inv(sys) && p in sys.net && p.Data?
    ensures p.epoch in sys.primaries
    ensures var P := sys.primaries[p.epoch];
      p.cmds != [] && 1 <= p.first <= |P.journal| && p.cmds[0] == P.journal[p.first - 1]
  {
    assert PacketOk(sys, p);
  }

  lemma InitOk(ringLog2: nat)
    ensures Inv(Init(ringLog2))
  {
  }

  lemma StepWell(sys: System, step: Step)
    requires WellFormed(sys) && Can(sys, step)
    ensures WellFormed(Do(sys, step))
  {
    hide AsRead, Chunks, ReceiveS;
    if step.Service? {
      HearAllKeeps(sys.primaries[step.e].pub, step.heard);
      ServeAllKeeps(HearAll(sys.primaries[step.e].pub, step.heard), sys.primaries[step.e].journal, step.control);
    }
  }

  lemma {:induction false} ServeAllKeeps(p: Pub, log: Log, hs: seq<Packet>)
    requires p.next == |log| + 1 && p.historyFrom >= 1
    ensures var q := ServeAll(p, log, hs).0; q == p.(acked := q.acked)
    decreases |hs|
  {
    if hs != [] {
      ServeAllKeeps(ServeP(p, log, hs[0]).0, log, hs[1..]);
    }
  }

  /** Any run; steps that cannot be taken do nothing. */
  ghost function Run(ringLog2: nat, steps: seq<Step>): (sys: System)
    ensures WellFormed(sys)
  {
    if steps == [] then Init(ringLog2)
    else
      var before := Run(ringLog2, steps[..|steps| - 1]);
      var step := steps[|steps| - 1];
      if Can(before, step) then
        StepWell(before, step);
        Do(before, step)
      else before
  }

  /** No primary of the run ever commits a batch larger than its ring. */
  ghost predicate Fitting(ringLog2: nat, steps: seq<Step>) {
    steps == [] ||
    (var before := steps[..|steps| - 1];
     Fitting(ringLog2, before)
       && (Can(Run(ringLog2, before), steps[|steps| - 1]) ==> Fits(Run(ringLog2, before), steps[|steps| - 1])))
  }

  /** Every run whose batches fit the ring keeps the invariant, over every loss, duplication, reordering,
      pause, crash, restart and promotion. */
  lemma {:induction false} RunOk(ringLog2: nat, steps: seq<Step>)
    requires Fitting(ringLog2, steps)
    ensures Inv(Run(ringLog2, steps))
    decreases |steps|
  {
    hide Inv, Can, Do, Fits;
    if steps == [] {
      InitOk(ringLog2);
    } else {
      var before, step := steps[..|steps| - 1], steps[|steps| - 1];
      RunOk(ringLog2, before);
      if Can(Run(ringLog2, before), step) {
        StepOk(Run(ringLog2, before), step);
      }
    }
  }

  // ---- what the protocol promises ----

  /** Command number n of epoch e is also command number n of epoch d. */
  ghost predicate SameCommand(sys: System, e: nat, d: nat, n: nat) {
    && e in sys.primaries && d in sys.primaries
    && 1 <= n <= |sys.primaries[e].journal| && n <= sys.primaries[d].flushed <= |sys.primaries[d].journal|
    && sys.primaries[d].journal[n - 1] == sys.primaries[e].journal[n - 1]
  }

  /** The response to command number n has left the primary of epoch e. */
  ghost predicate Released(sys: System, e: nat, n: nat) {
    e in sys.primaries && sys.primaries[e].start < n <= sys.primaries[e].released
  }

  lemma InheritedSame(sys: System, e: nat, n: nat)
    requires Inv(sys) && e in sys.primaries && e + 1 in sys.primaries && 1 <= n <= sys.primaries[e + 1].start
    ensures n <= sys.primaries[e].flushed && SameCommand(sys, e, e + 1, n)
  {
    assert Linked(sys, e + 1);
    var b, P, Q := sys.backups[e], sys.primaries[e], sys.primaries[e + 1];
    assert Q.journal[n - 1] == Q.journal[..Q.start][n - 1] == b.journal[n - 1];
    assert P.journal[n - 1] == P.journal[..|b.journal|][n - 1] == b.journal[n - 1];
  }

  /** No acknowledged command is lost by a failover: in every run, whatever a primary has released, or
      ever will, is in its successor's durable journal under the same number. */
  lemma ReleasedSurvives(ringLog2: nat, steps: seq<Step>, e: nat, n: nat)
    requires Fitting(ringLog2, steps)
    requires var sys := Run(ringLog2, steps); Released(sys, e, n) && e + 1 in sys.primaries
    ensures SameCommand(Run(ringLog2, steps), e, e + 1, n)
  {
    RunOk(ringLog2, steps);
    var sys := Run(ringLog2, steps);
    assert Linked(sys, e + 1);
    InheritedSame(sys, e, n);
  }

  /** ... and further along the chain, as long as each promoted backup had come that far when it took
      over. */
  lemma {:induction false} InheritedAlong(sys: System, e: nat, d: nat, n: nat)
    requires Inv(sys) && e in sys.primaries && d in sys.primaries && e < d && n >= 1
    requires forall i :: e < i <= d && i in sys.primaries ==> n <= sys.primaries[i].start
    ensures SameCommand(sys, e, d, n)
    decreases d - e
  {
    assert Linked(sys, d);
    if d - 1 > e {
      InheritedAlong(sys, e, d - 1, n);
    }
    InheritedSame(sys, d - 1, n);
  }

  ghost predicate HasReleased(P: Primary) {
    P.start < P.released
  }

  /** A primary that has released something of its own proves that its backup had everything before it:
      while every primary in between has, nothing any of them acknowledged is ever lost. */
  lemma {:induction false} StartsCover(sys: System, e: nat, d: nat)
    requires Inv(sys) && e in sys.primaries && d in sys.primaries && e < d
    requires forall i :: e <= i < d && i in sys.primaries ==> HasReleased(sys.primaries[i])
    ensures forall i :: e < i <= d ==> i in sys.primaries && sys.primaries[e].released <= sys.primaries[i].start
    decreases d - e
  {
    assert Linked(sys, d);
    assert d - 1 in sys.primaries;
    if d - 1 > e {
      StartsCover(sys, e, d - 1);
    }
    assert PrimaryOk(d - 1, sys.primaries[d - 1], Held(sys, d - 1));
    assert BackupOk(d - 1, sys.backups[d - 1], sys.primaries[d - 1]);
  }

  lemma ReleasedSurvivesChain(ringLog2: nat, steps: seq<Step>, e: nat, d: nat, n: nat)
    requires Fitting(ringLog2, steps)
    requires var sys := Run(ringLog2, steps);
      && Released(sys, e, n) && d in sys.primaries && e < d
      && forall i :: e < i < d && i in sys.primaries ==> HasReleased(sys.primaries[i])
    ensures SameCommand(Run(ringLog2, steps), e, d, n)
  {
    hide Run, Inv, SameCommand;
    RunOk(ringLog2, steps);
    var sys := Run(ringLog2, steps);
    StartsCover(sys, e, d);
    InheritedAlong(sys, e, d, n);
  }

  /** What a takeover keeps of the commands the old primary holds, its own and those it inherited:
      exactly those before the next one the backup expects. A backup never checks for a gap first. */
  lemma TakeoverKeepsIff(ringLog2: nat, steps: seq<Step>, e: nat, r: nat, n: nat)
    requires Fitting(ringLog2, steps)
    requires var sys := Run(ringLog2, steps);
      Can(sys, Promote(e, r)) && e in sys.primaries && 1 <= n <= |sys.primaries[e].journal|
    ensures var sys := Run(ringLog2, steps);
      WellFormed(sys) && (SameCommand(Do(sys, Promote(e, r)), e, e + 1, n) <==> n < sys.backups[e].sub.expected)
  {
    hide Run, Fitting, Do;
    RunOk(ringLog2, steps);
    var sys := Run(ringLog2, steps);
    InvWellFormed(sys);
    NotYet(sys, e);
    BackupEpoch(e, sys.backups[e], sys.primaries[e]);
    hide Inv, PrimaryOk;
    PromotedTo(sys, e, r);
    var b := sys.backups[e];
    assert n <= |b.journal| ==> b.journal[n - 1] == sys.primaries[e].journal[..|b.journal|][n - 1];
  }

  lemma PromotedTo(sys: System, e: nat, r: nat)
    requires WellFormed(sys) && Can(sys, Promote(e, r)) && sys.backups[e].sub.epoch == e
    ensures var sys' := Do(sys, Promote(e, r));
      && e in sys'.primaries && e + 1 in sys'.primaries && sys'.primaries[e] == sys.primaries[e]
      && sys'.primaries[e + 1].journal == sys.backups[e].journal
      && sys'.primaries[e + 1].flushed == |sys.backups[e].journal|
  {
  }

  /** A backup's journal is always a prefix of what its primary has flushed to its own. */
  lemma BackupIsPrefix(ringLog2: nat, steps: seq<Step>, e: nat)
    requires Fitting(ringLog2, steps)
    requires e in Run(ringLog2, steps).backups
    ensures var sys := Run(ringLog2, steps);
      && e in sys.primaries
      && var b, P := sys.backups[e], sys.primaries[e];
         |b.journal| <= P.flushed <= |P.journal| && b.journal == P.journal[..|b.journal|]
  {
    RunOk(ringLog2, steps);
  }

  /** No subscriber ever asks past what the publisher has flushed, though a request would be served up to
      the last number assigned. */
  lemma RequestsWithinFlushed(ringLog2: nat, steps: seq<Step>, e: nat, first: nat, count: nat)
    requires Fitting(ringLog2, steps)
    requires Retransmit(e, first, count) in Run(ringLog2, steps).net
    ensures e in Run(ringLog2, steps).primaries && first + count <= Run(ringLog2, steps).primaries[e].flushed + 1
  {
    RunOk(ringLog2, steps);
    assert PacketOk(Run(ringLog2, steps), Retransmit(e, first, count));
  }

  lemma PromotesAfresh(sys: System, e: nat, ringLog2: nat)
    requires Inv(sys) && Can(sys, Promote(e, ringLog2))
    ensures sys.backups[e].sub.epoch + 1 !in sys.primaries
  {
    hide PrimaryOk, PacketOk;
    NotYet(sys, e);
    BackupEpoch(e, sys.backups[e], sys.primaries[e]);
  }

  // ---- the end of the stream ----

  /** An end announced under epoch e: either the primary has closed with exactly that journal, or it has
      since been restarted from a journal that covers the end. */
  ghost predicate EndCovered(sys: System, e: nat, next: nat) {
    && e in sys.primaries && next >= 1
    && var P := sys.primaries[e];
       next - 1 <= P.base || (P.closed && next == |P.journal| + 1)
  }

  ghost predicate EndsOk(sys: System) {
    && (forall e, next :: End(e, next) in sys.net ==> EndCovered(sys, e, next))
    && forall e :: e in sys.backups && sys.backups[e].sub.ended ==> End(e, sys.backups[e].sub.endSeq) in sys.net
  }

  ghost predicate NoEnds(ps: seq<Packet>) {
    forall k :: 0 <= k < |ps| ==> !ps[k].End?
  }

  lemma {:induction false} ChunksNoEnds(epoch: nat, log: Log, from: nat, end: nat)
    requires 1 <= from && end <= |log| + 1
    ensures NoEnds(Chunks(epoch, log, from, end))
    decreases end - from
  {
    if from < end {
      var n := if end - from < PER_PACKET then end - from else PER_PACKET;
      ChunksNoEnds(epoch, log, from + n, end);
    }
  }

  lemma {:induction false} ServeAllNoEnds(p: Pub, log: Log, hs: seq<Packet>)
    requires p.next == |log| + 1 && p.historyFrom >= 1
    ensures NoEnds(ServeAll(p, log, hs).1)
    decreases |hs|
  {
    if hs != [] {
      var h := hs[0];
      if h.Retransmit? && h.first >= Oldest(p) {
        ChunksNoEnds(p.epoch, log, h.first, if h.first + h.count < p.next then h.first + h.count else p.next);
      }
      ServeAllNoEnds(ServeP(p, log, h).0, log, hs[1..]);
    }
  }

  /** A primary's step that keeps its base, and its journal once closed, and announces no end. */
  lemma QuietPrimary(sys: System, e: nat, P: Primary, sent: seq<Packet>)
    requires EndsOk(sys) && e in sys.primaries && NoEnds(sent)
    requires var Q := sys.primaries[e]; P.base == Q.base && (Q.closed ==> P.closed && P.journal == Q.journal)
    ensures EndsOk(SetPrimary(sys, e, P, sent))
  {
    var sys' := SetPrimary(sys, e, P, sent);
    forall d, next | End(d, next) in sys'.net ensures EndCovered(sys', d, next) {
      assert End(d, next) in sys.net;
    }
  }

  lemma QuietBackup(sys: System, e: nat, b: Backup, sent: seq<Packet>)
    requires EndsOk(sys) && NoEnds(sent)
    requires b.sub.ended ==> End(e, b.sub.endSeq) in sys.net
    ensures EndsOk(SetBackup(sys, e, b, sent))
  {
    var sys' := SetBackup(sys, e, b, sent);
    forall d, next | End(d, next) in sys'.net ensures EndCovered(sys', d, next) {
      assert End(d, next) in sys.net;
      assert EndCovered(sys, d, next);
    }
  }

  lemma CloseEnds(sys: System, e: nat)
    requires WellFormed(sys) && EndsOk(sys) && Can(sys, Close(e))
    ensures EndsOk(Do(sys, Close(e)))
  {
    hide AsRead;
    var P := sys.primaries[e];
    var sys' := Do(sys, Close(e));
    ChunksNoEnds(P.pub.epoch, AsRead(P.journal, P.pub.ringSize), P.pub.pending, P.pub.next);
    hide Chunks;
    forall d, next | End(d, next) in sys'.net ensures EndCovered(sys', d, next) {
      if End(d, next) in sys.net {
        assert EndCovered(sys, d, next);
      }
    }
  }

  lemma RestartEnds(sys: System, e: nat, k: nat)
    requires Inv(sys) && WellFormed(sys) && EndsOk(sys) && Can(sys, Restart(e, k))
    ensures EndsOk(Do(sys, Restart(e, k)))
  {
    hide PrimaryOk, BackupOk, Linked;
    var sys' := Do(sys, Restart(e, k));
    forall d, next | End(d, next) in sys'.net ensures EndCovered(sys', d, next) {
      assert End(d, next) in sys.net;
      assert EndCovered(sys, d, next) && PacketOk(sys, End(d, next));
    }
  }

  lemma PromoteEnds(sys: System, e: nat, r: nat)
    requires Inv(sys) && WellFormed(sys) && EndsOk(sys) && Can(sys, Promote(e, r))
    ensures EndsOk(Do(sys, Promote(e, r)))
  {
    hide Inv;
    PromotesAfresh(sys, e, r);
    var sys' := Do(sys, Promote(e, r));
    forall d, next | End(d, next) in sys'.net ensures EndCovered(sys', d, next) {
      assert End(d, next) in sys.net;
      assert EndCovered(sys, d, next);
    }
  }

  lemma DeliverEnds(sys: System, e: nat, p: Packet)
    requires Inv(sys) && WellFormed(sys) && EndsOk(sys) && Can(sys, Deliver(e, p))
    ensures EndsOk(Do(sys, Deliver(e, p)))
  {
    hide Inv, EndCovered, ReceiveS;
    PrimaryFacts(sys, e);
    ReceiveEpoch(sys.backups[e].sub, p);
    var (s, out) := ReceiveS(sys.backups[e].sub, p);
    QuietBackup(sys, e, sys.backups[e].(sub := s, journal := sys.backups[e].journal + out), []);
  }

  lemma StepEnds(sys: System, step: Step)
    requires Inv(sys) && WellFormed(sys) && EndsOk(sys) && Can(sys, step)
    ensures EndsOk(Do(sys, step))
  {
    hide Inv, EndsOk, AsRead, Chunks, ReceiveS, ServeAll;
    match step
    case Service(e, heard, control) =>
      HearAllKeeps(sys.primaries[e].pub, heard);
      ServeAllNoEnds(HearAll(sys.primaries[e].pub, heard), sys.primaries[e].journal, control);
      var (P, sent) := ServiceP(sys.primaries[e], heard, control);
      QuietPrimary(sys, e, P, sent);
    case Close(e) => CloseEnds(sys, e);
    case Restart(e, k) => RestartEnds(sys, e, k);
    case Promote(e, r) => PromoteEnds(sys, e, r);
    case Deliver(e, p) => DeliverEnds(sys, e, p);
    case Commit(e) => FlushEnds(sys, e, step);
    case Beat(e) => FlushEnds(sys, e, step);
    case Take(e, c) => PlainEnds(sys, step);
    case Release(e) => PlainEnds(sys, step);
    case LoseReplica(e) => PlainEnds(sys, step);
    case Join(e, k) => PlainEnds(sys, step);
    case Ask(e) => PlainEnds(sys, step);
    case FlushAck(e) => PlainEnds(sys, step);
    case Stop(e) => PlainEnds(sys, step);
  }

  lemma FlushEnds(sys: System, e: nat, step: Step)
    requires WellFormed(sys) && EndsOk(sys) && Can(sys, step) && (step == Commit(e) || step == Beat(e))
    ensures EndsOk(Do(sys, step))
  {
    hide EndsOk, AsRead;
    var P := sys.primaries[e];
    ChunksNoEnds(P.pub.epoch, AsRead(P.journal, P.pub.ringSize), P.pub.pending, P.pub.next);
    hide Chunks;
    if step.Commit? {
      var (P', sent) := FlushP(P.(flushed := |P.journal|), []);
      QuietPrimary(sys, e, P'.(waiting := true), sent);
    } else {
      var (P', sent) := FlushP(P, [Heartbeat(e, P.pub.next)]);
      QuietPrimary(sys, e, P', sent);
    }
  }

  lemma PlainEnds(sys: System, step: Step)
    requires WellFormed(sys) && EndsOk(sys) && Can(sys, step)
    requires step.Take? || step.Release? || step.LoseReplica? || step.Join? || step.Ask? || step.FlushAck? || step.Stop?
    ensures EndsOk(Do(sys, step))
  {
    hide EndsOk, AsRead, Chunks;
    var e := step.e;
    if step.Take? {
      var P := sys.primaries[e];
      QuietPrimary(sys, e,
                   P.(journal := P.journal + [step.c.(seq_ := P.pub.next)], pub := P.pub.(next := P.pub.next + 1)), []);
    } else if step.Release? {
      QuietPrimary(sys, e, sys.primaries[e].(released := |sys.primaries[e].journal|, waiting := false), []);
    } else if step.LoseReplica? {
      QuietPrimary(sys, e, sys.primaries[e].(halted := true), []);
    } else if step.Join? {
      QuietBackup(sys, e, Backup(NewSub(step.k + 1), sys.primaries[e].journal[..step.k], step.k, false, false), []);
    } else {
      var b := sys.backups[e];
      EndKnown(sys, e);
      if step.Ask? {
        QuietBackup(sys, e, b, [GapS(b.sub).value]);
      } else if step.FlushAck? {
        var ack := if b.sub.epoch == 0 then [] else [Ack(b.sub.epoch, |b.journal|)];
        QuietBackup(sys, e, b.(flushed := |b.journal|), ack);
      } else {
        QuietBackup(sys, e, b.(stopped := true), []);
      }
    }
  }

  lemma EndKnown(sys: System, e: nat)
    requires EndsOk(sys) && e in sys.backups
    ensures sys.backups[e].sub.ended ==> End(e, sys.backups[e].sub.endSeq) in sys.net
  {
  }

  lemma {:induction false} RunEnds(ringLog2: nat, steps: seq<Step>)
    requires Fitting(ringLog2, steps)
    ensures EndsOk(Run(ringLog2, steps))
    decreases |steps|
  {
    hide Inv, Can, Do, Fits, EndCovered;
    if steps != [] {
      var before, step := steps[..|steps| - 1], steps[|steps| - 1];
      RunEnds(ringLog2, before);
      RunOk(ringLog2, before);
      if Can(Run(ringLog2, before), step) {
        StepEnds(Run(ringLog2, before), step);
      }
    }
  }

  /** A backup that has ended misses nothing its primary had numbered when it shut down: it holds the whole
      journal, unless the primary has since been restarted under the same epoch, and then from a journal that
      already covered that end. */
  lemma EndedHolds(ringLog2: nat, steps: seq<Step>, e: nat)
    requires Fitting(ringLog2, steps)
    requires var sys := Run(ringLog2, steps); e in sys.backups && EndedS(sys.backups[e].sub)
    ensures var sys := Run(ringLog2, steps);
      && e in sys.primaries && End(e, sys.backups[e].sub.endSeq) in sys.net
      && var b, P := sys.backups[e], sys.primaries[e];
         && 1 <= b.sub.endSeq <= |b.journal| + 1
         && (b.sub.endSeq - 1 <= P.base || (P.closed && b.journal == P.journal))
  {
    hide Run, Fitting;
    RunOk(ringLog2, steps);
    RunEnds(ringLog2, steps);
    var sys := Run(ringLog2, steps);
    assert e in sys.primaries;
    PrimaryFacts(sys, e);
    assert EndCovered(sys, e, sys.backups[e].sub.endSeq);
  }

  // ---- where the promise ends ----

  lemma Then(ringLog2: nat, steps: seq<Step>, step: Step)
    requires Can(Run(ringLog2, steps), step)
    ensures WellFormed(Run(ringLog2, steps)) && Run(ringLog2, steps + [step]) == Do(Run(ringLog2, steps), step)
  {
    hide Inv, Can, Do;
    assert (steps + [step])[..|steps|] == steps;
  }

  /** Steps without a commit add nothing to fit. */
  lemma {:induction false} FitsOn(ringLog2: nat, steps: seq<Step>, more: seq<Step>)
    requires Fitting(ringLog2, steps) && forall k :: 0 <= k < |more| ==> !more[k].Commit?
    ensures Fitting(ringLog2, steps + more)
    decreases |more|
  {
    hide Can, Run;
    if more == [] {
      assert steps + more == steps;
    } else {
      var m := |more| - 1;
      FitsOn(ringLog2, steps, more[..m]);
      assert (steps + more)[..|steps + more| - 1] == steps + more[..m];
    }
  }

  lemma FitsCommit(ringLog2: nat, steps: seq<Step>, e: nat)
    requires Fitting(ringLog2, steps) && e in Run(ringLog2, steps).primaries
    requires BatchFits(Run(ringLog2, steps).primaries[e])
    ensures Fitting(ringLog2, steps + [Commit(e)])
  {
    hide Can, Run;
    assert (steps + [Commit(e)])[..|steps|] == steps;
  }

  /** One command taken, committed, held by the backup and released; then the backup takes over. */
  function ReleaseSteps(c: Command): seq<Step> {
    [Join(1, 0), Take(1, c), Commit(1), Deliver(1, Data(1, 1, [c.(seq_ := 1)])), FlushAck(1),
     Service(1, [], [Ack(1, 1)]), Release(1)]
  }

  /** ... and a fresh backup of the second primary takes over in turn, before it has caught up. */
  function LossSteps(c: Command, ringLog2: nat): seq<Step> {
    ReleaseSteps(c) + [Promote(1, ringLog2), Beat(2), Join(2, 0), Deliver(2, Heartbeat(2, 2)), Promote(2, ringLog2)]
  }

  function Committed(ringLog2: nat, c: Command): System {
    var c1 := c.(seq_ := 1);
    System(map[1 := Primary(NewPub(1, 1, Pow2(ringLog2)).(next := 2, pending := 2), [c1], 1, 0, 0, 0, true,
                            false, false)],
           map[1 := Backup(NewSub(1), [], 0, false, false)], {Data(1, 1, [c1])})
  }

  lemma CommitRun(ringLog2: nat, c: Command)
    ensures Run(ringLog2, [Join(1, 0), Take(1, c), Commit(1)]) == Committed(ringLog2, c)
    ensures Fitting(ringLog2, [Join(1, 0), Take(1, c), Commit(1)])
  {
    hide Inv, Run, Least, DrainS, SubOk, Pow2, ReceiveS, ServeAll, HearAll;
    var r, c1 := ringLog2, c.(seq_ := 1);
    var p0 := NewPub(1, 1, Pow2(r));
    var s0 := System(map[1 := Primary(p0, [], 0, 0, 0, 0, false, false, false)], map[], {});
    assert Run(r, []) == s0 by { StartsAt(r); }
    var d := Data(1, 1, [c1]);
    SentOne(d);
    assert [] + [c1] == [c1];
    var s1 := s0.(backups := map[1 := Backup(NewSub(1), [], 0, false, false)]);
    assert Do(s0, Join(1, 0)) == s1 by { NoneSent(s1.net); }
    Then(r, [], Join(1, 0));
    var t1 := [] + [Join(1, 0)];
    var s2 := s1.(primaries := map[1 := Primary(p0.(next := 2), [c1], 0, 0, 0, 0, false, false, false)]);
    Then(r, t1, Take(1, c));
    var t2 := t1 + [Take(1, c)];
    assert Run(r, t2) == s2 by { NoneSent(s2.net); }
    FitsOn(r, [], t2);
    assert [] + t2 == t2;
    FitsCommit(r, t2, 1);
    Then(r, t2, Commit(1));
    OneChunk(c1, Pow2(r));
    assert [d] + [] == [d];
    assert t2 + [Commit(1)] == [Join(1, 0), Take(1, c), Commit(1)];
  }

  function HeldByBackup(ringLog2: nat, c: Command): System {
    var c1 := c.(seq_ := 1);
    Committed(ringLog2, c).(
      backups := map[1 := Backup(Sub(1, 1, 0, 2, 2, 0, false, false, map[]), [c1], 1, false, false)],
                            net := {Data(1, 1, [c1]), Ack(1, 1)})
  }

  lemma AckRun(ringLog2: nat, c: Command)
    ensures Run(ringLog2, [Join(1, 0), Take(1, c), Commit(1), Deliver(1, Data(1, 1, [c.(seq_ := 1)])), FlushAck(1)])
      == HeldByBackup(ringLog2, c)
  {
    hide Inv, Run, Fitting, Least, DrainS, SubOk, Pow2, ReceiveS, ServeAll, HearAll, Chunks, AsRead;
    var r, c1 := ringLog2, c.(seq_ := 1);
    var b1 := Backup(Sub(1, 1, 0, 2, 2, 0, false, false, map[]), [c1], 0, false, false);
    var d, ack := Data(1, 1, [c1]), Ack(1, 1);
    SentOne(d);
    SentOne(ack);
    CommitRun(r, c);
    assert [] + [c1] == [c1];
    var t3 := [Join(1, 0), Take(1, c), Commit(1)];
    var s3 := Committed(r, c);
    Then(r, t3, Deliver(1, d));
    var t4 := t3 + [Deliver(1, d)];
    FirstDelivered(c1);
    var s4 := s3.(backups := map[1 := b1]);
    assert Run(r, t4) == s4 by { NoneSent(s4.net); }
    Then(r, t4, FlushAck(1));
    assert t4 + [FlushAck(1)] == [Join(1, 0), Take(1, c), Commit(1), Deliver(1, d), FlushAck(1)];
  }

  lemma ReleaseRun(ringLog2: nat, c: Command)
    ensures var sys := Run(ringLog2, ReleaseSteps(c));
      && Released(sys, 1, 1) && sys.primaries.Keys == {1} && sys.backups.Keys == {1}
      && sys.backups[1] == Backup(Sub(1, 1, 0, 2, 2, 0, false, false, map[]), [c.(seq_ := 1)], 1, false, false)
  {
    hide Inv, Run, Fitting, Least, DrainS, SubOk, Pow2, ReceiveS, ServeAll, HearAll, Chunks, AsRead;
    var r, c1 := ringLog2, c.(seq_ := 1);
    var p1 := NewPub(1, 1, Pow2(r)).(next := 2, pending := 2);
    var d, ack := Data(1, 1, [c1]), Ack(1, 1);
    SentOne(ack);
    AckRun(r, c);
    var t5 := [Join(1, 0), Take(1, c), Commit(1), Deliver(1, d), FlushAck(1)];
    var s5 := HeldByBackup(r, c);
    Then(r, t5, Service(1, [], [ack]));
    var t6 := t5 + [Service(1, [], [ack])];
    OneAck(p1, c1);
    HeardNothing(p1);
    var s6 := s5.(primaries := map[1 := Primary(p1.(acked := 1), [c1], 1, 0, 0, 0, true, false, false)]);
    assert Run(r, t6) == s6 by { NoneSent(s6.net); }
    Then(r, t6, Release(1));
    assert Run(r, t6 + [Release(1)]).primaries.Keys == {1};
    assert t6 + [Release(1)] == ReleaseSteps(c);
  }

  lemma NoneSent(net: set<Packet>)
    ensures net + Sent([]) == net
  {
  }

  lemma OneChunk(c1: Command, size: nat)
    requires size > 0
    ensures AsRead([c1], size) == [c1] && Chunks(1, [c1], 1, 2) == [Data(1, 1, [c1])]
  {
    assert AsRead([c1], size)[0] == c1;
    assert Slice([c1], 1, 2) == [c1];
    assert [Data(1, 1, [c1])] + Chunks(1, [c1], 2, 2) == [Data(1, 1, [c1])];
  }

  lemma FirstDelivered(c1: Command)
    ensures ReceiveS(NewSub(1), Data(1, 1, [c1])) == (Sub(1, 1, 0, 2, 2, 0, false, false, map[]), [c1])
  {
    DrainStep(Sub(1, 1, 0, 2, 2, 0, false, false, map[]));
    assert [c1][0..] == [c1] && [c1] + [] == [c1];
  }

  lemma HeardNothing(p: Pub)
    ensures HearAll(p, []) == p
  {
  }

  lemma OneAck(p: Pub, c1: Command)
    requires p.epoch == 1 && p.next == 2 && p.historyFrom == 1 && p.acked == 0 && !Fenced(p)
    ensures ServeAll(p, [c1], [Ack(1, 1)]) == (p.(acked := 1), [])
  {
    assert [Ack(1, 1)][1..] == [];
    assert ServeP(p, [c1], Ack(1, 1)) == (p.(acked := 1), []);
    var none: seq<Packet> := [];
    assert none + none == none;
  }

  lemma SentOne(p: Packet)
    ensures Sent([p]) == {p} && Sent([]) == {}
  {
    assert [p][0] in Sent([p]);
  }

  lemma StartsAt(ringLog2: nat)
    ensures Run(ringLog2, []) == Init(ringLog2)
  {
  }

  lemma TakeoverRun(ringLog2: nat, c: Command)
    ensures var sys := Run(ringLog2, ReleaseSteps(c) + [Promote(1, ringLog2)] + [Beat(2)]);
      && Released(sys, 1, 1) && sys.primaries.Keys == {1, 2} && sys.backups.Keys == {1} && Heartbeat(2, 2) in sys.net
      && sys.primaries[2] == StartPrimary(NewPub(2, 2, Pow2(ringLog2)).(historyFrom := 1), [c.(seq_ := 1)])
  {
    hide Inv, Run, Fitting, Least, DrainS, SubOk, Pow2, ReceiveS, ServeAll, HearAll, ReleaseSteps, AsRead;
    var r, c1 := ringLog2, c.(seq_ := 1);
    ReleaseRun(r, c);
    var t0 := ReleaseSteps(c);
    Then(r, t0, Promote(1, r));
    var t1 := t0 + [Promote(1, r)];
    assert Run(r, t1).primaries.Keys == {1, 2};
    Then(r, t1, Beat(2));
    var h := Heartbeat(2, 2);
    assert [] + [h] == [h];
    SentOne(h);
  }

  /** So an acknowledged command can be lost: after this run the first epoch's release is in no later
      primary's journal. The primary in between had released nothing of its own. */
  lemma AcknowledgedCanBeLost(ringLog2: nat, c: Command)
    ensures var sys := Run(ringLog2, LossSteps(c, ringLog2));
      && Released(sys, 1, 1) && 2 in sys.primaries && 3 in sys.primaries
      && !HasReleased(sys.primaries[2]) && sys.primaries[3].journal == []
    ensures Fitting(ringLog2, LossSteps(c, ringLog2))
  {
    hide Inv, Run, Fitting, Least, DrainS, SubOk, Pow2, ServeAll, HearAll, ReleaseSteps, AsRead, Chunks;
    LossFits(ringLog2, c);
    var r := ringLog2;
    TakeoverRun(r, c);
    var t2 := ReleaseSteps(c) + [Promote(1, r)] + [Beat(2)];
    var h := Heartbeat(2, 2);
    Then(r, t2, Join(2, 0));
    var t3 := t2 + [Join(2, 0)];
    Then(r, t3, Deliver(2, h));
    var t4 := t3 + [Deliver(2, h)];
    assert Run(r, t4).backups[2] == Backup(NewSub(1).(epoch := 2, knownNext := 2), [], 0, false, false);
    Then(r, t4, Promote(2, r));
    assert t4 + [Promote(2, r)] == LossSteps(c, r);
  }

  lemma LossFits(ringLog2: nat, c: Command)
    ensures Fitting(ringLog2, LossSteps(c, ringLog2))
  {
    hide Run, Fitting;
    CommitRun(ringLog2, c);
    var t := [Join(1, 0), Take(1, c), Commit(1)];
    var more := LossSteps(c, ringLog2)[3..];
    FitsOn(ringLog2, t, more);
    assert t + more == LossSteps(c, ringLog2);
  }

  /** Two commands in one batch over a ring of one slot. */
  function OverrunSteps(c: Command): seq<Step> {
    [Join(1, 0), Take(1, c), Take(1, c), Commit(1), Deliver(1, Data(1, 1, [c.(seq_ := 2), c.(seq_ := 2)]))]
  }

  lemma OverrunTaken(c: Command)
    ensures var c1, c2 := c.(seq_ := 1), c.(seq_ := 2);
      Run(0, [Join(1, 0), Take(1, c), Take(1, c)]) ==
        System(map[1 := Primary(NewPub(1, 1, 1).(next := 3), [c1, c2], 0, 0, 0, 0, false, false, false)],
               map[1 := Backup(NewSub(1), [], 0, false, false)], {})
  {
    hide Inv, Run, Fitting, Least, DrainS, SubOk, ReceiveS, ServeAll, HearAll, Chunks, AsRead;
    var c1, c2 := c.(seq_ := 1), c.(seq_ := 2);
    StartsAt(0);
    var t0: seq<Step> := [];
    NoneSent({});
    Then(0, t0, Join(1, 0));
    var t1 := t0 + [Join(1, 0)];
    Then(0, t1, Take(1, c));
    assert [] + [c1] == [c1] && [c1] + [c2] == [c1, c2];
    var t2 := t1 + [Take(1, c)];
    Then(0, t2, Take(1, c));
    assert t2 + [Take(1, c)] == [Join(1, 0), Take(1, c), Take(1, c)];
  }

  /** A batch larger than the ring goes out under the wrong numbers: after this run the backup's journal
      holds the second command twice and is no prefix of its primary's. */
  lemma OverrunMisleads(c: Command)
    ensures var sys := Run(0, OverrunSteps(c));
      && 1 in sys.primaries && 1 in sys.backups
      && sys.primaries[1].journal == [c.(seq_ := 1), c.(seq_ := 2)] && sys.primaries[1].flushed == 2
      && sys.backups[1].journal == [c.(seq_ := 2), c.(seq_ := 2)]
  {
    hide Inv, Run, Fitting, Least, DrainS, SubOk, ReceiveS, ServeAll, HearAll, Chunks, AsRead;
    var c1, c2 := c.(seq_ := 1), c.(seq_ := 2);
    OverrunTaken(c);
    var t3 := [Join(1, 0), Take(1, c), Take(1, c)];
    TwoChunk(c1, c2);
    Then(0, t3, Commit(1));
    var t4 := t3 + [Commit(1)];
    var d := Data(1, 1, [c2, c2]);
    assert [d] + [] == [d];
    SentOne(d);
    assert d in Run(0, t4).net;
    var b := Run(0, t4).backups[1];
    assert b == Backup(NewSub(1), [], 0, false, false);
    TwoDelivered(c2);
    Then(0, t4, Deliver(1, d));
    assert b.journal + [c2, c2] == [c2, c2];
    assert t4 + [Deliver(1, d)] == OverrunSteps(c);
  }

  lemma TwoChunk(c1: Command, c2: Command)
    ensures AsRead([c1, c2], 1) == [c2, c2] && Chunks(1, [c2, c2], 1, 3) == [Data(1, 1, [c2, c2])]
  {
    assert AsRead([c1, c2], 1)[0] == c2;
    assert Slice([c2, c2], 1, 3) == [c2, c2];
    assert [Data(1, 1, [c2, c2])] + Chunks(1, [c2, c2], 3, 3) == [Data(1, 1, [c2, c2])];
  }

  lemma TwoDelivered(c2: Command)
    ensures ReceiveS(NewSub(1), Data(1, 1, [c2, c2])).1 == [c2, c2]
  {
    var s := Sub(1, 1, 0, 3, 3, 0, false, false, map[]);
    DrainStep(s);
    assert [c2, c2][0..] == [c2, c2] && [c2, c2] + [] == [c2, c2];
  }
}
