/** Fencing and acknowledgement, in every run of the replication protocol, whatever the size of its batches:
    nothing here depends on what the ring still holds. */
module Fencing {
  import opened Types
  import opened Arithmetic
  import opened SeqStreams
  import opened SeqSubscribers
  import opened Replication

  /** `held` is what this epoch's backup has flushed. */
  ghost predicate GuardedPrimary(P: Primary, held: nat) {
    && P.base < P.pub.pending && (P.pub.acked <= P.base || P.pub.acked <= held)
    && (P.waiting ==> P.base < |P.journal|)
    && (Fenced(P.pub) ==> P.halted)
  }

  ghost predicate GuardedBackup(e: nat, b: Backup) {
    (b.sub.epoch == 0 || b.sub.epoch == e) && b.flushed <= |b.journal|
  }

  /** Epoch e began with the promotion of the backup before it, if it is not the first. */
  ghost predicate Begun(sys: System, e: nat) {
    e >= 1 && (e > 1 ==> e - 1 in sys.backups && sys.backups[e - 1].promoted)
  }

  ghost predicate AckHeld(sys: System, p: Packet) {
    p.Ack? ==> p.epoch in sys.backups && p.through <= sys.backups[p.epoch].flushed
  }

  ghost predicate Guarded(sys: System) {
    && WellFormed(sys)
    && (forall e :: e in sys.primaries ==> GuardedPrimary(sys.primaries[e], Held(sys, e)))
    && (forall e :: e in sys.primaries ==> Begun(sys, e))
    && (forall e :: e in sys.backups ==> GuardedBackup(e, sys.backups[e]))
    && forall p :: p in sys.net ==> AckHeld(sys, p)
  }

  ghost predicate NoAcks(ps: seq<Packet>) {
    forall k :: 0 <= k < |ps| ==> !ps[k].Ack?
  }

  lemma {:induction false} ChunksNoAcks(epoch: nat, log: Log, from: nat, end: nat)
    requires 1 <= from && end <= |log| + 1
    ensures NoAcks(Chunks(epoch, log, from, end))
    decreases end - from
  {
    if from < end {
      var n := if end - from < PER_PACKET then end - from else PER_PACKET;
      ChunksNoAcks(epoch, log, from + n, end);
    }
  }

  lemma FlushNoAcks(P: Primary, last: seq<Packet>)
    requires PubShape(P) && NoAcks(last)
    ensures NoAcks(FlushP(P, last).1)
  {
    hide Chunks, AsRead;
    ChunksNoAcks(P.pub.epoch, AsRead(P.journal, P.pub.ringSize), P.pub.pending, P.pub.next);
  }

  /** Serving takes an acknowledgement only from this epoch's backup, none at all once fenced, and sends none. */
  lemma {:induction false} ServeGuarded(sys: System, p: Pub, log: Log, hs: seq<Packet>)
    requires p.next == |log| + 1 && p.historyFrom >= 1
    requires forall k :: 0 <= k < |hs| ==> AckHeld(sys, hs[k])
    ensures var (q, sent) := ServeAll(p, log, hs);
      && q == p.(acked := q.acked) && (q.acked == p.acked || q.acked <= Held(sys, p.epoch))
      && (Fenced(p) ==> q == p) && NoAcks(sent)
    decreases |hs|
  {
    if hs != [] {
      var h := hs[0];
      if h.Retransmit? && h.first >= Oldest(p) {
        ChunksNoAcks(p.epoch, log, h.first, if h.first + h.count < p.next then h.first + h.count else p.next);
      }
      ServeGuarded(sys, ServeP(p, log, h).0, log, hs[1..]);
    }
  }

  // ---- every step keeps it ----

  lemma PrimaryGuarded(sys: System, e: nat, P: Primary, sent: seq<Packet>)
    requires Guarded(sys) && e in sys.primaries && PubOk(e, P) && GuardedPrimary(P, Held(sys, e)) && NoAcks(sent)
    ensures Guarded(SetPrimary(sys, e, P, sent))
  {
    hide PubOk, GuardedPrimary, GuardedBackup;
    var sys' := SetPrimary(sys, e, P, sent);
    forall p | p in sys'.net ensures AckHeld(sys', p) {
      assert p in sys.net ==> AckHeld(sys, p);
    }
    forall d | d in sys'.primaries ensures Begun(sys', d) && GuardedPrimary(sys'.primaries[d], Held(sys', d)) {
      assert Begun(sys, d) && Held(sys', d) == Held(sys, d);
    }
  }

  lemma BackupGuarded(sys: System, e: nat, b: Backup, sent: seq<Packet>)
    requires Guarded(sys) && e in sys.primaries && GuardedBackup(e, b) && Held(sys, e) <= b.flushed
    requires e in sys.backups && sys.backups[e].promoted ==> b.promoted
    requires forall k :: 0 <= k < |sent| ==> sent[k].Ack? ==> sent[k].epoch == e && sent[k].through <= b.flushed
    ensures Guarded(SetBackup(sys, e, b, sent))
  {
    hide PubOk, GuardedBackup;
    var sys' := SetBackup(sys, e, b, sent);
    forall p | p in sys'.net ensures AckHeld(sys', p) {
      assert p in sys.net ==> AckHeld(sys, p);
    }
    forall d | d in sys'.primaries ensures Begun(sys', d) && GuardedPrimary(sys'.primaries[d], Held(sys', d)) {
      assert Begun(sys, d) && GuardedPrimary(sys.primaries[d], Held(sys, d)) && Held(sys, d) <= Held(sys', d);
    }
  }

  lemma GuardedFacts(sys: System, e: nat)
    requires Guarded(sys) && e in sys.primaries
    ensures PubOk(e, sys.primaries[e]) && GuardedPrimary(sys.primaries[e], Held(sys, e)) && Begun(sys, e)
    ensures e in sys.backups ==> GuardedBackup(e, sys.backups[e])
    ensures PubShape(sys.primaries[e])
  {
  }

  lemma PromotableEpoch(e: nat, b: Backup)
    requires GuardedBackup(e, b) && b.sub.epoch != 0
    ensures b.sub.epoch == e
  {
  }

  /** An epoch is promoted into once. */
  lemma PromotesOnce(sys: System, e: nat, ringLog2: nat)
    requires Guarded(sys) && Can(sys, Promote(e, ringLog2))
    ensures sys.backups[e].sub.epoch == e && e + 1 !in sys.primaries && e in sys.primaries
  {
    hide GuardedPrimary, GuardedBackup, AckHeld;
    forall d | d in sys.primaries ensures d != e + 1 {
      assert Begun(sys, d);
    }
    assert GuardedBackup(e, sys.backups[e]);
    PromotableEpoch(e, sys.backups[e]);
  }

  lemma ServiceGuarded(sys: System, e: nat, heard: seq<Packet>, control: seq<Packet>)
    requires Guarded(sys) && Can(sys, Service(e, heard, control))
    ensures Guarded(Do(sys, Service(e, heard, control)))
  {
    hide Guarded, ServeAll, HearAll, AckHeld, Held;
    GuardedFacts(sys, e);
    WellGuarded(sys);
    var P := sys.primaries[e];
    HearAllKeeps(P.pub, heard);
    AcksInNet(sys, control);
    ServeGuarded(sys, HearAll(P.pub, heard), P.journal, control);
    var (P', sent) := ServiceP(P, heard, control);
    PrimaryGuarded(sys, e, P', sent);
  }

  lemma WellGuarded(sys: System)
    requires Guarded(sys)
    ensures WellFormed(sys)
  {
  }

  lemma AcksInNet(sys: System, ps: seq<Packet>)
    requires Guarded(sys) && Sent(ps) <= sys.net
    ensures forall k :: 0 <= k < |ps| ==> AckHeld(sys, ps[k])
  {
    forall k | 0 <= k < |ps| ensures AckHeld(sys, ps[k]) {
      assert ps[k] in Sent(ps);
    }
  }

  lemma FlushGuarded(sys: System, e: nat, step: Step)
    requires Guarded(sys) && Can(sys, step) && (step == Commit(e) || step == Beat(e) || step == Step.Close(e))
    ensures WellFormed(sys) && Guarded(Do(sys, step))
  {
    hide Guarded, Held, AsRead, Chunks;
    GuardedFacts(sys, e);
    WellGuarded(sys);
    var P := sys.primaries[e];
    var P0 := P.(flushed := |P.journal|);
    match step
    case Commit(_) =>
      FlushNoAcks(P0, []);
      PrimaryGuarded(sys, e, FlushP(P0, []).0.(waiting := true), FlushP(P0, []).1);
    case Beat(_) =>
      var last := [Heartbeat(e, P.pub.next)];
      FlushNoAcks(P, last);
      PrimaryGuarded(sys, e, FlushP(P, last).0, FlushP(P, last).1);
    case Close(_) =>
      var last := Repeat(End(e, P.pub.next), 3);
      FlushNoAcks(P0, last);
      PrimaryGuarded(sys, e, FlushP(P0, last).0.(closed := true), FlushP(P0, last).1);
  }

  lemma PlainGuarded(sys: System, e: nat, step: Step)
    requires Guarded(sys) && Can(sys, step)
    requires (exists c :: step == Take(e, c)) || step == Release(e) || step == LoseReplica(e)
      || exists k :: step == Restart(e, k)
    ensures WellFormed(sys) && Guarded(Do(sys, step))
  {
    hide Guarded, Held;
    GuardedFacts(sys, e);
    WellGuarded(sys);
    PrimaryGuarded(sys, e, Do(sys, step).primaries[e], []);
  }

  lemma BackupStepGuarded(sys: System, e: nat, step: Step)
    requires Guarded(sys) && Can(sys, step)
    requires (exists k :: step == Join(e, k)) || (exists p :: step == Step.Deliver(e, p)) || step == Ask(e)
      || step == FlushAck(e) || step == Stop(e)
    ensures WellFormed(sys) && Guarded(Do(sys, step))
  {
    hide Guarded, ReceiveS, GapS;
    WellGuarded(sys);
    BackupsBegun(sys, e);
    GuardedFacts(sys, e);
    var b' := Do(sys, step).backups[e];
    match step
    case Join(_, k) => BackupGuarded(sys, e, b', []);
    case Deliver(_, p) =>
      ReceiveEpoch(sys.backups[e].sub, p);
      BackupGuarded(sys, e, b', []);
    case Ask(_) =>
      AsksOnly(sys.backups[e].sub);
      BackupGuarded(sys, e, b', [GapS(sys.backups[e].sub).value]);
    case FlushAck(_) =>
      BackupGuarded(sys, e, b', if b'.sub.epoch == 0 then [] else [Ack(b'.sub.epoch, |b'.journal|)]);
    case Stop(_) => BackupGuarded(sys, e, b', []);
  }

  lemma AsksOnly(s: Sub)
    requires GapS(s).Some?
    ensures GapS(s).value.Retransmit?
  {
    hide Least;
  }

  lemma BackupsBegun(sys: System, e: nat)
    requires Guarded(sys) && (e in sys.backups || e in sys.primaries)
    ensures e in sys.primaries
  {
  }

  lemma PromoteGuarded(sys: System, e: nat, r: nat)
    requires Guarded(sys) && Can(sys, Promote(e, r))
    ensures WellFormed(sys) && Guarded(Do(sys, Promote(e, r)))
  {
    hide Guarded, GuardedPrimary;
    WellGuarded(sys);
    PromotesOnce(sys, e, r);
    var b := sys.backups[e];
    var n := |b.journal|;
    var P := StartPrimary(NewPub(e + 1, n + 1, Pow2(r)).(historyFrom := 1), b.journal);
    var b' := b.(flushed := n, promoted := true);
    GuardedFacts(sys, e);
    BackupGuarded(sys, e, b', []);
    var mid := SetBackup(sys, e, b', []);
    assert GuardedPrimary(P, 0) by { StartsGuarded(e, n, r, b.journal); }
    NewGuarded(mid, e, P);
  }

  lemma StartsGuarded(e: nat, n: nat, r: nat, journal: Log)
    requires n == |journal|
    ensures GuardedPrimary(StartPrimary(NewPub(e + 1, n + 1, Pow2(r)).(historyFrom := 1), journal), 0)
  {
  }

  lemma NewGuarded(sys: System, e: nat, P: Primary)
    requires Guarded(sys) && e in sys.backups && sys.backups[e].promoted && e + 1 !in sys.primaries
    requires PubOk(e + 1, P) && GuardedPrimary(P, 0)
    ensures Guarded(SetPrimary(sys, e + 1, P, []))
  {
    hide PubOk, GuardedBackup;
    var sys' := SetPrimary(sys, e + 1, P, []);
    forall p | p in sys'.net ensures AckHeld(sys', p) {
      assert AckHeld(sys, p);
    }
    forall d | d in sys'.primaries ensures Begun(sys', d) && GuardedPrimary(sys'.primaries[d], Held(sys', d)) {
      assert d in sys.primaries ==> Begun(sys, d) && GuardedPrimary(sys.primaries[d], Held(sys, d));
    }
  }

  lemma StepGuarded(sys: System, step: Step)
    requires Guarded(sys) && Can(sys, step)
    ensures WellFormed(sys) && Guarded(Do(sys, step))
  {
    hide Guarded, Can, Do;
    WellGuarded(sys);
    match step
    case Service(e, heard, control) => ServiceGuarded(sys, e, heard, control);
    case Commit(e) => FlushGuarded(sys, e, step);
    case Beat(e) => FlushGuarded(sys, e, step);
    case Close(e) => FlushGuarded(sys, e, step);
    case Take(e, c) => PlainGuarded(sys, e, step);
    case Release(e) => PlainGuarded(sys, e, step);
    case LoseReplica(e) => PlainGuarded(sys, e, step);
    case Restart(e, k) => PlainGuarded(sys, e, step);
    case Join(e, k) => BackupStepGuarded(sys, e, step);
    case Deliver(e, p) => BackupStepGuarded(sys, e, step);
    case Ask(e) => BackupStepGuarded(sys, e, step);
    case FlushAck(e) => BackupStepGuarded(sys, e, step);
    case Stop(e) => BackupStepGuarded(sys, e, step);
    case Promote(e, r) => PromoteGuarded(sys, e, r);
  }

  /** In every run: a primary that has heard a newer epoch has halted, an epoch is promoted into once, and a
      primary's acknowledged mark is its own backup's. */
  lemma {:induction false} RunGuarded(ringLog2: nat, steps: seq<Step>)
    ensures Guarded(Run(ringLog2, steps))
    decreases |steps|
  {
    hide Can, Do;
    if steps == [] {
      InitGuarded(ringLog2);
    } else {
      hide Guarded;
      var before, step := steps[..|steps| - 1], steps[|steps| - 1];
      RunGuarded(ringLog2, before);
      if Can(Run(ringLog2, before), step) {
        StepGuarded(Run(ringLog2, before), step);
      }
    }
  }

  lemma InitGuarded(ringLog2: nat)
    ensures Guarded(Init(ringLog2))
  {
  }

  // ---- what leaves, and when ----

  lemma OnlyReleaseReleases(sys: System, step: Step, e: nat)
    requires WellFormed(sys) && Can(sys, step) && e in sys.primaries && step != Release(e)
    requires step.Promote? ==> sys.backups[step.e].sub.epoch + 1 != e
    ensures e in Do(sys, step).primaries && Do(sys, step).primaries[e].released == sys.primaries[e].released
  {
    hide AsRead, Chunks, ReceiveS, ServeAll, HearAll, GapS;
  }

  /** In every run, a response leaves only an unfenced primary, only on its own release, and only for what its own
      backup has made durable. */
  lemma ReleaseNeedsBackup(ringLog2: nat, steps: seq<Step>, step: Step, e: nat)
    requires var sys := Run(ringLog2, steps);
      && WellFormed(sys) && Can(sys, step) && e in sys.primaries && e in Do(sys, step).primaries
      && Do(sys, step).primaries[e].released != sys.primaries[e].released
    ensures var sys := Run(ringLog2, steps);
      && step == Release(e) && !Fenced(sys.primaries[e].pub)
      && e in sys.backups && Do(sys, step).primaries[e].released <= sys.backups[e].flushed
      && (Fitting(ringLog2, steps) ==> BackupOk(e, sys.backups[e], sys.primaries[e]))
  {
    RunGuarded(ringLog2, steps);
    var sys := Run(ringLog2, steps);
    hide Run, Do, Guarded, Fitting;
    if Fitting(ringLog2, steps) {
      RunOk(ringLog2, steps);
    }
    if step != Release(e) {
      if step.Promote? {
        PromotesOnce(sys, step.e, step.ringLog2);
      }
      OnlyReleaseReleases(sys, step, e);
    } else {
      ReleaseSafe(sys, e);
    }
  }

  lemma ReleaseSafe(sys: System, e: nat)
    requires Guarded(sys) && WellFormed(sys) && Can(sys, Release(e))
    ensures !Fenced(sys.primaries[e].pub) && e in sys.backups && e in Do(sys, Release(e)).primaries
    ensures Do(sys, Release(e)).primaries[e].released <= sys.backups[e].flushed
  {
    hide Guarded;
    GuardedFacts(sys, e);
  }

  // ---- over the rest of a run ----

  lemma RunBefore(steps: seq<Step>, more: seq<Step>)
    requires more != []
    ensures (steps + more)[..|steps + more| - 1] == steps + more[..|more| - 1]
    ensures (steps + more)[|steps + more| - 1] == more[|more| - 1]
  {
  }

  /** A fenced primary stays fenced, whoever steps, until its process is replaced. */
  lemma StaysFenced(sys: System, step: Step, e: nat)
    requires WellFormed(sys) && Can(sys, step) && e in sys.primaries && Fenced(sys.primaries[e].pub)
    requires !(step.Restart? && step.e == e) && (step.Promote? ==> sys.backups[step.e].sub.epoch + 1 != e)
    ensures e in Do(sys, step).primaries && Fenced(Do(sys, step).primaries[e].pub)
  {
    hide AsRead, Chunks, ReceiveS, Oldest;
    if step.Service? {
      HearAllKeeps(sys.primaries[step.e].pub, step.heard);
      ServeAllKeeps(HearAll(sys.primaries[step.e].pub, step.heard), sys.primaries[step.e].journal, step.control);
    }
  }

  /** Nothing is released once a newer epoch has been heard, however the run goes on. */
  lemma {:induction false} FencedNeverReleases(ringLog2: nat, steps: seq<Step>, more: seq<Step>, e: nat)
    requires e in Run(ringLog2, steps).primaries && Fenced(Run(ringLog2, steps).primaries[e].pub)
    requires forall k :: 0 <= k < |more| ==> !(more[k].Restart? && more[k].e == e)
    ensures var was, now := Run(ringLog2, steps), Run(ringLog2, steps + more);
      && e in now.primaries && Fenced(now.primaries[e].pub)
      && now.primaries[e].released == was.primaries[e].released
    decreases |more|
  {
    hide Can, Do, Guarded;
    if more == [] {
      assert steps + more == steps;
    } else {
      RunBefore(steps, more);
      var init, step := more[..|more| - 1], more[|more| - 1];
      FencedNeverReleases(ringLog2, steps, init, e);
      RunGuarded(ringLog2, steps + init);
      var sys := Run(ringLog2, steps + init);
      if Can(sys, step) {
        FencedStep(sys, step, e);
      }
    }
  }

  lemma FencedStep(sys: System, step: Step, e: nat)
    requires Guarded(sys) && WellFormed(sys) && Can(sys, step)
    requires e in sys.primaries && Fenced(sys.primaries[e].pub) && !(step.Restart? && step.e == e)
    ensures var sys' := Do(sys, step);
      e in sys'.primaries && Fenced(sys'.primaries[e].pub) && sys'.primaries[e].released == sys.primaries[e].released
  {
    hide Guarded, Do, WellFormed;
    if step.Promote? {
      PromotesOnce(sys, step.e, step.ringLog2);
    }
    GuardedFacts(sys, e);
    OnlyReleaseReleases(sys, step, e);
    StaysFenced(sys, step, e);
  }

  /** The datagrams this primary is served in these steps are all of other epochs. */
  ghost predicate ForeignTo(e: nat, step: Step) {
    step.Service? && step.e == e ==> forall k :: 0 <= k < |step.control| ==> step.control[k].epoch != e
  }

  lemma {:induction false} ForeignServed(p: Pub, log: Log, hs: seq<Packet>)
    requires p.next == |log| + 1 && p.historyFrom >= 1 && forall k :: 0 <= k < |hs| ==> hs[k].epoch != p.epoch
    ensures ServeAll(p, log, hs) == (p, [])
    decreases |hs|
  {
    if hs != [] {
      ForeignServed(p, log, hs[1..]);
      var none: seq<Packet> := [];
      assert none + none == none;
    }
  }

  lemma ForeignStep(sys: System, step: Step, e: nat)
    requires Guarded(sys) && WellFormed(sys) && Can(sys, step) && e in sys.primaries
    requires !(step.Restart? && step.e == e) && ForeignTo(e, step)
    ensures var sys' := Do(sys, step);
      && e in sys'.primaries && sys'.primaries[e].pub.acked == sys.primaries[e].pub.acked
      && (sys'.primaries[e].released == sys.primaries[e].released
           || sys'.primaries[e].released <= sys.primaries[e].pub.acked)
  {
    hide Guarded, AsRead, Chunks, ReceiveS;
    if step.Promote? {
      PromotesOnce(sys, step.e, step.ringLog2);
    }
    if step.Service? {
      var P := sys.primaries[step.e];
      HearAllKeeps(P.pub, step.heard);
      if step.e == e {
        ForeignServed(HearAll(P.pub, step.heard), P.journal, step.control);
      }
    }
  }

  /** Acknowledgements of another epoch never release anything: while a primary is served only those, its
      acknowledged mark stands still and it releases nothing beyond it. */
  lemma {:induction false} ForeignNeverReleases(ringLog2: nat, steps: seq<Step>, more: seq<Step>, e: nat)
    requires e in Run(ringLog2, steps).primaries
    requires forall k :: 0 <= k < |more| ==> !(more[k].Restart? && more[k].e == e) && ForeignTo(e, more[k])
    ensures var was, now := Run(ringLog2, steps), Run(ringLog2, steps + more);
      && e in now.primaries && now.primaries[e].pub.acked == was.primaries[e].pub.acked
      && (now.primaries[e].released == was.primaries[e].released
           || now.primaries[e].released <= was.primaries[e].pub.acked)
    decreases |more|
  {
    hide Can, Do, ForeignTo, Guarded;
    if more == [] {
      assert steps + more == steps;
    } else {
      RunBefore(steps, more);
      var init, step := more[..|more| - 1], more[|more| - 1];
      ForeignNeverReleases(ringLog2, steps, init, e);
      RunGuarded(ringLog2, steps + init);
      var sys := Run(ringLog2, steps + init);
      if Can(sys, step) {
        ForeignStep(sys, step, e);
      }
    }
  }

  // ---- from the datagram that fences ----

  /** One of these datagrams is of an epoch past e. */
  ghost predicate HeardNewer(e: nat, heard: seq<Packet>) {
    exists k :: 0 <= k < |heard| && heard[k].epoch > e
  }

  /** Hearing fences if and only if one of the datagrams heard is of a later epoch; the latest is recorded. */
  lemma {:induction false} HearAllIff(p: Pub, hs: seq<Packet>)
    ensures var q := HearAll(p, hs);
      && q == p.(fencedBy := q.fencedBy) && q.fencedBy >= p.fencedBy
      && (Fenced(q) <==> Fenced(p) || HeardNewer(p.epoch, hs))
      && forall k :: 0 <= k < |hs| && hs[k].epoch > p.epoch ==> q.fencedBy >= hs[k].epoch
    decreases |hs|
  {
    if hs != [] {
      var p1 := HearP(p, hs[0]);
      HearIff(p, hs[0]);
      HearAllIff(p1, hs[1..]);
      forall k | 0 <= k < |hs| && hs[k].epoch > p.epoch
        ensures HearAll(p, hs).fencedBy >= hs[k].epoch && HeardNewer(p.epoch, hs)
      {
        assert k > 0 ==> hs[1..][k - 1] == hs[k];
      }
      if HeardNewer(p1.epoch, hs[1..]) {
        var k :| 0 <= k < |hs[1..]| && hs[1..][k].epoch > p1.epoch;
        assert hs[k + 1].epoch > p.epoch;
      }
    }
  }

  /** In every run: a primary that services its sockets ends fenced if and only if it was, or one of the datagrams
      it heard on the group is of a later epoch; and fenced, it has halted. */
  lemma ServiceFencesIff(ringLog2: nat, steps: seq<Step>, e: nat, heard: seq<Packet>, control: seq<Packet>)
    requires Can(Run(ringLog2, steps), Service(e, heard, control))
    ensures var was, now := Run(ringLog2, steps), Run(ringLog2, steps + [Service(e, heard, control)]);
      && e in was.primaries && e in now.primaries
      && (Fenced(now.primaries[e].pub) <==> Fenced(was.primaries[e].pub) || HeardNewer(e, heard))
      && (Fenced(now.primaries[e].pub) ==> now.primaries[e].halted)
      && now.primaries[e].released == was.primaries[e].released
  {
    var sys, step := Run(ringLog2, steps), Service(e, heard, control);
    assert (steps + [step])[..|steps|] == steps;
    RunGuarded(ringLog2, steps);
    RunGuarded(ringLog2, steps + [step]);
    GuardedFacts(sys, e);
    var P := sys.primaries[e];
    HearAllIff(P.pub, heard);
    ServeAllKeeps(HearAll(P.pub, heard), P.journal, control);
    ServiceIs(sys, e, heard, control);
    hide Guarded, Can, Do, ServeAll, HearAll;
    assert Run(ringLog2, steps + [step]) == Do(sys, step);
    GuardedFacts(Run(ringLog2, steps + [step]), e);
  }

  lemma ServiceIs(sys: System, e: nat, heard: seq<Packet>, control: seq<Packet>)
    requires WellFormed(sys) && Can(sys, Service(e, heard, control))
    ensures var P, now := sys.primaries[e], Do(sys, Service(e, heard, control));
      && P.pub.next == |P.journal| + 1 && HearAll(P.pub, heard).next == P.pub.next
      && HearAll(P.pub, heard).historyFrom == P.pub.historyFrom >= 1
      && e in now.primaries && now.primaries[e].released == P.released
      && now.primaries[e].pub == ServeAll(HearAll(P.pub, heard), P.journal, control).0
  {
    hide ServeAll;
    HearAllKeeps(sys.primaries[e].pub, heard);
  }

  /** In every run: from the moment a primary services a datagram of a later epoch, nothing it has not yet
      released is ever released, however the run goes on, until its process is replaced. */
  lemma HeardNeverReleases(ringLog2: nat, steps: seq<Step>, more: seq<Step>, e: nat, heard: seq<Packet>,
                           control: seq<Packet>)
    requires Can(Run(ringLog2, steps), Service(e, heard, control)) && HeardNewer(e, heard)
    requires forall k :: 0 <= k < |more| ==> !(more[k].Restart? && more[k].e == e)
    ensures var was, now := Run(ringLog2, steps), Run(ringLog2, steps + [Service(e, heard, control)] + more);
      && e in was.primaries && e in now.primaries && now.primaries[e].released == was.primaries[e].released
      && Fenced(now.primaries[e].pub) && now.primaries[e].halted
  {
    var served := steps + [Service(e, heard, control)];
    ServiceFencesIff(ringLog2, steps, e, heard, control);
    FencedNeverReleases(ringLog2, served, more, e);
    RunGuarded(ringLog2, served + more);
    hide Run, Guarded;
    GuardedFacts(Run(ringLog2, served + more), e);
  }

  // ---- a backup that must not promote itself ----

  /** The subscriber has been told its gap is out of reach, or has heard a newer primary. */
  predicate Barred(s: Sub) {
    s.unavailable || s.supersededBy != 0
  }

  /** What a subscriber that follows `epoch` (0: none yet) takes as either. */
  predicate Bars(epoch: nat, p: Packet) {
    && !p.Ack? && !p.Retransmit? && p.epoch >= 1
    && ((epoch != 0 && p.epoch > epoch) || (p.Unavailable? && (epoch == 0 || p.epoch == epoch)))
  }

  lemma DrainKeepsBarred(s: Sub)
    ensures DrainS(s).0.unavailable == s.unavailable && DrainS(s).0.supersededBy == s.supersededBy
    decreases |s.stash|
  {
    if s.stash != map[] && Least(s.stash.Keys) <= s.expected {
      var k: nat := Least(s.stash.Keys);
      LessStash(s.stash, k);
      var s1 := s.(stash := s.stash - {k});
      if k + |s.stash[k]| > s.expected {
        DrainKeepsBarred(DeliverS(s1, k, s.stash[k]).0);
      } else {
        DrainKeepsBarred(s1);
      }
    }
  }

  /** A subscriber becomes barred exactly by such a datagram, and stays so. */
  lemma BarredIff(s: Sub, p: Packet)
    requires s.minEpoch == 1 && (s.epoch == 0 || s.epoch >= 1)
    ensures Barred(ReceiveS(s, p).0) <==> Barred(s) || Bars(s.epoch, p)
    ensures ReceiveS(s, p).0.minEpoch == 1
  {
    hide DrainS;
    ReceiveEpoch(s, p);
    if p.Data? && p.first <= s.expected < p.first + |p.cmds| {
      DrainKeepsBarred(DeliverS(if s.epoch == 0 then s.(epoch := p.epoch) else s, p.first, p.cmds).0);
    }
  }

  ghost predicate MinOne(sys: System) {
    forall e :: e in sys.backups ==> sys.backups[e].sub.minEpoch == 1
  }

  lemma StepMinOne(sys: System, step: Step)
    requires WellFormed(sys) && MinOne(sys) && Can(sys, step)
    ensures MinOne(Do(sys, step))
  {
    hide AsRead, Chunks, ReceiveS, ServeAll, HearAll, GapS;
    if step.Deliver? {
      ReceiveEpoch(sys.backups[step.e].sub, step.p);
    }
  }

  lemma {:induction false} RunMinOne(ringLog2: nat, steps: seq<Step>)
    ensures MinOne(Run(ringLog2, steps))
    decreases |steps|
  {
    hide Can, Do;
    if steps != [] {
      var before, step := steps[..|steps| - 1], steps[|steps| - 1];
      RunMinOne(ringLog2, before);
      if Can(Run(ringLog2, before), step) {
        StepMinOne(Run(ringLog2, before), step);
      }
    }
  }

  /** A barred backup that is not promoted stays so, whoever steps. */
  lemma StaysBarred(sys: System, step: Step, e: nat)
    requires WellFormed(sys) && MinOne(sys) && Can(sys, step)
    requires e in sys.backups && Barred(sys.backups[e].sub) && !sys.backups[e].promoted
    ensures var now := Do(sys, step);
      e in now.backups && Barred(now.backups[e].sub) && !now.backups[e].promoted
  {
    hide AsRead, Chunks, ReceiveS, ServeAll, HearAll, GapS;
    if step.Deliver? {
      BarredIff(sys.backups[step.e].sub, step.p);
    }
  }

  /** In every run: a backup that is delivered word that its gap is out of reach, or a datagram of a newer primary,
      never promotes itself, however the run goes on. */
  lemma {:induction false} BarredNeverPromotes(ringLog2: nat, steps: seq<Step>, p: Packet, more: seq<Step>, e: nat,
                                               r: nat)
    requires Can(Run(ringLog2, steps), Deliver(e, p)) && Bars(Run(ringLog2, steps).backups[e].sub.epoch, p)
    ensures var now := Run(ringLog2, steps + [Deliver(e, p)] + more);
      && e in now.backups && Barred(now.backups[e].sub) && !now.backups[e].promoted
      && !Can(now, Promote(e, r))
    decreases |more|
  {
    hide Run, Can, Do, Barred, Bars;
    var told := steps + [Deliver(e, p)];
    if more == [] {
      assert told + more == told;
      RunMore(ringLog2, steps, Deliver(e, p));
      RunMinOne(ringLog2, steps);
      BarredNow(Run(ringLog2, steps), e, p);
    } else {
      var init, step := more[..|more| - 1], more[|more| - 1];
      assert told + more == told + init + [step];
      BarredNeverPromotes(ringLog2, steps, p, init, e, r);
      RunMinOne(ringLog2, told + init);
      RunMore(ringLog2, told + init, step);
      if Can(Run(ringLog2, told + init), step) {
        StaysBarred(Run(ringLog2, told + init), step, e);
      }
    }
    BarredCannot(Run(ringLog2, told + more), e, r);
  }

  lemma RunMore(ringLog2: nat, steps: seq<Step>, step: Step)
    ensures var sys := Run(ringLog2, steps);
      WellFormed(sys) && Run(ringLog2, steps + [step]) == if Can(sys, step) then Do(sys, step) else sys
  {
    hide Can, Do;
    assert (steps + [step])[..|steps|] == steps;
  }

  lemma BarredNow(sys: System, e: nat, p: Packet)
    requires WellFormed(sys) && MinOne(sys) && Can(sys, Deliver(e, p)) && Bars(sys.backups[e].sub.epoch, p)
    ensures var now := Do(sys, Deliver(e, p));
      e in now.backups && Barred(now.backups[e].sub) && !now.backups[e].promoted
  {
    hide ReceiveS;
    BarredIff(sys.backups[e].sub, p);
  }

  lemma BarredCannot(sys: System, e: nat, r: nat)
    ensures e in sys.backups && Barred(sys.backups[e].sub) ==> !Can(sys, Promote(e, r))
  {
  }

  // ---- a backup that hears its primary's number ----

  /** Backup e has its primary's whole journal, or is about to ask for what follows the last command it has. */
  ghost predicate HasAllOrAsks(sys: System, e: nat) {
    && e in sys.primaries && e in sys.backups
    && var b := sys.backups[e];
       || b.journal == sys.primaries[e].journal
       || (Can(sys, Ask(e)) && GapS(b.sub).value.Retransmit? && GapS(b.sub).value.epoch == e
           && GapS(b.sub).value.first == |b.journal| + 1)
  }

  /** In every run whose batches fit the ring: an idle primary's heartbeat, delivered to its backup, finds it with the
      whole journal, or asking for what follows the last command it has. */
  lemma HeartbeatFindsOut(ringLog2: nat, steps: seq<Step>, e: nat)
    requires Fitting(ringLog2, steps) && Can(Run(ringLog2, steps), Beat(e))
    requires !Fenced(Run(ringLog2, steps).primaries[e].pub)
    requires e in Run(ringLog2, steps).backups && Alive(Run(ringLog2, steps).backups[e])
    ensures var P := Run(ringLog2, steps).primaries[e];
      var p := Heartbeat(e, |P.journal| + 1);
      var now := Run(ringLog2, steps + [Beat(e)] + [Deliver(e, p)]);
      e in now.primaries && now.primaries[e].journal == P.journal && HasAllOrAsks(now, e)
  {
    var sys := Run(ringLog2, steps);
    RunOk(ringLog2, steps);
    RunMinOne(ringLog2, steps);
    var beat, p := steps + [Beat(e)], Heartbeat(e, |sys.primaries[e].journal| + 1);
    assert beat[..|steps|] == steps && (beat + [Deliver(e, p)])[..|beat|] == beat;
    hide Inv, Fitting, Can, Do;
    StepWell(sys, Beat(e));
    FindsOut(sys, e);
  }

  lemma FindsOut(sys: System, e: nat)
    requires Inv(sys) && WellFormed(sys) && MinOne(sys) && Can(sys, Beat(e)) && !Fenced(sys.primaries[e].pub)
    requires e in sys.backups && Alive(sys.backups[e])
    ensures var P, beaten := sys.primaries[e], Do(sys, Beat(e));
      var p := Heartbeat(e, |P.journal| + 1);
      && WellFormed(beaten) && Can(beaten, Deliver(e, p))
      && var now := Do(beaten, Deliver(e, p));
         e in now.primaries && now.primaries[e].journal == P.journal && HasAllOrAsks(now, e)
  {
    hide Do, ReceiveS;
    var P, b, beaten := sys.primaries[e], sys.backups[e], Do(sys, Beat(e));
    var p := Heartbeat(e, |P.journal| + 1);
    StepWell(sys, Beat(e));
    PrimaryFacts(sys, e);
    BeatTells(sys, e);
    DeliverTells(beaten, e, p);
    hide Inv;
    IdleFlushed(sys, e);
    HeartbeatKeeps(b.sub, p);
    HeardIsAskedFor(b.sub, p, P.journal, P.flushed);
    var s := ReceiveS(b.sub, p).0;
    if GapS(s).Some? {
      AsksOwn(s);
    }
    hide GapS, SubOk;
    assert b.journal + [] == b.journal;
    assert P.journal[..|P.journal|] == P.journal;
  }

  lemma AsksOwn(s: Sub)
    requires GapS(s).Some?
    ensures GapS(s).value.Retransmit? && GapS(s).value.epoch == s.epoch
  {
    hide Least;
  }

  /** A primary that may send a heartbeat has flushed all it has numbered. */
  lemma IdleFlushed(sys: System, e: nat)
    requires e in sys.primaries && PrimaryOk(e, sys.primaries[e], Held(sys, e)) && Can(sys, Beat(e))
    ensures sys.primaries[e].flushed == |sys.primaries[e].journal|
  {
  }

  lemma BeatTells(sys: System, e: nat)
    requires WellFormed(sys) && Can(sys, Beat(e)) && !Fenced(sys.primaries[e].pub)
    ensures var now, P := Do(sys, Beat(e)), sys.primaries[e];
      && Heartbeat(e, |P.journal| + 1) in now.net && now.backups == sys.backups
      && e in now.primaries && now.primaries[e].journal == P.journal
  {
    hide AsRead, Chunks;
    var (P', sent) := FlushP(sys.primaries[e], [Heartbeat(e, sys.primaries[e].pub.next)]);
    assert sent[|sent| - 1] == Heartbeat(e, sys.primaries[e].pub.next);
  }

  lemma DeliverTells(sys: System, e: nat, p: Packet)
    requires WellFormed(sys) && e in sys.backups && Alive(sys.backups[e]) && p in sys.net && p.epoch == e
    ensures Can(sys, Deliver(e, p))
    ensures var now := Do(sys, Deliver(e, p));
      && now.primaries == sys.primaries && e in now.backups && Alive(now.backups[e])
      && now.backups[e].sub == ReceiveS(sys.backups[e].sub, p).0
      && now.backups[e].journal == sys.backups[e].journal + ReceiveS(sys.backups[e].sub, p).1
  {
    hide ReceiveS;
  }

  lemma HeartbeatKeeps(s: Sub, p: Packet)
    requires p.Heartbeat?
    ensures ReceiveS(s, p).1 == [] && ReceiveS(s, p).0.expected == s.expected
  {
  }

  /** In every run whose batches fit the ring: the end a primary announces, delivered to its backup, ends it if and only
      if it has the whole journal; and ended, it does not promote itself. */
  lemma EndFindsOut(ringLog2: nat, steps: seq<Step>, e: nat, r: nat)
    requires Fitting(ringLog2, steps) && Can(Run(ringLog2, steps), Step.Close(e))
    requires !Fenced(Run(ringLog2, steps).primaries[e].pub)
    requires e in Run(ringLog2, steps).backups && Alive(Run(ringLog2, steps).backups[e])
    ensures var P := Run(ringLog2, steps).primaries[e];
      var now := Run(ringLog2, steps + [Step.Close(e)] + [Deliver(e, End(e, |P.journal| + 1))]);
      && e in now.backups && (EndedS(now.backups[e].sub) <==> now.backups[e].journal == P.journal)
      && (EndedS(now.backups[e].sub) ==> !Can(now, Promote(e, r)))
  {
    var sys := Run(ringLog2, steps);
    RunOk(ringLog2, steps);
    RunMinOne(ringLog2, steps);
    var done, p := steps + [Step.Close(e)], End(e, |sys.primaries[e].journal| + 1);
    assert done[..|steps|] == steps && (done + [Deliver(e, p)])[..|done|] == done;
    hide Inv, Fitting, Do, Can;
    StepWell(sys, Step.Close(e));
    EndsThere(sys, e);
    EndedCannot(Run(ringLog2, done + [Deliver(e, p)]), e, r);
  }

  lemma EndedCannot(sys: System, e: nat, r: nat)
    ensures e in sys.backups && EndedS(sys.backups[e].sub) ==> !Can(sys, Promote(e, r))
  {
  }

  lemma EndsThere(sys: System, e: nat)
    requires Inv(sys) && WellFormed(sys) && MinOne(sys) && Can(sys, Step.Close(e)) && !Fenced(sys.primaries[e].pub)
    requires e in sys.backups && Alive(sys.backups[e])
    ensures var P, closed := sys.primaries[e], Do(sys, Step.Close(e));
      var p := End(e, |P.journal| + 1);
      && WellFormed(closed) && Can(closed, Deliver(e, p))
      && var now := Do(closed, Deliver(e, p));
         e in now.backups && (EndedS(now.backups[e].sub) <==> now.backups[e].journal == P.journal)
  {
    hide Do, ReceiveS;
    var P, b, closed := sys.primaries[e], sys.backups[e], Do(sys, Step.Close(e));
    var p := End(e, |P.journal| + 1);
    StepWell(sys, Step.Close(e));
    PrimaryFacts(sys, e);
    CloseTells(sys, e);
    DeliverTells(closed, e, p);
    hide Inv;
    EndKeeps(b.sub, p);
    hide SubOk;
    assert b.journal + [] == b.journal;
    assert P.journal[..|P.journal|] == P.journal;
  }

  lemma CloseTells(sys: System, e: nat)
    requires WellFormed(sys) && Can(sys, Step.Close(e)) && !Fenced(sys.primaries[e].pub)
    ensures var now, P := Do(sys, Step.Close(e)), sys.primaries[e];
      End(e, |P.journal| + 1) in now.net && now.backups == sys.backups
  {
    hide AsRead, Chunks;
    var P := sys.primaries[e];
    var (P', sent) := FlushP(P.(flushed := |P.journal|), Repeat(End(e, P.pub.next), 3));
    assert Repeat(End(e, P.pub.next), 3)[2] == End(e, P.pub.next);
    assert sent[|sent| - 1] == End(e, P.pub.next);
  }

  lemma EndKeeps(s: Sub, p: Packet)
    requires p.End? && p.epoch >= s.minEpoch && p.epoch != 0 && (p.epoch == s.epoch || s.epoch == 0)
    ensures var (t, out) := ReceiveS(s, p);
      out == [] && t.expected == s.expected && t.ended && t.endSeq == p.next
  {
  }
}
