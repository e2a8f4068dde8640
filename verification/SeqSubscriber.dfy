/** The replica's end of the stream: delivers every command exactly once, in order, whatever the network
    loses, repeats or reorders. */
module SeqSubscribers {
  import opened Types
  import opened SeqStreams

  /** The subscriber's fields. Epoch 0: no primary heard yet. The stash holds what arrived early. */
  datatype Sub = Sub(
    minEpoch: nat, epoch: nat, supersededBy: nat, expected: nat, knownNext: nat, endSeq: nat,
    ended: bool, unavailable: bool, stash: map<nat, seq<Command>>)

  function NewSub(first: nat): Sub {
    Sub(1, 0, 0, first, 0, 0, false, false, map[])
  }

  function Least(keys: set<nat>): (k: nat)
    requires keys != {}
    ensures k in keys && forall j :: j in keys ==> k <= j
  {
    LeastExists(keys);
    ghost var l :| IsLeast(keys, l);
    var k :| k in keys && forall j :: j in keys ==> k <= j;
    k
  }

  ghost predicate IsLeast(keys: set<nat>, k: nat) {
    k in keys && forall j :: j in keys ==> k <= j
  }

  lemma {:induction false} LeastExists(keys: set<nat>)
    requires keys != {}
    ensures exists k :: IsLeast(keys, k)
    decreases |keys|
  {
    var x :| x in keys;
    var rest := keys - {x};
    if rest == {} {
      assert forall j :: j in keys ==> j == x || j in rest;
      assert IsLeast(keys, x);
    } else {
      LeastExists(rest);
      var y :| IsLeast(rest, y);
      assert forall j :: j in keys ==> j == x || j in rest;
      assert IsLeast(keys, if x < y then x else y);
    }
  }

  function Max(a: nat, b: nat): nat {
    if a < b then b else a
  }

  function Min(a: nat, b: nat): nat {
    if a < b then a else b
  }

  /** Delivers what is new of a run of commands that starts at or before the next one expected. */
  function DeliverS(s: Sub, first: nat, cmds: seq<Command>): (Sub, seq<Command>)
    requires first <= s.expected <= first + |cmds|
  {
    (s.(expected := first + |cmds|, knownNext := Max(s.knownNext, first + |cmds|)), cmds[s.expected - first..])
  }

  /** Takes from the stash whatever is no longer early. */
  function DrainS(s: Sub): (Sub, seq<Command>)
    decreases |s.stash|
  {
    if s.stash == map[] || Least(s.stash.Keys) > s.expected then (s, [])
    else
      var k: nat := Least(s.stash.Keys);
      var cmds := s.stash[k];
      var s1 := s.(stash := s.stash - {k});
      LessStash(s.stash, k);
      if k + |cmds| > s.expected then
        var (s2, now) := DeliverS(s1, k, cmds);
        var (s3, later) := DrainS(s2);
        (s3, now + later)
      else DrainS(s1)
  }

  /** One step of the drain. */
  lemma DrainStep(s: Sub)
    ensures s.stash == map[] || Least(s.stash.Keys) > s.expected ==> DrainS(s) == (s, [])
    ensures s.stash != map[] && Least(s.stash.Keys) <= s.expected ==>
      var k: nat := Least(s.stash.Keys);
      var cmds, s1 := s.stash[k], s.(stash := s.stash - {k});
      if k + |cmds| > s.expected then
        var (s2, now) := DeliverS(s1, k, cmds);
        DrainS(s) == (DrainS(s2).0, now + DrainS(s2).1)
      else DrainS(s) == DrainS(s1)
  {
  }

  lemma LessStash(m: map<nat, seq<Command>>, k: nat)
    requires k in m
    ensures |m - {k}| < |m|
  {
    assert (m - {k}).Keys == m.Keys - {k};
    assert |m.Keys| == |m| && |(m - {k}).Keys| == |m - {k}|;
  }

  /** One datagram. */
  function ReceiveS(s: Sub, p: Packet): (Sub, seq<Command>) {
    if p.Ack? || p.Retransmit? || p.epoch < s.minEpoch || (s.epoch != 0 && p.epoch < s.epoch) then (s, [])
    else
      var s1 := if s.epoch == 0 then s.(epoch := p.epoch) else s;
      if p.epoch > s1.epoch then (s1.(supersededBy := Max(s1.supersededBy, p.epoch)), [])
      else match p
        case Data(_, first, cmds) =>
          if first + |cmds| <= s1.expected then (s1, [])
          else if first > s1.expected then
            (if first in s1.stash then s1 else s1.(stash := s1.stash[first := cmds]), [])
          else
            var (s2, now) := DeliverS(s1, first, cmds);
            var (s3, later) := DrainS(s2);
            (s3, now + later)
        case Heartbeat(_, next) => (s1.(knownNext := Max(s1.knownNext, next)), [])
        case End(_, next) => (s1.(ended := true, endSeq := next, knownNext := Max(s1.knownNext, next)), [])
        case Unavailable(_, _) => (s1.(unavailable := true), [])
        case _ => (s1, [])
  }

  /** The gap to ask for, if something newer is known to exist. */
  function GapS(s: Sub): Option<Packet> {
    var end := if s.stash == map[] then s.knownNext else Least(s.stash.Keys);
    if end <= s.expected || s.epoch == 0 then None
    else Some(Retransmit(s.epoch, s.expected, Min(end - s.expected, MAX_REQUEST)))
  }

  function EndedS(s: Sub): bool {
    s.ended && s.expected >= s.endSeq
  }

  // ---- what it delivers ----

  lemma SliceJoin(log: Log, a: nat, b: nat, c: nat)
    requires 1 <= a <= b <= c <= |log| + 1
    ensures Slice(log, a, b) + Slice(log, b, c) == Slice(log, a, c)
    ensures Slice(log, a, a) == []
  {
  }

  /** A faithful run delivers the log's own next stretch. */
  lemma DeliverSlice(s: Sub, first: nat, cmds: seq<Command>, log: Log, bound: nat)
    requires bound <= |log| && Faithful(log, bound, Data(s.epoch, first, cmds)) && first <= s.expected <= first + |cmds|
    ensures first + |cmds| <= |log| + 1 && DeliverS(s, first, cmds).1 == Slice(log, s.expected, first + |cmds|)
  {
  }

  /** All the subscriber holds or believes is the log's, up to `bound`. */
  ghost predicate SubOk(s: Sub, log: Log, bound: nat)
    requires bound <= |log|
  {
    && 1 <= s.expected <= bound + 1 && s.knownNext <= bound + 1
    && (forall k: nat :: k in s.stash ==> k > s.expected && Faithful(log, bound, Data(s.epoch, k, s.stash[k])))
    && (s.ended ==> s.endSeq <= bound + 1)
  }

  /** As SubOk, but the stash may hold what is no longer early. */
  ghost predicate DrainOk(s: Sub, log: Log, bound: nat)
    requires bound <= |log|
  {
    && 1 <= s.expected <= bound + 1 && s.knownNext <= bound + 1
    && (forall k: nat :: k in s.stash ==> Faithful(log, bound, Data(s.epoch, k, s.stash[k])))
    && (s.ended ==> s.endSeq <= bound + 1)
  }

  lemma StashLess(s: Sub, k: nat, log: Log, bound: nat)
    requires bound <= |log| && DrainOk(s, log, bound) && k in s.stash
    ensures DrainOk(s.(stash := s.stash - {k}), log, bound)
    ensures Faithful(log, bound, Data(s.epoch, k, s.stash[k])) && k + |s.stash[k]| <= bound + 1
  {
  }

  lemma DrainDone(s: Sub, log: Log, bound: nat)
    requires bound <= |log| && DrainOk(s, log, bound)
    requires s.stash == map[] || Least(s.stash.Keys) > s.expected
    ensures SubOk(s, log, bound)
  {
    hide Faithful;
  }

  lemma {:induction false} DrainDelivers(s: Sub, log: Log, bound: nat)
    requires bound <= |log| && DrainOk(s, log, bound)
    ensures var (t, out) := DrainS(s);
      && SubOk(t, log, bound) && t.expected >= s.expected && out == Slice(log, s.expected, t.expected)
      && t == s.(expected := t.expected, knownNext := t.knownNext, stash := t.stash)
    decreases |s.stash|
  {
    hide Slice, DrainS, Faithful;
    SliceJoin(log, s.expected, s.expected, s.expected);
    DrainStep(s);
    if s.stash == map[] || Least(s.stash.Keys) > s.expected {
      DrainDone(s, log, bound);
    } else {
      var k: nat := Least(s.stash.Keys);
      var s1 := s.(stash := s.stash - {k});
      LessStash(s.stash, k);
      StashLess(s, k, log, bound);
      hide Least;
      if k + |s.stash[k]| > s.expected {
        DeliverSlice(s1, k, s.stash[k], log, bound);
        var s2 := DeliverS(s1, k, s.stash[k]).0;
        DrainDelivers(s2, log, bound);
        SliceJoin(log, s.expected, s2.expected, DrainS(s2).0.expected);
      } else {
        DrainDelivers(s1, log, bound);
      }
    }
  }

  /** The core guarantee: from a faithful datagram, exactly the next stretch of the log is delivered,
      nothing twice, nothing missing, nothing out of order. */
  lemma ReceiveDelivers(s: Sub, p: Packet, log: Log, bound: nat)
    requires bound <= |log| && SubOk(s, log, bound)
    requires p.epoch == s.epoch || s.epoch == 0 ==> Faithful(log, bound, p)
    ensures var (t, out) := ReceiveS(s, p);
      SubOk(t, log, bound) && t.expected >= s.expected && out == Slice(log, s.expected, t.expected)
  {
    hide Slice, DrainS, Least;
    SliceJoin(log, s.expected, s.expected, s.expected);
    var s1 := if s.epoch == 0 then s.(epoch := p.epoch) else s;
    if p.Data? && p.epoch == s1.epoch && p.epoch >= s.minEpoch && p.first <= s.expected < p.first + |p.cmds| {
      LockedOk(s, p, log, bound);
      DeliverSlice(s1, p.first, p.cmds, log, bound);
      var s2 := DeliverS(s1, p.first, p.cmds).0;
      DrainDelivers(s2, log, bound);
      SliceJoin(log, s.expected, s2.expected, DrainS(s2).0.expected);
    }
  }

  lemma LockedOk(s: Sub, p: Packet, log: Log, bound: nat)
    requires bound <= |log| && SubOk(s, log, bound)
    ensures SubOk(if s.epoch == 0 then s.(epoch := p.epoch) else s, log, bound)
  {
    forall k: nat | k in s.stash ensures Faithful(log, bound, Data(p.epoch, k, s.stash[k])) {
      assert Faithful(log, bound, Data(s.epoch, k, s.stash[k]));
    }
  }

  /** More of the log, more of it sent: nothing held becomes wrong. */
  lemma SubGrows(s: Sub, log: Log, bound: nat, log': Log, bound': nat)
    requires bound <= |log| && bound <= bound' <= |log'| && SubOk(s, log, bound)
    requires log'[..bound] == log[..bound]
    ensures SubOk(s, log', bound')
  {
    forall k: nat | k in s.stash ensures Faithful(log', bound', Data(s.epoch, k, s.stash[k])) {
      FaithfulGrows(Data(s.epoch, k, s.stash[k]), log, bound, log', bound');
    }
  }

  lemma FaithfulGrows(p: Packet, log: Log, bound: nat, log': Log, bound': nat)
    requires bound <= |log| && bound <= bound' <= |log'| && Faithful(log, bound, p)
    requires log'[..bound] == log[..bound]
    ensures Faithful(log', bound', p)
  {
    if p.Data? {
      assert forall k :: 0 <= k < |p.cmds| ==>
          p.cmds[k] == log[..bound][p.first - 1 + k] == log'[..bound][p.first - 1 + k];
    }
  }

  /** It never asks past what it has heard of. */
  lemma GapWithin(s: Sub, log: Log, bound: nat)
    requires bound <= |log| && SubOk(s, log, bound) && GapS(s).Some?
    ensures Faithful(log, bound, GapS(s).value) && GapS(s).value.Retransmit? && GapS(s).value.epoch == s.epoch
    ensures GapS(s).value.first == s.expected && 0 < GapS(s).value.count <= 4096
  {
    if s.stash != map[] {
      assert Least(s.stash.Keys) in s.stash;
    }
  }

  /** Every number below this exists, as far as p says. */
  function Announces(p: Packet): nat {
    match p
    case Data(_, first, cmds) => first + |cmds|
    case Heartbeat(_, next) => next
    case End(_, next) => next
    case _ => 0
  }

  /** Once a subscriber has heard that a number exists, it has it or asks for the gap before it. */
  lemma HeardIsAskedFor(s: Sub, p: Packet, log: Log, bound: nat)
    requires bound <= |log| && SubOk(s, log, bound) && p.epoch >= s.minEpoch && p.epoch != 0
    requires (p.epoch == s.epoch || s.epoch == 0) && Faithful(log, bound, p)
    ensures var t := ReceiveS(s, p).0;
      && (!p.Ack? && !p.Retransmit? ==> t.epoch == p.epoch)
      && (t.expected >= Announces(p)
          || (GapS(t).Some? && GapS(t).value.Retransmit? && GapS(t).value.first == t.expected
              && GapS(t).value.count > 0))
  {
    hide DrainS, Faithful;
    ReceiveDelivers(s, p, log, bound);
    var s1 := if s.epoch == 0 then s.(epoch := p.epoch) else s;
    var t := ReceiveS(s, p).0;
    if p.Data? && p.first <= s.expected < p.first + |p.cmds| {
      LockedOk(s, p, log, bound);
      DrainOn(DeliverS(s1, p.first, p.cmds).0);
    } else {
      assert t.stash != map[] ==> Least(t.stash.Keys) in t.stash;
      assert p.Data? && t.expected < p.first + |p.cmds| ==> p.first in t.stash;
    }
  }

  /** The drain never goes back, and forgets nothing it knew to exist. */
  lemma DrainOn(s: Sub)
    ensures var t := DrainS(s).0;
      t.expected >= s.expected && t.knownNext >= s.knownNext && t.epoch == s.epoch && t.minEpoch == s.minEpoch
    decreases |s.stash|
  {
    if s.stash != map[] && Least(s.stash.Keys) <= s.expected {
      var k: nat := Least(s.stash.Keys);
      LessStash(s.stash, k);
      var s1 := s.(stash := s.stash - {k});
      if k + |s.stash[k]| > s.expected {
        DrainOn(DeliverS(s1, k, s.stash[k]).0);
      } else {
        DrainOn(s1);
      }
    }
  }

  // ---- recovery ----

  function ReceiveAll(s: Sub, ps: seq<Packet>): (Sub, seq<Command>)
    decreases |ps|
  {
    if ps == [] then (s, [])
    else
      var (s1, now) := ReceiveS(s, ps[0]);
      var (s2, later) := ReceiveAll(s1, ps[1..]);
      (s2, now + later)
  }

  /** The answer to a gap request, delivered, takes the subscriber to the end of the range. */
  lemma {:induction false} ChunksDeliver(s: Sub, log: Log, bound: nat, from: nat, end: nat)
    requires bound <= |log| && SubOk(s, log, bound) && s.epoch >= s.minEpoch && s.epoch != 0
    requires 1 <= from <= s.expected && end <= bound + 1
    ensures var (t, out) := ReceiveAll(s, Chunks(s.epoch, log, from, end));
      && 1 <= s.expected && SubOk(t, log, bound) && t.expected >= s.expected && t.expected >= end && t.epoch == s.epoch
      && out == Slice(log, s.expected, t.expected)
    decreases end - from
  {
    hide Slice, SubOk, ReceiveS, Faithful;
    if from >= end {
      SubRange(s, log, bound);
      SliceJoin(log, s.expected, s.expected, s.expected);
    } else {
      var n := Min(end - from, PER_PACKET);
      var p := Data(s.epoch, from, Slice(log, from, from + n));
      var rest := Chunks(s.epoch, log, from + n, end);
      ChunkFaithful(s.epoch, log, from, from + n, bound);
      ReceiveDelivers(s, p, log, bound);
      var s1 := ReceiveS(s, p).0;
      ReceiveKeeps(s, p, log, bound);
      ChunksDeliver(s1, log, bound, from + n, end);
      var t := ReceiveAll(s1, rest).0;
      assert ([p] + rest)[1..] == rest;
      SubRange(s, log, bound);
      SubRange(t, log, bound);
      SliceJoin(log, s.expected, s1.expected, t.expected);
    }
  }

  lemma SubRange(s: Sub, log: Log, bound: nat)
    requires bound <= |log| && SubOk(s, log, bound)
    ensures 1 <= s.expected <= bound + 1
  {
  }

  lemma ChunkFaithful(epoch: nat, log: Log, from: nat, end: nat, bound: nat)
    requires 1 <= from < end <= bound + 1 && bound <= |log|
    ensures Faithful(log, bound, Data(epoch, from, Slice(log, from, end)))
    ensures |Slice(log, from, end)| == end - from
  {
  }

  lemma ReceiveKeeps(s: Sub, p: Packet, log: Log, bound: nat)
    requires bound <= |log| && SubOk(s, log, bound) && p.epoch == s.epoch && s.epoch >= s.minEpoch && s.epoch != 0
    requires p.Data? && Faithful(log, bound, p) && p.first <= s.expected
    ensures var t := ReceiveS(s, p).0;
      t.epoch == s.epoch && t.minEpoch == s.minEpoch && t.expected >= p.first + |p.cmds|
  {
    if p.first + |p.cmds| > s.expected {
      DrainDelivers(DeliverS(s, p.first, p.cmds).0, log, bound);
    }
  }

  lemma GapBound(s: Sub, log: Log, bound: nat)
    requires bound <= |log| && SubOk(s, log, bound) && GapS(s).Some?
    ensures GapS(s).value.Retransmit? && s.expected >= 1 && s.expected + GapS(s).value.count <= bound + 1
    ensures s.epoch != 0
  {
    GapWithin(s, log, bound);
  }

  /** Every answered request makes progress: the publisher either says it no longer holds the range, or
      its answer, delivered, closes the requested gap. */
  lemma GapAnswered(s: Sub, p: Pub, log: Log, bound: nat)
    requires bound <= |log| && SubOk(s, log, bound) && s.epoch >= s.minEpoch
    requires p.next == |log| + 1 && p.historyFrom >= 1 && p.epoch == s.epoch && !Fenced(p)
    requires GapS(s).Some?
    ensures var r := GapS(s).value;
      var (q, replies) := ServeP(p, log, r);
      && q == p
      && if s.expected < Oldest(p) then replies == [Unavailable(p.epoch, Oldest(p))]
         else
           var (t, out) := ReceiveAll(s, replies);
           && t.expected >= s.expected + r.count > s.expected && t.expected <= |log| + 1
           && s.expected >= 1 && out == Slice(log, s.expected, t.expected)
  {
    hide SubOk, Slice, Faithful, ReceiveAll;
    GapWithin(s, log, bound);
    GapBound(s, log, bound);
    var r := GapS(s).value;
    if s.expected >= Oldest(p) {
      ChunksDeliver(s, log, bound, s.expected, s.expected + r.count);
      SubRange(ReceiveAll(s, ServeP(p, log, r).1).0, log, bound);
    }
  }

  // ---- in place ----

  class Subscriber {
    const minEpoch: nat
    var epoch: nat
    var supersededBy: nat
    var expected: nat
    var knownNext: nat
    var endSeq: nat
    var ended: bool
    var unavailable: bool
    var stash: map<nat, seq<Command>>

    ghost function State(): Sub
      reads this
    {
      Sub(minEpoch, epoch, supersededBy, expected, knownNext, endSeq, ended, unavailable, stash)
    }

    constructor (firstSeq: nat, oldestEpoch: nat := 1)
      ensures State() == NewSub(firstSeq).(minEpoch := oldestEpoch)
    {
      minEpoch, epoch, supersededBy, expected, knownNext := oldestEpoch, 0, 0, firstSeq, 0;
      endSeq, ended, unavailable, stash := 0, false, false, map[];
    }

    method Deliver(first: nat, cmds: seq<Command>) returns (out: seq<Command>)
      requires first <= expected <= first + |cmds|
      modifies this`expected, this`knownNext
      ensures (State(), out) == DeliverS(old(State()), first, cmds)
    {
      out := [];
      var i := expected - first;
      while i < |cmds|
        invariant expected - first <= i <= |cmds| && out == cmds[expected - first..i]
      {
        out := out + [cmds[i]];
        i := i + 1;
      }
      assert cmds[expected - first..] == cmds[expected - first..i];
      expected := first + |cmds|;
      if knownNext < expected {
        knownNext := expected;
      }
    }

    /** Delivers whatever was stashed behind a gap that has closed. */
    method Drain() returns (out: seq<Command>)
      modifies this`expected, this`knownNext, this`stash
      ensures (State(), out) == DrainS(old(State()))
    {
      hide DrainS;
      out := [];
      ghost var goal := DrainS(State());
      assert [] + goal.1 == goal.1;
      while stash != map[] && Least(stash.Keys) <= expected
        invariant goal.0 == DrainS(State()).0 && goal.1 == out + DrainS(State()).1
        decreases |stash|
      {
        DrainStep(State());
        var k: nat := Least(stash.Keys);
        var cmds := stash[k];
        LessStash(stash, k);
        stash := stash - {k};
        if k + |cmds| > expected {
          var now := Deliver(k, cmds);
          ghost var later := DrainS(State()).1;
          assert out + (now + later) == (out + now) + later;
          out := out + now;
        }
      }
      DrainStep(State());
      assert out + [] == out;
    }

    /** One datagram; returns the commands it makes deliverable. */
    method Receive(p: Packet) returns (out: seq<Command>)
      modifies this
      ensures (State(), out) == ReceiveS(old(State()), p)
    {
      out := [];
      if p.Ack? || p.Retransmit? {
        return;
      }
      if p.epoch < minEpoch || (epoch != 0 && p.epoch < epoch) {
        return;
      }
      if epoch == 0 {
        epoch := p.epoch;
      }
      if p.epoch > epoch {
        supersededBy := Max(supersededBy, p.epoch);
        return;
      }
      match p {
        case Data(_, first, cmds) =>
          if first + |cmds| <= expected {
            return;
          }
          if first > expected {
            if first !in stash {
              stash := stash[first := cmds];
            }
            return;
          }
          var now := Deliver(first, cmds);
          var later := Drain();
          out := now + later;
        case Heartbeat(_, next) =>
          knownNext := Max(knownNext, next);
        case End(_, next) =>
          ended, endSeq := true, next;
          knownNext := Max(knownNext, next);
        case Unavailable(_, _) =>
          unavailable := true;
        case _ =>
      }
    }

    /** The gap request to send, unless nothing newer is known. */
    method RequestGap() returns (r: Option<Packet>)
      ensures r == GapS(State())
    {
      var end := if stash == map[] then knownNext else Least(stash.Keys);
      if end <= expected || epoch == 0 {
        return None;
      }
      r := Some(Packet.Retransmit(epoch, expected, Min(end - expected, MAX_REQUEST)));
    }
  }
}
