/** The sequenced command stream: a publisher that numbers, sends and re-sends commands, and a subscriber
    that turns lossy, duplicated and reordered datagrams back into the sequence. Command number n is
    position n - 1 of the publisher's log. */
module SeqStreams {
  import opened Types
  import opened Arithmetic

  /** Commands per datagram. */
  const PER_PACKET := 25
  /** The most a subscriber asks for at once. */
  const MAX_REQUEST := 4096

  datatype Packet =
    | Data(epoch: nat, first: nat, cmds: seq<Command>)
    | Heartbeat(epoch: nat, next: nat)
    | End(epoch: nat, next: nat)
    | Retransmit(epoch: nat, first: nat, count: nat)
    | Ack(epoch: nat, through: nat)
    | Unavailable(epoch: nat, oldest: nat)

  type Log = seq<Command>

  ghost predicate Numbered(log: Log) {
    forall k :: 0 <= k < |log| ==> log[k].seq_ == k + 1
  }

  /** Commands number `from` up to, not including, `end`. */
  function Slice(log: Log, from: nat, end: nat): seq<Command>
    requires 1 <= from <= end <= |log| + 1
  {
    log[from - 1..end - 1]
  }

  /** The datagrams that carry [from, end). */
  function Chunks(epoch: nat, log: Log, from: nat, end: nat): (c: seq<Packet>)
    requires 1 <= from && end <= |log| + 1
    ensures from >= end ==> c == []
    decreases end - from
  {
    if from >= end then []
    else
      var n := if end - from < PER_PACKET then end - from else PER_PACKET;
      [Data(epoch, from, Slice(log, from, from + n))] + Chunks(epoch, log, from + n, end)
  }

  /** One datagram, then the rest. */
  lemma ChunksStep(sent: seq<Packet>, epoch: nat, log: Log, from: nat, end: nat)
    requires 1 <= from < end <= |log| + 1
    ensures var n := if end - from < PER_PACKET then end - from else PER_PACKET;
      sent + Chunks(epoch, log, from, end)
      == (sent + [Data(epoch, from, Slice(log, from, from + n))]) + Chunks(epoch, log, from + n, end)
  {
  }

  /** What a datagram of this epoch may say when `bound` commands of the log have been sent. */
  ghost predicate Faithful(log: Log, bound: nat, p: Packet)
    requires bound <= |log|
  {
    match p
    case Data(_, first, cmds) =>
      first >= 1 && cmds != [] && first - 1 + |cmds| <= bound && cmds == Slice(log, first, first + |cmds|)
    case Heartbeat(_, next) => next <= bound + 1
    case End(_, next) => next <= bound + 1
    case Retransmit(_, first, count) => first + count <= bound + 1
    case Ack(_, through) => through <= bound
    case Unavailable(_, _) => true
  }

  lemma {:induction false} ChunksFaithful(epoch: nat, log: Log, from: nat, end: nat, bound: nat)
    requires 1 <= from && end <= bound + 1 && bound <= |log|
    ensures forall k :: 0 <= k < |Chunks(epoch, log, from, end)| ==>
      Chunks(epoch, log, from, end)[k].Data? && Chunks(epoch, log, from, end)[k].epoch == epoch
      && Faithful(log, bound, Chunks(epoch, log, from, end)[k])
      && 0 < |Chunks(epoch, log, from, end)[k].cmds| <= 25
    decreases end - from
  {
    if from < end {
      var n := if end - from < PER_PACKET then end - from else PER_PACKET;
      ChunksFaithful(epoch, log, from + n, end, bound);
    }
  }

  function Repeat(p: Packet, n: nat): seq<Packet> {
    seq(n, _ => p)
  }

  // ---- the ring ----

  /** The last number below `next` that shares a slot with n. */
  function NewestAt(n: nat, next: nat, size: nat): (m: nat)
    requires size > 0 && n < next
    ensures n <= m < next <= m + size && m % size == n % size
    decreases next - n
  {
    if n + size < next then
      NextLap(n, size);
      NewestAt(n + size, next, size)
    else n
  }

  /** The log as a ring of this size reads it back: each slot holds the last command written to it. */
  function AsRead(log: Log, size: nat): (r: Log)
    requires size > 0
    ensures |r| == |log|
  {
    seq(|log|, i requires 0 <= i < |log| => log[NewestAt(i + 1, |log| + 1, size) - 1])
  }

  /** Reading a command back gives that command exactly when its number is one of the last ring-many. */
  lemma ReadBack(log: Log, size: nat, n: nat)
    requires size > 0 && Numbered(log) && 1 <= n <= |log|
    ensures AsRead(log, size)[n - 1] == log[n - 1] <==> |log| < n + size
  {
    var m := NewestAt(n, |log| + 1, size);
    assert log[m - 1].seq_ == m && log[n - 1].seq_ == n;
  }

  lemma SliceInReach(log: Log, size: nat, from: nat, end: nat)
    requires size > 0 && Numbered(log) && 1 <= from <= end <= |log| + 1 && |log| < from + size
    ensures Slice(AsRead(log, size), from, end) == Slice(log, from, end)
  {
    var a, b := Slice(AsRead(log, size), from, end), Slice(log, from, end);
    forall k | 0 <= k < |a| ensures a[k] == b[k] {
      ReadBack(log, size, from + k);
    }
  }

  /** A range within the ring's reach reads back as the log has it. */
  lemma {:induction false} InReach(epoch: nat, log: Log, size: nat, from: nat, end: nat)
    requires size > 0 && Numbered(log) && 1 <= from && end <= |log| + 1 && |log| < from + size
    ensures Chunks(epoch, AsRead(log, size), from, end) == Chunks(epoch, log, from, end)
    decreases end - from
  {
    if from < end {
      var n := if end - from < PER_PACKET then end - from else PER_PACKET;
      SliceInReach(log, size, from, from + n);
      InReach(epoch, log, size, from + n, end);
    }
  }

  /** A flush carries the log's own commands if and only if the batch fits the ring: a larger one goes out
      under the wrong numbers. */
  lemma FlushExact(epoch: nat, log: Log, size: nat, from: nat)
    requires size > 0 && Numbered(log) && 1 <= from <= |log|
    ensures Chunks(epoch, AsRead(log, size), from, |log| + 1) == Chunks(epoch, log, from, |log| + 1)
      <==> |log| < from + size
  {
    if |log| < from + size {
      InReach(epoch, log, size, from, |log| + 1);
    } else {
      ReadBack(log, size, from);
      FirstCommand(epoch, log, from, |log| + 1);
      FirstCommand(epoch, AsRead(log, size), from, |log| + 1);
    }
  }

  lemma FirstCommand(epoch: nat, log: Log, from: nat, end: nat)
    requires 1 <= from < end <= |log| + 1
    ensures var c := Chunks(epoch, log, from, end);
      && c != [] && c[0].Data? && c[0].epoch == epoch && c[0].first == from
      && c[0].cmds != [] && c[0].cmds[0] == log[from - 1]
  {
  }

  // ---- the publisher ----

  /** The publisher's fields but the ring, whose meaning is the log. */
  datatype Pub = Pub(epoch: nat, fencedBy: nat, next: nat, pending: nat, acked: nat, historyFrom: nat, ringSize: nat)

  /** A publisher that has assigned no number yet. */
  function NewPub(epoch: nat, next: nat, ringSize: nat): Pub {
    Pub(epoch, 0, next, next, if next == 0 then 0 else next - 1, next, ringSize)
  }

  predicate Fenced(p: Pub) {
    p.fencedBy != 0
  }

  /** The oldest number the ring can still serve. */
  function Oldest(p: Pub): nat {
    var inRing := if p.next > p.ringSize then p.next - p.ringSize else 1;
    if inRing > p.historyFrom then inRing else p.historyFrom
  }

  /** A datagram heard on the publisher's own group: a newer epoch means it has been replaced. */
  function HearP(p: Pub, h: Packet): Pub {
    if h.epoch > p.epoch && h.epoch > p.fencedBy then p.(fencedBy := h.epoch) else p
  }

  /** A datagram is recorded if and only if its epoch is past the publisher's own, and one such is enough to fence;
      older ones, and ones no newer than what is recorded, change nothing. */
  lemma HearIff(p: Pub, h: Packet)
    ensures var q := HearP(p, h);
      && q == p.(fencedBy := q.fencedBy) && q.fencedBy >= p.fencedBy
      && (q.fencedBy >= h.epoch <==> h.epoch > p.epoch || p.fencedBy >= h.epoch)
      && (Fenced(q) <==> Fenced(p) || h.epoch > p.epoch)
      && (q != p <==> h.epoch > p.epoch && h.epoch > p.fencedBy)
      && (q != p ==> q.fencedBy == h.epoch)
  {
  }

  /** A datagram on the control socket: an acknowledgement or a request for a gap. */
  function ServeP(p: Pub, log: Log, h: Packet): (Pub, seq<Packet>)
    requires p.next == |log| + 1 && p.historyFrom >= 1
  {
    if h.epoch != p.epoch || Fenced(p) then (p, [])
    else match h
      case Ack(_, through) =>
        (if through > p.acked && through < p.next then p.(acked := through) else p, [])
      case Retransmit(_, first, count) =>
        if first < Oldest(p) then (p, [Unavailable(p.epoch, Oldest(p))])
        else (p, Chunks(p.epoch, log, first, if first + count < p.next then first + count else p.next))
      case _ => (p, [])
  }

  class Publisher {
    const epoch: nat
    const ring: array<Command>
    var fencedBy: nat
    var next: nat
    var pending: nat
    var acked: nat
    var historyFrom: nat
    /** Every command numbered so far. */
    ghost var Log: Log

    function State(): Pub
      reads this
    {
      Pub(epoch, fencedBy, next, pending, acked, historyFrom, ring.Length)
    }

    /** The slots of [from, end) hold those commands. */
    ghost predicate Holds(from: nat, end: nat)
      reads this, ring
    {
      && 1 <= from && end <= |Log| + 1 && ring.Length > 0
      && forall n :: from <= n < end && n + ring.Length >= end ==> ring[n % ring.Length] == Log[n - 1]
    }

    ghost predicate Valid()
      reads this, ring
    {
      && ring.Length > 0 && next == |Log| + 1 && Numbered(Log)
      && 1 <= pending <= next && acked < next && 1 <= historyFrom <= next && historyFrom <= pending
      && Holds(historyFrom, next)
    }

    /** A slot holds the command of a number it was given exactly when the number is one of the last
        ring-many. */
    lemma SlotRight(n: nat)
      requires Valid() && historyFrom <= n < next
      ensures ring[n % ring.Length] == Log[n - 1] <==> next <= n + ring.Length
    {
      SlotHolds(n);
      ReadBack(Log, ring.Length, n);
    }

    /** What a slot holds, however old the number. */
    lemma SlotHolds(n: nat)
      requires Valid() && historyFrom <= n < next
      ensures ring[n % ring.Length] == AsRead(Log, ring.Length)[n - 1]
    {
      var m := NewestAt(n, next, ring.Length);
      assert ring[m % ring.Length] == Log[m - 1];
    }

    /** A publisher whose first number follows the history it is given. */
    constructor (e: nat, ringLog2: nat, ghost history: Log, nextSeq: nat)
      requires Numbered(history) && nextSeq == |history| + 1
      ensures Valid() && fresh(ring) && epoch == e && Log == history
      ensures State() == NewPub(e, nextSeq, Pow2(ringLog2))
    {
      epoch := e;
      var blank := Command(NewOrder, 0, 0, 0, 0, 0, Buy, Limit, Day, 0, 0, 0);
      ring := new Command[Pow2(ringLog2)](_ => blank);
      fencedBy, next, pending, acked, historyFrom := 0, nextSeq, nextSeq, nextSeq - 1, nextSeq;
      Log := history;
    }

    /** Loads the whole history into the ring, in order, so that a newcomer can catch up on it. */
    method SeedHistory(history: Log)
      requires Valid() && history == Log && historyFrom == next
      modifies this`historyFrom, ring
      ensures Valid() && State() == old(State()).(historyFrom := if history == [] then next else 1)
    {
      var k: nat := 0;
      while k < |history|
        invariant k <= |history| && ring.Length > 0
        invariant historyFrom == if k == 0 then next else 1
        invariant Holds(1, k + 1)
      {
        var c := history[k];
        SlotsApart(k + 1, ring.Length);
        ring[c.seq_ % ring.Length] := c;
        historyFrom := if c.seq_ < historyFrom then c.seq_ else historyFrom;
        k := k + 1;
      }
    }

    /** Stages a command; refuses one out of sequence. */
    method Publish(c: Command) returns (ok: bool)
      requires Valid()
      modifies this`next, `Log, ring
      ensures Valid() && ok == (c.seq_ == old(next))
      ensures Log == (if ok then old(Log) + [c] else old(Log))
      ensures State() == if ok then old(State()).(next := old(next) + 1) else old(State())
    {
      if c.seq_ != next {
        return false;
      }
      SlotsApart(next, ring.Length);
      ring[c.seq_ % ring.Length] := c;
      Log := Log + [c];
      next := next + 1;
      ok := true;
    }

    /** Reads a datagram's commands out of the ring. */
    method Fill(first: nat, n: nat) returns (p: Packet)
      requires Valid() && historyFrom <= first && first + n <= next
      ensures p == Data(epoch, first, Slice(AsRead(Log, ring.Length), first, first + n))
    {
      var cmds: seq<Command> := [];
      ghost var held := AsRead(Log, ring.Length);
      for i := 0 to n
        invariant |cmds| == i && forall k :: 0 <= k < i ==> cmds[k] == held[first - 1 + k]
      {
        SlotHolds(first + i);
        cmds := cmds + [ring[(first + i) % ring.Length]];
      }
      assert cmds == Slice(held, first, first + n);
      p := Data(epoch, first, cmds);
    }

    /** The datagrams for [from, end), whatever the ring holds there. */
    method Send(from: nat, end: nat) returns (sent: seq<Packet>)
      requires Valid() && historyFrom <= from && end <= next
      ensures sent == Chunks(epoch, AsRead(Log, ring.Length), from, end)
    {
      hide Chunks, AsRead, Slice, Holds, Numbered, Oldest;
      sent := [];
      var s := from;
      ghost var held := AsRead(Log, ring.Length);
      ghost var goal := Chunks(epoch, held, from, end);
      assert [] + goal == goal;
      while s < end
        invariant from <= s && (s <= end || s == from)
        invariant sent + Chunks(epoch, held, s, end) == goal
        decreases end - s
      {
        var n := if end - s < PER_PACKET then end - s else PER_PACKET;
        var p := Fill(s, n);
        ChunksStep(sent, epoch, held, s, end);
        sent := sent + [p];
        s := s + n;
      }
      assert sent + [] == sent;
    }

    /** Sends everything staged, as the ring reads it back; FlushExact says when that is as the log has it. */
    method Flush() returns (sent: seq<Packet>)
      requires Valid()
      modifies this`pending
      ensures Valid() && State() == old(State()).(pending := next)
      ensures sent == Chunks(epoch, AsRead(Log, ring.Length), old(pending), next)
    {
      sent := [];
      if pending < next {
        sent := Send(pending, next);
      }
      hide AsRead;
      pending := next;
    }

    /** When idle, and not fenced: flushes, and says what the next number will be. */
    method HeartbeatIfIdle(idle: bool) returns (sent: seq<Packet>)
      requires Valid()
      modifies this`pending
      ensures Valid()
      ensures if !idle || Fenced(old(State())) then State() == old(State()) && sent == []
              else State() == old(State()).(pending := next)
                   && sent == Chunks(epoch, AsRead(Log, ring.Length), old(pending), next)
                              + [Packet.Heartbeat(epoch, next)]
    {
      if !idle || fencedBy != 0 {
        return [];
      }
      sent := Flush();
      sent := sent + [Packet.Heartbeat(epoch, next)];
    }

    /** Orderly shutdown; three copies, since any may be lost. */
    method Close() returns (sent: seq<Packet>)
      requires Valid()
      modifies this`pending
      ensures Valid()
      ensures if Fenced(old(State())) then State() == old(State()) && sent == []
              else State() == old(State()).(pending := next)
                   && sent == Chunks(epoch, AsRead(Log, ring.Length), old(pending), next)
                              + Repeat(Packet.End(epoch, next), 3)
    {
      if fencedBy != 0 {
        return [];
      }
      sent := Flush();
      for i := 0 to 3
        invariant sent == Chunks(epoch, AsRead(Log, ring.Length), old(pending), next)
                          + Repeat(Packet.End(epoch, next), i)
      {
        sent := sent + [Packet.End(epoch, next)];
      }
    }

    method Hear(h: Packet)
      requires Valid()
      modifies this`fencedBy
      ensures Valid() && State() == HearP(old(State()), h)
      ensures fencedBy >= h.epoch <==> h.epoch > epoch || old(fencedBy) >= h.epoch
      ensures fencedBy != 0 <==> old(fencedBy) != 0 || h.epoch > epoch
    {
      if h.epoch > epoch && h.epoch > fencedBy {
        fencedBy := h.epoch;
      }
    }

    method Serve(h: Packet) returns (sent: seq<Packet>)
      requires Valid()
      modifies this`acked
      ensures Valid() && (State(), sent) == ServeP(old(State()), Log, h)
    {
      sent := [];
      if h.epoch != epoch || fencedBy != 0 {
        return;
      }
      match h {
        case Ack(_, through) =>
          if through > acked && through < next {
            acked := through;
          }
        case Retransmit(_, first, count) =>
          var oldest := Oldest(State());
          if first < oldest {
            sent := [Packet.Unavailable(epoch, oldest)];
          } else {
            var end := if first + count < next then first + count else next;
            sent := Send(first, end);
            InReach(epoch, Log, ring.Length, first, end);
          }
        case _ =>
      }
    }
  }

  /** Within one ring's length of each other, different numbers have different slots. */
  lemma SlotsApart(n: nat, size: nat)
    requires size > 0
    ensures forall m: nat :: m < n && m + size > n ==> m % size != n % size
  {
    forall m: nat | m < n && m + size > n ensures m % size != n % size {
      Apart(m, n, size);
    }
  }

  lemma NextLap(n: nat, size: nat)
    requires size > 0
    ensures (n + size) % size == n % size
  {
    Quotient(n + size, n / size + 1, n % size, size);
  }
}
