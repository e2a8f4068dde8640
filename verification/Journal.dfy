/** The write-ahead journal: checksummed records behind an 8-byte file header, scanned back after a crash
    up to the first thing that is not a whole, intact record. The checksum is any function of the bytes. */
module Journals {
  import opened Types
  import opened Wires
  import opened Arithmetic

  /** The checksum of a record's timestamp, owner and payload. */
  type Checksum = Bytes -> nat

  const FILE_HEADER: Bytes := [0x45, 0x58, 0x4A, 0x52, 1, 0, 0, 0]
  const META := 24

  datatype Status = Clean | TornTail | Corrupt

  /** `valid` is the length of the trustworthy prefix. */
  datatype Scan = Scan(commands: seq<Command>, valid: nat, status: Status)

  /** Not even a scan: some other file. */
  datatype FileScan = Scanned(scan: Scan) | NotAJournal

  function Stamp(c: Command): (b: Bytes)
    ensures |b| == 12
  {
    Put(c.ts, 8) + Put(c.owner, 4)
  }

  function Record(crc: Checksum, c: Command): (b: Bytes)
    ensures |b| == META + Size(c.kind)
  {
    Put(Size(c.kind), 4) + Put(crc(Stamp(c) + Encode(c)), 4) + Stamp(c) + Put(0, 4) + Encode(c)
  }

  function Records(crc: Checksum, cmds: seq<Command>): Bytes {
    if cmds == [] then [] else Record(crc, cmds[0]) + Records(crc, cmds[1..])
  }

  /** What a record gives back: the wire's fields, and the timestamp and owner beside them. */
  function Journaled(c: Command): Command {
    Carried(c).(ts := c.ts, owner := c.owner)
  }

  function AllJournaled(cmds: seq<Command>): (r: seq<Command>)
    ensures |r| == |cmds|
  {
    seq(|cmds|, i requires 0 <= i < |cmds| => Journaled(cmds[i]))
  }

  /** One record off the front: its command and length, or why there is none. */
  datatype Front = Whole(c: Command, size: nat) | Bad(status: Status)

  function FrontOf(crc: Checksum, b: Bytes): (f: Front)
    ensures f.Whole? ==> META < f.size <= |b|
  {
    if b == [] then Bad(Clean)
    else if |b| < META then Bad(TornTail)
    else
      var len := Get(b[0..4]);
      if len < HEADER || len > MAX_MESSAGE then Bad(Corrupt)
      else if |b| < META + len then Bad(TornTail)
      else if crc(b[8..20] + b[META..META + len]) % U32 != Get(b[4..8]) then Bad(Corrupt)
      else match Decode(b[META..META + len])
        case Ok(n, c) =>
          if n != len then Bad(Corrupt) else Whole(c.(ts := Get(b[8..16]), owner := Get(b[16..20])), META + len)
        case _ => Bad(Corrupt)
  }

  /** Every whole record from the front, up to the first that is not. */
  function ScanFrom(crc: Checksum, b: Bytes): (s: Scan)
    ensures s.valid <= |b|
    decreases |b|
  {
    match FrontOf(crc, b)
    case Bad(status) => Scan([], 0, status)
    case Whole(c, size) =>
      var rest := ScanFrom(crc, b[size..]);
      Scan([c] + rest.commands, size + rest.valid, rest.status)
  }

  function ScanFile(crc: Checksum, file: Bytes): FileScan {
    if |file| < |FILE_HEADER| then Scanned(Scan([], 0, TornTail))
    else if file[..|FILE_HEADER|] != FILE_HEADER then NotAJournal
    else
      var s := ScanFrom(crc, file[|FILE_HEADER|..]);
      Scanned(s.(valid := |FILE_HEADER| + s.valid))
  }

  // ---- records scan back ----

  lemma PutMod(n: nat, k: nat)
    ensures Put(n, k) == Put(n % Pow256(k), k)
    decreases k
  {
    if k > 0 {
      var p := Pow256(k - 1);
      PutMod(n / 256, k - 1);
      PutMod((n % (256 * p)) / 256, k - 1);
      ModParts(n, p);
    }
  }

  lemma ModParts(n: nat, p: nat)
    requires p > 0
    ensures (n % (256 * p)) % 256 == n % 256 && (n % (256 * p)) / 256 == (n / 256) % p
  {
    var q, r := n / (256 * p), n % (256 * p);
    assert n == 256 * p * q + r;
    assert n == 256 * (p * q + r / 256) + r % 256;
    Quotient(n, p * q + r / 256, r % 256, 256);
    assert r / 256 < p;
    Quotient(n / 256, q, r / 256, p);
  }

  lemma RecordParts(crc: Checksum, c: Command, tail: Bytes)
    ensures var b, n := Record(crc, c) + tail, Size(c.kind);
      && |b| >= META + n && b[0..4] == Put(n, 4) && b[4..8] == Put(crc(Stamp(c) + Encode(c)), 4)
      && b[8..20] == Stamp(c) && b[8..16] == Put(c.ts, 8) && b[16..20] == Put(c.owner, 4)
      && b[META..META + n] == Encode(c) && b[META + n..] == tail
  {
    hide Put, Encode;
  }

  lemma RecordValues(crc: nat, c: Command)
    requires Fits(c)
    ensures Get(Put(Size(c.kind), 4)) == Size(c.kind) && Get(Put(crc, 4)) == crc % U32
    ensures Get(Put(c.ts, 8)) == c.ts && Get(Put(c.owner, 4)) == c.owner
  {
    Powers();
    GetPut(Size(c.kind), 4);
    PutMod(crc, 4);
    GetPut(crc % U32, 4);
    GetPut(c.ts, 8);
    GetPut(c.owner, 4);
  }

  /** An appended record is read back, whatever follows it. */
  lemma FrontIs(crc: Checksum, c: Command, tail: Bytes)
    requires Fits(c)
    ensures FrontOf(crc, Record(crc, c) + tail) == Whole(Journaled(c), META + Size(c.kind))
  {
    hide Record, Put, Get, Encode, Decode, Stamp, Fits;
    RecordParts(crc, c, tail);
    RecordValues(crc(Stamp(c) + Encode(c)), c);
    RoundTrip(c, []);
    assert Encode(c) + [] == Encode(c);
  }

  ghost predicate AllFit(cmds: seq<Command>) {
    forall i :: 0 <= i < |cmds| ==> Fits(cmds[i])
  }

  lemma JournaledHead(cmds: seq<Command>)
    requires cmds != []
    ensures AllJournaled(cmds) == [Journaled(cmds[0])] + AllJournaled(cmds[1..])
  {
  }

  /** Whatever was appended scans back, in order, under any tail; what comes after is the tail's own scan. */
  lemma {:induction false} AppendedScan(crc: Checksum, cmds: seq<Command>, tail: Bytes)
    requires AllFit(cmds)
    ensures var s, t := ScanFrom(crc, Records(crc, cmds) + tail), ScanFrom(crc, tail);
      s == Scan(AllJournaled(cmds) + t.commands, |Records(crc, cmds)| + t.valid, t.status)
    decreases |cmds|
  {
    hide Record, FrontOf, Journaled, Fits;
    var b := Records(crc, cmds) + tail;
    if cmds == [] {
      assert b == tail;
    } else {
      JournaledHead(cmds);
      AppendedScan(crc, cmds[1..], tail);
      var rest := Records(crc, cmds[1..]) + tail;
      assert b == Record(crc, cmds[0]) + rest;
      FrontIs(crc, cmds[0], rest);
      assert b[META + Size(cmds[0].kind)..] == rest;
      assert [Journaled(cmds[0])] + (AllJournaled(cmds[1..]) + ScanFrom(crc, tail).commands)
          == AllJournaled(cmds) + ScanFrom(crc, tail).commands;
    }
  }

  /** How many records lie whole within the first n bytes. */
  function Contained(crc: Checksum, cmds: seq<Command>, n: nat): (k: nat)
    ensures k <= |cmds|
  {
    if cmds == [] || n < META + Size(cmds[0].kind) then 0
    else 1 + Contained(crc, cmds[1..], n - (META + Size(cmds[0].kind)))
  }

  /** Part of a record is a torn tail, nothing else. */
  lemma TornFront(crc: Checksum, c: Command, n: nat)
    requires Fits(c) && n < META + Size(c.kind)
    ensures FrontOf(crc, Record(crc, c)[..n]) == Bad(if n == 0 then Clean else TornTail)
  {
    hide Record, Put, Get, Encode, Decode, Stamp, Fits;
    var b := Record(crc, c)[..n];
    RecordParts(crc, c, []);
    RecordValues(crc(Stamp(c) + Encode(c)), c);
    assert Record(crc, c) + [] == Record(crc, c);
    if n >= META {
      assert b[0..4] == Record(crc, c)[0..4];
    }
  }

  /** A file cut anywhere gives back exactly the records it still holds whole, and reads clean only when cut
      between two records. */
  lemma {:induction false} TruncatedScan(crc: Checksum, cmds: seq<Command>, n: nat)
    requires AllFit(cmds) && n <= |Records(crc, cmds)|
    ensures var s, k := ScanFrom(crc, Records(crc, cmds)[..n]), Contained(crc, cmds, n);
      && s.commands == AllJournaled(cmds[..k]) && s.valid == |Records(crc, cmds[..k])| <= n
      && s.status == if n == |Records(crc, cmds[..k])| then Clean else TornTail
    decreases |cmds|
  {
    hide Record, FrontOf, Journaled, Fits, AllJournaled;
    var b := Records(crc, cmds)[..n];
    if cmds == [] {
      assert b == [];
      assert FrontOf(crc, b) == Bad(Clean) by { EmptyFront(crc); }
    } else {
      var size := META + Size(cmds[0].kind);
      if n < size {
        assert b == Record(crc, cmds[0])[..n];
        TornFront(crc, cmds[0], n);
      } else {
        var k := Contained(crc, cmds[1..], n - size);
        var rest := Records(crc, cmds[1..])[..n - size];
        TruncatedScan(crc, cmds[1..], n - size);
        assert b == Record(crc, cmds[0]) + rest;
        FrontIs(crc, cmds[0], rest);
        assert b[size..] == rest;
        assert cmds[..k + 1][1..] == cmds[1..][..k];
        JournaledHead(cmds[..k + 1]);
      }
    }
  }

  lemma EmptyFront(crc: Checksum)
    ensures FrontOf(crc, []) == Bad(Clean)
  {
  }

  /** No more than that many fit: one record further ends past n. */
  lemma {:induction false} ContainedMost(crc: Checksum, cmds: seq<Command>, n: nat)
    ensures var k := Contained(crc, cmds, n);
      && |Records(crc, cmds[..k])| <= n
      && (k < |cmds| ==> n < |Records(crc, cmds[..k + 1])|)
    decreases |cmds|
  {
    hide Record;
    if cmds != [] {
      var size := META + Size(cmds[0].kind);
      assert cmds[..1][1..] == [];
      if n >= size {
        var k := Contained(crc, cmds[1..], n - size);
        ContainedMost(crc, cmds[1..], n - size);
        assert cmds[..k + 1][1..] == cmds[1..][..k];
        assert k + 1 < |cmds| ==> cmds[..k + 2][1..] == cmds[1..][..k + 1];
      }
    }
  }

  /** The journal file of these commands. */
  function FileOf(crc: Checksum, cmds: seq<Command>): Bytes {
    FILE_HEADER + Records(crc, cmds)
  }

  lemma {:induction false} RecordsOfPrefix(crc: Checksum, cmds: seq<Command>, k: nat)
    requires k <= |cmds|
    ensures |Records(crc, cmds[..k])| <= |Records(crc, cmds)|
    ensures Records(crc, cmds)[..|Records(crc, cmds[..k])|] == Records(crc, cmds[..k])
    decreases k
  {
    hide Record;
    if k > 0 {
      RecordsOfPrefix(crc, cmds[1..], k - 1);
      assert cmds[..k][1..] == cmds[1..][..k - 1];
    }
  }

  lemma {:induction false} RecordsAdd(crc: Checksum, cmds: seq<Command>, c: Command)
    ensures Records(crc, cmds) + Record(crc, c) == Records(crc, cmds + [c])
    decreases |cmds|
  {
    hide Record;
    assert [c][1..] == [];
    if cmds == [] {
      assert cmds + [c] == [c];
    } else {
      RecordsAdd(crc, cmds[1..], c);
      assert (cmds + [c])[1..] == cmds[1..] + [c];
    }
  }

  /** A journal file cut anywhere, its header included: the scan gives back the records still whole, and
      recovery leaves exactly the file of those commands, to which the next append adds its own. */
  lemma CrashRecovers(crc: Checksum, cmds: seq<Command>, n: nat, next: Command)
    requires AllFit(cmds) && n <= |FileOf(crc, cmds)|
    ensures var k := if n < |FILE_HEADER| then 0 else Contained(crc, cmds, n - |FILE_HEADER|);
      var cut, whole := FileOf(crc, cmds)[..n], FileOf(crc, cmds[..k]);
      && ScanFile(crc, cut) == Scanned(
           if n < |FILE_HEADER| then Scan([], 0, TornTail)
           else Scan(AllJournaled(cmds[..k]), |whole|, if n == |whole| then Clean else TornTail))
      && RecoveredFile(crc, cut) == Some(whole)
      && whole + Record(crc, next) == FileOf(crc, cmds[..k] + [next])
  {
    hide Record, ScanFrom, AllJournaled, Records, Contained, Fits;
    var h, all := |FILE_HEADER|, Records(crc, cmds);
    var cut := FileOf(crc, cmds)[..n];
    if n < h {
      assert FileOf(crc, cmds[..0]) == FILE_HEADER by { NoRecords(crc, cmds[..0]); }
      RecordsAdd(crc, cmds[..0], next);
    } else {
      var k := Contained(crc, cmds, n - h);
      var kept := |Records(crc, cmds[..k])|;
      TruncatedScan(crc, cmds, n - h);
      RecordsOfPrefix(crc, cmds, k);
      RecordsAdd(crc, cmds[..k], next);
      assert cut[..h] == FILE_HEADER && cut[h..] == all[..n - h];
      assert cut[..h + kept] == FILE_HEADER + all[..kept];
    }
  }

  lemma NoRecords(crc: Checksum, cmds: seq<Command>)
    requires cmds == []
    ensures Records(crc, cmds) == []
  {
  }

  // ---- what a scan gives back, of any bytes ----

  /** The bytes begin with a whole, intact record of c: the message's length, the checksum of stamp and message
      modulo 2^32, timestamp and owner, each least significant byte first, and from byte 24 on a message that
      says c, whatever owner it names. */
  ghost predicate Intact(crc: Checksum, b: Bytes, c: Command) {
    var n := Size(c.kind);
    && 24 + n <= |b| && FieldIs(b, 0, 4, n)
    && FieldIs(b, 4, 4, crc(b[8..20] + b[24..24 + n]) % 0x1_0000_0000)
    && FieldIs(b, 8, 8, c.ts) && FieldIs(b, 16, 4, c.owner)
    && exists o: nat :: Says(b[24..24 + n], c.(ts := 0, owner := o))
  }

  /** The bytes end, or begin with part of a record: less than its 24 bytes, or a length a message can have and
      fewer bytes than that. */
  ghost predicate Stops(crc: Checksum, b: Bytes, status: Status) {
    match status
    case Clean => b == []
    case TornTail => b != [] && Torn(b)
    case Corrupt => b != [] && !Torn(b) && forall c :: !Intact(crc, b, c)
  }

  ghost predicate Torn(b: Bytes) {
    |b| < 24 || exists n: nat :: FieldIs(b, 0, 4, n) && 16 <= n <= 48 && |b| < 24 + n
  }

  lemma WordIs(b: Bytes, at: nat, width: nat, n: nat)
    requires at + width <= |b|
    ensures FieldIs(b, at, width, n) <==> n == Get(b[at..at + width])
  {
    hide Put, Get, FieldIs;
    PutGet(b[at..at + width]);
    FieldIff(b, at, width, Get(b[at..at + width]));
    if FieldIs(b, at, width, n) {
      SameDigits(b, at, width, n, Get(b[at..at + width]));
    }
  }

  /** A scan takes a record off the front if and only if it is whole and intact. */
  lemma FrontIff(crc: Checksum, b: Bytes, c: Command, size: nat)
    ensures FrontOf(crc, b) == Whole(c, size) <==> Intact(crc, b, c) && size == 24 + Size(c.kind)
  {
    hide Get, Decode, FieldIs, Says;
    if |b| >= 24 {
      Words(b);
      if FrontOf(crc, b).Whole? {
        FrontSays(crc, b);
        var d := FrontOf(crc, b).c;
        WordsOne(crc, b, d);
        if Intact(crc, b, c) {
          IntactOne(crc, b, c, d);
        }
      }
      if Intact(crc, b, c) {
        IntactWhole(crc, b, c);
      }
    }
  }

  lemma Words(b: Bytes)
    requires |b| >= 24
    ensures forall n: nat :: FieldIs(b, 0, 4, n) <==> n == Get(b[0..4])
    ensures forall n: nat :: FieldIs(b, 4, 4, n) <==> n == Get(b[4..8])
    ensures forall n: nat :: FieldIs(b, 8, 8, n) <==> n == Get(b[8..16])
    ensures forall n: nat :: FieldIs(b, 16, 4, n) <==> n == Get(b[16..20])
  {
    forall n: nat ensures FieldIs(b, 0, 4, n) <==> n == Get(b[0..4]) { WordIs(b, 0, 4, n); }
    forall n: nat ensures FieldIs(b, 4, 4, n) <==> n == Get(b[4..8]) { WordIs(b, 4, 4, n); }
    forall n: nat ensures FieldIs(b, 8, 8, n) <==> n == Get(b[8..16]) { WordIs(b, 8, 8, n); }
    forall n: nat ensures FieldIs(b, 16, 4, n) <==> n == Get(b[16..20]) { WordIs(b, 16, 4, n); }
  }

  /** A record taken off the front holds a message of the length it gives. */
  lemma FrontSays(crc: Checksum, b: Bytes)
    requires FrontOf(crc, b).Whole?
    ensures var Whole(c, size) := FrontOf(crc, b);
      && size == 24 + Get(b[0..4]) == 24 + Size(c.kind) <= |b|
      && crc(b[8..20] + b[24..size]) % U32 == Get(b[4..8])
      && c.ts == Get(b[8..16]) && c.owner == Get(b[16..20])
      && exists o: nat :: Says(b[24..size], c.(ts := 0, owner := o))
  {
    hide Get, Says;
    var m := b[META..META + Get(b[0..4])];
    AcceptedIsCanonical(m);
    hide Decode;
    var d := Decode(m).c;
    DecodeIff(m, d, Decode(m).consumed);
    SaysTimeless(m, d);
    assert d == FrontOf(crc, b).c.(ts := 0, owner := d.owner);
  }

  lemma SaysTimeless(p: Bytes, c: Command)
    requires Says(p, c)
    ensures c.ts == 0
  {
  }

  lemma WordsOne(crc: Checksum, b: Bytes, c: Command)
    requires |b| >= 24 && FrontOf(crc, b) == Whole(c, 24 + Size(c.kind)) && 24 + Size(c.kind) <= |b|
    ensures Intact(crc, b, c)
  {
    hide Get, Says, FieldIs, Decode;
    Words(b);
    FrontSays(crc, b);
  }

  lemma IntactOne(crc: Checksum, b: Bytes, c: Command, d: Command)
    requires Intact(crc, b, c) && Intact(crc, b, d)
    ensures c == d
  {
    hide Says, FieldIs;
    SameDigits(b, 0, 4, Size(c.kind), Size(d.kind));
    SameDigits(b, 8, 8, c.ts, d.ts);
    SameDigits(b, 16, 4, c.owner, d.owner);
    var m := b[24..24 + Size(c.kind)];
    var o: nat :| Says(m, c.(ts := 0, owner := o));
    var o': nat :| Says(m, d.(ts := 0, owner := o'));
    SayOne(m, c.(ts := 0, owner := o), d.(ts := 0, owner := o'));
  }

  lemma IntactWhole(crc: Checksum, b: Bytes, c: Command)
    requires Intact(crc, b, c)
    ensures FrontOf(crc, b) == Whole(c, 24 + Size(c.kind))
  {
    hide Get, Says, FieldIs, Decode;
    Words(b);
    var m := b[24..24 + Size(c.kind)];
    var o: nat :| Says(m, c.(ts := 0, owner := o));
    SaysLength(m, c.(ts := 0, owner := o));
    DecodeIff(m, c.(ts := 0, owner := o), Size(c.kind));
  }

  lemma SaysLength(p: Bytes, c: Command)
    requires Says(p, c)
    ensures |p| >= 2 && Length(p) == Size(c.kind) && HEADER <= Size(c.kind) <= MAX_MESSAGE
  {
  }

  /** What is written is such a record; the word before the message is zero. */
  lemma RecordIntact(crc: Checksum, c: Command, tail: Bytes)
    requires Fits(c)
    ensures Intact(crc, Record(crc, c) + tail, Journaled(c))
    ensures Record(crc, c)[20..24] == [0, 0, 0, 0]
  {
    hide Intact, FrontOf, Encode, Stamp, Record;
    FrontIs(crc, c, tail);
    FrontIff(crc, Record(crc, c) + tail, Journaled(c), META + Size(c.kind));
    RecordZero(crc, c);
  }

  lemma RecordZero(crc: Checksum, c: Command)
    ensures Record(crc, c)[20..24] == [0, 0, 0, 0]
  {
    NoDigits();
    hide Encode, Stamp, Put;
    assert Record(crc, c)[20..24] == Put(0, 4);
  }

  lemma NoDigits()
    ensures Put(0, 4) == [0, 0, 0, 0]
  {
    assert Put(0, 4) == [0] + Put(0, 3);
  }

  lemma FrontBad(crc: Checksum, b: Bytes, status: Status)
    ensures FrontOf(crc, b) == Bad(status) <==> Stops(crc, b, status)
  {
    hide Get, Says, FieldIs, Decode, Intact;
    if FrontOf(crc, b).Whole? {
      var Whole(c, size) := FrontOf(crc, b);
      FrontIff(crc, b, c, size);
      if |b| >= 24 {
        Words(b);
      }
    } else {
      forall c ensures !Intact(crc, b, c) {
        FrontIff(crc, b, c, 24 + Size(c.kind));
      }
      if |b| >= 24 {
        Words(b);
        assert FieldIs(b, 0, 4, Get(b[0..4]));
      }
    }
  }

  /** Where record i of these lies. */
  function Offset(cmds: seq<Command>, i: nat): nat
    requires i <= |cmds|
  {
    if i == 0 then 0 else 24 + Size(cmds[0].kind) + Offset(cmds[1..], i - 1)
  }

  ghost predicate LiesAt(crc: Checksum, b: Bytes, at: nat, c: Command) {
    at <= |b| && Intact(crc, b[at..], c)
  }

  /** Every command lies at its offset in a whole, intact record, and the bytes behind the last stop as s says. */
  ghost predicate Accounts(crc: Checksum, b: Bytes, s: Scan) {
    && s.valid == Offset(s.commands, |s.commands|) <= |b|
    && (forall i: nat :: i < |s.commands| ==> LiesAt(crc, b, Offset(s.commands, i), s.commands[i]))
    && Stops(crc, b[s.valid..], s.status)
  }

  /** Of any bytes, whatever wrote them: the scan is s if and only if s accounts for them. A record is given back
      only with its checksum right, and the scan goes on as long as they are. */
  lemma {:induction false} ScanIff(crc: Checksum, b: Bytes, s: Scan)
    ensures ScanFrom(crc, b) == s <==> Accounts(crc, b, s)
    decreases |s.commands|
  {
    hide FrontOf, Intact, Stops;
    assert b[0..] == b;
    if s.commands == [] {
      FrontBad(crc, b, s.status);
    } else {
      var c, n := s.commands[0], 24 + Size(s.commands[0].kind);
      FrontIff(crc, b, c, n);
      if FrontOf(crc, b) == Whole(c, n) {
        if s.valid >= n {
          ScanIff(crc, b[n..], Scan(s.commands[1..], s.valid - n, s.status));
          AccountsRest(crc, b, s);
        } else {
          assert s.valid != Offset(s.commands, |s.commands|) && s != ScanFrom(crc, b);
        }
      } else {
        OtherFront(crc, b, s);
        LiesFirst(crc, b, s.commands);
        assert !Accounts(crc, b, s);
      }
    }
  }

  lemma OtherFront(crc: Checksum, b: Bytes, s: Scan)
    requires s.commands != [] && FrontOf(crc, b) != Whole(s.commands[0], 24 + Size(s.commands[0].kind))
    ensures ScanFrom(crc, b) != s
  {
    hide FrontOf;
    if FrontOf(crc, b).Whole? {
      FrontIff(crc, b, FrontOf(crc, b).c, FrontOf(crc, b).size);
    }
  }

  lemma AccountsRest(crc: Checksum, b: Bytes, s: Scan)
    requires s.commands != []
    requires var n := 24 + Size(s.commands[0].kind); n <= s.valid && n <= |b| && Intact(crc, b, s.commands[0])
    ensures var n := 24 + Size(s.commands[0].kind);
      Accounts(crc, b, s) <==> Accounts(crc, b[n..], Scan(s.commands[1..], s.valid - n, s.status))
  {
    hide Intact, Stops, LiesAt, Offset;
    var n, cmds := 24 + Size(s.commands[0].kind), s.commands;
    OffsetOn(cmds, |cmds| - 1);
    if s.valid <= |b| {
      assert b[n..][s.valid - n..] == b[s.valid..];
    }
    forall i: nat | i < |cmds| - 1
      ensures LiesAt(crc, b, Offset(cmds, i + 1), cmds[i + 1])
        <==> LiesAt(crc, b[n..], Offset(cmds[1..], i), cmds[1..][i])
    {
      OffsetOn(cmds, i);
      LiesOn(crc, b, n, Offset(cmds[1..], i), cmds[i + 1]);
    }
    LiesFirst(crc, b, cmds);
    if Accounts(crc, b[n..], Scan(cmds[1..], s.valid - n, s.status)) {
      forall i: nat | i < |cmds| ensures LiesAt(crc, b, Offset(cmds, i), cmds[i]) {
        assert i > 0 ==> LiesAt(crc, b[n..], Offset(cmds[1..], i - 1), cmds[1..][i - 1]);
      }
    }
  }

  lemma OffsetOn(cmds: seq<Command>, i: nat)
    requires i < |cmds|
    ensures Offset(cmds, i + 1) == 24 + Size(cmds[0].kind) + Offset(cmds[1..], i)
  {
  }

  lemma LiesOn(crc: Checksum, b: Bytes, n: nat, at: nat, c: Command)
    requires n <= |b|
    ensures LiesAt(crc, b, n + at, c) <==> LiesAt(crc, b[n..], at, c)
  {
    hide Intact;
    if n + at <= |b| {
      assert b[n..][at..] == b[n + at..];
    }
  }

  lemma LiesFirst(crc: Checksum, b: Bytes, cmds: seq<Command>)
    requires cmds != []
    ensures LiesAt(crc, b, Offset(cmds, 0), cmds[0]) <==> Intact(crc, b, cmds[0])
  {
    hide Intact;
    assert b[0..] == b;
  }

  /** A record of a right length whose stored word is not its own checksum. */
  ghost predicate Tampered(crc: Checksum, bad: Bytes) {
    && |bad| >= 24
    && exists n: nat :: FieldIs(bad, 0, 4, n) && 16 <= n <= 48 && |bad| == 24 + n
         && !FieldIs(bad, 4, 4, crc(bad[8..20] + bad[24..]) % 0x1_0000_0000)
  }

  /** Appended records with a tampered one behind them scan back up to it, whatever follows. */
  lemma TamperedStops(crc: Checksum, cmds: seq<Command>, bad: Bytes, tail: Bytes)
    requires AllFit(cmds) && Tampered(crc, bad)
    ensures ScanFrom(crc, Records(crc, cmds) + (bad + tail))
      == Scan(AllJournaled(cmds), |Records(crc, cmds)|, Corrupt)
  {
    TamperedFront(crc, bad, tail);
    hide Records, AllJournaled, Fits, Tampered, FrontOf, ScanFrom;
    AppendedScan(crc, cmds, bad + tail);
    assert AllJournaled(cmds) + [] == AllJournaled(cmds);
  }

  /** Recovery then leaves exactly the file of the records before it. */
  lemma TamperedRecovers(crc: Checksum, cmds: seq<Command>, bad: Bytes, tail: Bytes)
    requires AllFit(cmds) && Tampered(crc, bad)
    ensures RecoveredFile(crc, FileOf(crc, cmds) + (bad + tail)) == Some(FileOf(crc, cmds))
  {
    hide Records, AllJournaled, Fits, Tampered, FrontOf, ScanFrom;
    TamperedStops(crc, cmds, bad, tail);
    var file, all := FileOf(crc, cmds) + (bad + tail), Records(crc, cmds) + (bad + tail);
    assert file[..8] == FILE_HEADER && file[8..] == all;
    assert file[..8 + |Records(crc, cmds)|] == FileOf(crc, cmds);
  }

  lemma TamperedFront(crc: Checksum, bad: Bytes, tail: Bytes)
    requires Tampered(crc, bad)
    ensures ScanFrom(crc, bad + tail) == Scan([], 0, Corrupt)
  {
    hide FieldIs, Get, Decode;
    var b := bad + tail;
    var n: nat :| FieldIs(bad, 0, 4, n) && 16 <= n <= 48 && |bad| == 24 + n
      && !FieldIs(bad, 4, 4, crc(bad[8..20] + bad[24..]) % 0x1_0000_0000);
    Words(bad);
    assert b[0..4] == bad[0..4] && b[4..8] == bad[4..8] && b[8..20] == bad[8..20] && b[24..24 + n] == bad[24..];
  }

  /** The file before any record: the eight bytes "EXJR", 1, 0, 0, 0. */
  lemma FileIff(crc: Checksum, file: Bytes)
    ensures var h: Bytes := [0x45, 0x58, 0x4A, 0x52, 1, 0, 0, 0];
      && (ScanFile(crc, file) == NotAJournal <==> |file| >= 8 && file[..8] != h)
      && (|file| < 8 ==> ScanFile(crc, file) == Scanned(Scan([], 0, TornTail)))
      && (|file| >= 8 && file[..8] == h ==>
            forall s: Scan :: s.valid >= 8 ==>
              (ScanFile(crc, file) == Scanned(s) <==> Accounts(crc, file[8..], s.(valid := s.valid - 8))))
  {
    hide Accounts, ScanFrom;
    if |file| >= 8 && file[..8] == FILE_HEADER {
      forall s: Scan | s.valid >= 8
        ensures ScanFile(crc, file) == Scanned(s) <==> Accounts(crc, file[8..], s.(valid := s.valid - 8))
      {
        ScanIff(crc, file[8..], s.(valid := s.valid - 8));
      }
    }
  }

  // ---- recovery ----

  /** A whole front record depends on its own bytes alone. */
  lemma FrontAlone(crc: Checksum, b: Bytes, n: nat)
    requires FrontOf(crc, b).Whole? && FrontOf(crc, b).size <= n <= |b|
    ensures FrontOf(crc, b[..n]) == FrontOf(crc, b)
  {
    hide Get, Decode;
    var a, len := b[..n], Get(b[0..4]);
    assert a[0..4] == b[0..4] && a[4..8] == b[4..8] && a[8..20] == b[8..20];
    assert a[8..16] == b[8..16] && a[16..20] == b[16..20];
    assert a[META..META + len] == b[META..META + len];
  }

  /** Cutting a file, whatever it holds, to its trustworthy prefix makes it scan clean with the same commands. */
  lemma {:induction false} TrimmedScan(crc: Checksum, b: Bytes)
    ensures var s := ScanFrom(crc, b);
      ScanFrom(crc, b[..s.valid]) == Scan(s.commands, s.valid, Clean)
    decreases |b|
  {
    hide FrontOf;
    var s := ScanFrom(crc, b);
    match FrontOf(crc, b)
    case Bad(_) =>
      EmptyFront(crc);
      assert b[..0] == [];
    case Whole(c, size) =>
      TrimmedScan(crc, b[size..]);
      FrontAlone(crc, b, s.valid);
      assert b[..s.valid][size..] == b[size..][..s.valid - size];
  }

  /** What recovery leaves in the file: the trustworthy prefix, or a new journal when there is not even a
      header; None when it is not a journal. */
  function RecoveredFile(crc: Checksum, file: Bytes): Option<Bytes> {
    match ScanFile(crc, file)
    case NotAJournal => None
    case Scanned(s) =>
      Some(if s.valid < |FILE_HEADER| then FILE_HEADER else file[..if s.valid <= |file| then s.valid else 0])
  }

  /** Recovery keeps exactly the scanned commands, leaves a clean file, and recovering that again changes
      nothing. */
  lemma RecoveryExact(crc: Checksum, file: Bytes)
    requires ScanFile(crc, file).Scanned?
    ensures var r := RecoveredFile(crc, file);
      && r.Some?
      && ScanFile(crc, r.value) == Scanned(Scan(ScanFile(crc, file).scan.commands, |r.value|, Clean))
      && RecoveredFile(crc, r.value) == r
  {
    hide ScanFrom;
    var h := |FILE_HEADER|;
    if |file| < h {
      assert FILE_HEADER[..h] == FILE_HEADER && FILE_HEADER[h..] == [];
      NothingScans(crc);
    } else {
      var b := file[h..];
      TrimmedScan(crc, b);
      var v := ScanFrom(crc, b).valid;
      var r := file[..h + v];
      assert r[..h] == file[..h] && r[h..] == b[..v];
    }
    var r := RecoveredFile(crc, file).value;
    assert r[..|r|] == r;
  }

  lemma NothingScans(crc: Checksum)
    ensures ScanFrom(crc, []) == Scan([], 0, Clean)
  {
  }

  // ---- in place ----

  /** The scan as a loop over the file. */
  method JournalScan(crc: Checksum, file: Bytes) returns (r: FileScan)
    ensures r == ScanFile(crc, file)
  {
    if |file| < |FILE_HEADER| {
      return Scanned(Scan([], 0, TornTail));
    }
    if file[..|FILE_HEADER|] != FILE_HEADER {
      return NotAJournal;
    }
    var cmds, at, status := ScanLoop(crc, file);
    r := Scanned(Scan(cmds, at, status));
  }

  method ScanLoop(crc: Checksum, file: Bytes) returns (cmds: seq<Command>, at: nat, status: Status)
    requires |file| >= |FILE_HEADER|
    ensures |FILE_HEADER| <= at && ScanFrom(crc, file[|FILE_HEADER|..]) == Scan(cmds, at - |FILE_HEADER|, status)
  {
    hide FrontOf, ScanFrom;
    at, cmds, status := |FILE_HEADER|, [], Clean;
    ghost var goal := ScanFrom(crc, file[at..]);
    assert [] + goal.commands == goal.commands;
    while true
      invariant |FILE_HEADER| <= at <= |file|
      invariant var s := ScanFrom(crc, file[at..]);
        goal == Scan(cmds + s.commands, at - |FILE_HEADER| + s.valid, s.status)
      decreases |file| - at
    {
      var front := FrontOf(crc, file[at..]);
      ScanStep(crc, file, at, cmds);
      if front.Bad? {
        status := front.status;
        return;
      }
      cmds := cmds + [front.c];
      at := at + front.size;
    }
  }

  /** One record, then the scan from where it ends. */
  lemma ScanStep(crc: Checksum, file: Bytes, at: nat, cmds: seq<Command>)
    requires at <= |file|
    ensures var f, s := FrontOf(crc, file[at..]), ScanFrom(crc, file[at..]);
      match f
      case Bad(status) => s == Scan([], 0, status) && cmds + [] == cmds
      case Whole(c, size) =>
        && META < size && at + size <= |file|
        && var t := ScanFrom(crc, file[at + size..]);
           s == Scan([c] + t.commands, size + t.valid, t.status) && cmds + s.commands == (cmds + [c]) + t.commands
  {
    hide FrontOf;
    var f := FrontOf(crc, file[at..]);
    if f.Whole? {
      assert file[at..][f.size..] == file[at + f.size..];
    }
  }

  class JournalWriter {
    const crc: Checksum
    var file: Bytes

    /** A new journal. */
    constructor (checksum: Checksum)
      ensures crc == checksum && file == FILE_HEADER
    {
      crc, file := checksum, FILE_HEADER;
    }

    /** Cuts off any torn or corrupt tail, so that new records follow a valid prefix. */
    method Recover() returns (r: FileScan)
      modifies this
      ensures r == ScanFile(crc, old(file))
      ensures file == match RecoveredFile(crc, old(file)) case Some(f) => f case None => old(file)
    {
      r := JournalScan(crc, file);
      if r.Scanned? {
        file := if r.scan.valid < |FILE_HEADER| then FILE_HEADER else file[..r.scan.valid];
      }
    }

    method Append(c: Command)
      modifies this
      ensures file == old(file) + Record(crc, c)
    {
      file := file + Record(crc, c);
    }
  }
}
