/** The binary order-entry format: fixed little-endian layouts behind a common 16-byte header. */
module Wires {
  import opened Types
  import opened Arithmetic

  type Byte = x: nat | x < 256
  type Bytes = seq<Byte>

  const U32: nat := 0x1_0000_0000

  function Pow256(k: nat): (p: nat)
    ensures p > 0
  {
    if k == 0 then 1 else 256 * Pow256(k - 1)
  }

  /** The low k bytes of n, least significant first. */
  function Put(n: nat, k: nat): (b: Bytes)
    ensures |b| == k
    decreases k
  {
    if k == 0 then [] else [n % 256] + Put(n / 256, k - 1)
  }

  function Get(b: Bytes): nat {
    if b == [] then 0 else b[0] + 256 * Get(b[1..])
  }

  lemma {:induction false} GetPut(n: nat, k: nat)
    requires n < Pow256(k)
    ensures Get(Put(n, k)) == n
    decreases k
  {
    if k > 0 {
      assert n / 256 < Pow256(k - 1);
      GetPut(n / 256, k - 1);
      assert Put(n, k)[1..] == Put(n / 256, k - 1);
    }
  }

  lemma {:induction false} PutGet(b: Bytes)
    ensures Put(Get(b), |b|) == b && Get(b) < Pow256(|b|)
    decreases |b|
  {
    if b != [] {
      PutGet(b[1..]);
      assert (b[0] + 256 * Get(b[1..])) % 256 == b[0] && (b[0] + 256 * Get(b[1..])) / 256 == Get(b[1..]);
    }
  }

  lemma Powers()
    ensures Pow256(1) == 256 && Pow256(2) == 0x1_0000 && Pow256(4) == U32 && Pow256(8) == U64
  {
    assert Pow256(4) == 256 * (256 * Pow256(2));
    assert Pow256(8) == 256 * (256 * (256 * (256 * Pow256(4))));
  }

  /** Two's complement in 64 bits. */
  function PutSigned(x: int): (b: Bytes)
    ensures |b| == 8
  {
    Put(x % U64, 8)
  }

  function GetSigned(b: Bytes): int {
    var n := Get(b);
    if n >= U64 / 2 then n - U64 else n
  }

  lemma SignedRoundTrip(x: int)
    requires -(U64 / 2) <= x < U64 / 2
    ensures GetSigned(PutSigned(x)) == x
  {
    Powers();
    GetPut(x % U64, 8);
  }

  lemma SignedBytes(b: Bytes)
    requires |b| == 8
    ensures PutSigned(GetSigned(b)) == b && -(U64 / 2) <= GetSigned(b) < U64 / 2
  {
    Powers();
    PutGet(b);
    assert GetSigned(b) % U64 == Get(b);
  }

  // ---- messages ----

  const HEADER := 16
  const VERSION: Byte := 1
  const MAX_MESSAGE := 48

  /** The widths of the fields, as the source's types give them. */
  predicate Fits(c: Command) {
    && c.orderId < U64 && -(U64 / 2) <= c.price < U64 / 2 && c.qty < U64 && c.owner < U32 && c.symbol < U32
    && c.flags < 256 && c.seq_ < U64 && c.ts < U64
  }

  function Size(kind: MsgType): nat {
    match kind case NewOrder => 48 case Cancel => 24 case Modify => 40
  }

  function KindCode(kind: MsgType): Byte {
    match kind case NewOrder => 1 case Cancel => 2 case Modify => 3
  }

  function SideCode(s: Side): Byte { if s == Buy then 0 else 1 }
  function OrdCode(o: OrdType): Byte { if o == Limit then 0 else 1 }
  function TifCode(t: Tif): Byte { match t case Day => 0 case Ioc => 1 case Fok => 2 }

  function EncodeHeader(c: Command): (b: Bytes)
    ensures |b| == HEADER
  {
    Put(Size(c.kind), 2) + [KindCode(c.kind)] + [VERSION] + Put(c.symbol, 4) + Put(c.seq_, 8)
  }

  function EncodeBody(c: Command): (b: Bytes)
    ensures |b| == Size(c.kind) - HEADER
  {
    match c.kind
    case NewOrder =>
      var codes: Bytes := [SideCode(c.side), OrdCode(c.ordType), TifCode(c.tif), c.flags % 256];
      Put(c.orderId, 8) + PutSigned(c.price) + Put(c.qty, 8) + Put(c.owner, 4) + codes
    case Cancel => Put(c.orderId, 8)
    case Modify => Put(c.orderId, 8) + PutSigned(c.price) + Put(c.qty, 8)
  }

  function Encode(c: Command): (b: Bytes)
    ensures |b| == Size(c.kind)
  {
    EncodeHeader(c) + EncodeBody(c)
  }

  datatype DecodeResult = Ok(consumed: nat, c: Command) | Incomplete | Malformed(consumed: nat)

  /** What the wire carries of a command; the rest reads as zero. */
  function Carried(c: Command): Command {
    match c.kind
    case NewOrder => c.(ts := 0)
    case Cancel => Command(Cancel, c.orderId, 0, 0, 0, c.symbol, Buy, Limit, Day, 0, c.seq_, 0)
    case Modify => Command(Modify, c.orderId, c.price, c.qty, 0, c.symbol, Buy, Limit, Day, 0, c.seq_, 0)
  }

  function DecodeBody(kind: MsgType, b: Bytes, symbol: nat, seq_: nat): Option<Command>
    requires |b| == Size(kind) - HEADER
  {
    match kind
    case NewOrder =>
      if b[28] > 1 || b[29] > 1 || b[30] > 2 then None
      else Some(Command(NewOrder, Get(b[0..8]), GetSigned(b[8..16]), Get(b[16..24]), Get(b[24..28]), symbol,
                        if b[28] == 0 then Buy else Sell, if b[29] == 0 then Limit else Market,
                        if b[30] == 0 then Day else if b[30] == 1 then Ioc else Fok, b[31], seq_, 0))
    case Cancel => Some(Command(Cancel, Get(b[0..8]), 0, 0, 0, symbol, Buy, Limit, Day, 0, seq_, 0))
    case Modify => Some(Command(Modify, Get(b[0..8]), GetSigned(b[8..16]), Get(b[16..24]), 0, symbol, Buy, Limit, Day,
                                0, seq_, 0))
  }

  function KindOf(code: Byte): Option<MsgType> {
    if code == 1 then Some(NewOrder) else if code == 2 then Some(Cancel) else if code == 3 then Some(Modify) else None
  }

  /** Reads one message off the front of p. */
  function Decode(p: Bytes): DecodeResult {
    if |p| < HEADER then Incomplete
    else
      var length := Get(p[0..2]);
      if length < HEADER then Malformed(0)
      else if |p| < length then Incomplete
      else if p[3] != VERSION then Malformed(length)
      else match KindOf(p[2])
        case None => Malformed(length)
        case Some(kind) =>
          if length != Size(kind) then Malformed(length)
          else match DecodeBody(kind, p[HEADER..length], Get(p[4..8]), Get(p[8..16]))
            case None => Malformed(length)
            case Some(c) => Ok(length, c)
  }

  // ---- the layout, byte by byte ----

  /** The k-th base-256 digit of n, least significant first. */
  function Digit(n: nat, k: nat): Byte {
    n / Pow256(k) % 256
  }

  /** A 64-bit word's value for a signed number. */
  function Twos(x: int): nat
    requires -(U64 / 2) <= x < U64 / 2
  {
    if x >= 0 then x else x + U64
  }

  /** The `width` bytes at `at` are the digits of n, and n has no more. */
  ghost predicate FieldIs(p: Bytes, at: nat, width: nat, n: nat) {
    at + width <= |p| && n < Pow256(width) && forall k: nat :: k < width ==> p[at + k] == Digit(n, k)
  }

  lemma {:induction false} PutDigit(n: nat, width: nat, k: nat)
    requires k < width
    ensures Put(n, width)[k] == Digit(n, k)
    decreases k
  {
    if k == 0 {
      assert Pow256(0) == 1;
    } else {
      PutDigit(n / 256, width - 1, k - 1);
      var p := Pow256(k - 1);
      DivTwice(n, p);
    }
  }

  lemma DivTwice(n: nat, p: nat)
    requires p > 0
    ensures n / 256 / p == n / (256 * p)
  {
    var q, r := n / 256 / p, n / 256 % p;
    assert n / 256 == p * q + r;
    assert n == 256 * p * q + (256 * r + n % 256);
    Quotient(n, q, 256 * r + n % 256, 256 * p);
  }

  /** Digits and nothing else: a field's bytes are what Put writes. */
  lemma FieldIff(p: Bytes, at: nat, width: nat, n: nat)
    requires at + width <= |p| && n < Pow256(width)
    ensures FieldIs(p, at, width, n) <==> p[at..at + width] == Put(n, width)
  {
    forall k: nat | k < width ensures Put(n, width)[k] == Digit(n, k) && p[at..at + width][k] == p[at + k] {
      PutDigit(n, width, k);
    }
  }

  /** What the bytes of a message say, by position: length, kind and version, the fields the kind has, least
      significant byte first, and zero for those it has not. */
  ghost predicate Says(p: Bytes, c: Command) {
    && |p| >= 16
    && p[1] == 0 && p[3] == 1 && FieldIs(p, 4, 4, c.symbol) && FieldIs(p, 8, 8, c.seq_) && c.ts == 0
    && match c.kind
       case NewOrder =>
         && |p| >= 48 && p[0] == 48 && p[2] == 1
         && FieldIs(p, 16, 8, c.orderId) && SignedIs(p, 24, c.price) && FieldIs(p, 32, 8, c.qty)
         && FieldIs(p, 40, 4, c.owner)
         && p[44] <= 1 && (p[44] == 0 <==> c.side == Buy)
         && p[45] <= 1 && (p[45] == 0 <==> c.ordType == Limit)
         && p[46] <= 2 && (p[46] == 0 <==> c.tif == Day) && (p[46] == 1 <==> c.tif == Ioc)
         && p[47] == c.flags
       case Cancel =>
         && |p| >= 24 && p[0] == 24 && p[2] == 2
         && FieldIs(p, 16, 8, c.orderId) && c.price == 0 && c.qty == 0 && Unused(c)
       case Modify =>
         && |p| >= 40 && p[0] == 40 && p[2] == 3
         && FieldIs(p, 16, 8, c.orderId) && SignedIs(p, 24, c.price) && FieldIs(p, 32, 8, c.qty) && Unused(c)
  }

  ghost predicate SignedIs(p: Bytes, at: nat, x: int) {
    -(U64 / 2) <= x < U64 / 2 && FieldIs(p, at, 8, Twos(x))
  }

  predicate Unused(c: Command) {
    c.owner == 0 && c.side == Buy && c.ordType == Limit && c.tif == Day && c.flags == 0
  }

  /** Every encoded command is laid out so. */
  lemma EncodeSays(c: Command, tail: Bytes)
    requires Fits(c)
    ensures Says(Encode(c) + tail, Carried(c))
  {
    hide Put, EncodeHeader, EncodeBody, FieldIs;
    var p := Encode(c) + tail;
    Powers();
    assert Pow256(4) == U32;
    assert Put(48, 2) == [48, 0] && Put(24, 2) == [24, 0] && Put(40, 2) == [40, 0] by { SizeBytes(); }
    EncodeBytes(c, tail);
    FieldIff(p, 4, 4, c.symbol);
    FieldIff(p, 8, 8, c.seq_);
    FieldIff(p, 16, 8, c.orderId);
    if c.kind != Cancel {
      assert c.price % U64 == Twos(c.price);
      FieldIff(p, 24, 8, Twos(c.price));
      FieldIff(p, 32, 8, c.qty);
    }
    if c.kind == NewOrder {
      FieldIff(p, 40, 4, c.owner);
    }
  }

  lemma SizeBytes()
    ensures Put(48, 2) == [48, 0] && Put(24, 2) == [24, 0] && Put(40, 2) == [40, 0]
  {
    assert Put(0, 1) == [0] + Put(0, 0);
  }

  /** The encoded bytes, field by field. */
  lemma EncodeBytes(c: Command, tail: Bytes)
    ensures var p := Encode(c) + tail;
      && |p| >= Size(c.kind) && p[0..2] == Put(Size(c.kind), 2) && p[2] == KindCode(c.kind) && p[3] == VERSION
      && p[4..8] == Put(c.symbol, 4) && p[8..16] == Put(c.seq_, 8) && p[16..24] == Put(c.orderId, 8)
      && (c.kind != Cancel ==> p[24..32] == Put(c.price % U64, 8) && p[32..40] == Put(c.qty, 8))
      && (c.kind == NewOrder ==>
            && p[40..44] == Put(c.owner, 4) && p[44] == SideCode(c.side) && p[45] == OrdCode(c.ordType)
            && p[46] == TifCode(c.tif) && p[47] == c.flags % 256)
  {
    hide Put;
    var p := Encode(c) + tail;
    assert p == EncodeHeader(c) + (EncodeBody(c) + tail);
    HeaderParts(c, EncodeBody(c) + tail);
    assert p[16..] == EncodeBody(c) + tail;
    if c.kind == Cancel {
      assert p[16..24] == p[16..][0..8];
    } else {
      BodyParts(c);
      var b := EncodeBody(c);
      assert p[16..24] == b[0..8] && p[24..32] == b[8..16] && p[32..40] == b[16..24];
      if c.kind == NewOrder {
        assert p[40..44] == b[24..28] && p[44] == b[28] && p[45] == b[29] && p[46] == b[30] && p[47] == b[31];
      }
    }
  }

  lemma HeaderParts(c: Command, tail: Bytes)
    ensures var p := EncodeHeader(c) + tail;
      && p[0..2] == Put(Size(c.kind), 2) && p[2] == KindCode(c.kind) && p[3] == VERSION
      && p[4..8] == Put(c.symbol, 4) && p[8..16] == Put(c.seq_, 8) && p[16..] == tail
  {
    hide Put;
  }

  lemma FieldValues(c: Command)
    requires Fits(c)
    ensures Get(Put(c.orderId, 8)) == c.orderId && Get(Put(c.qty, 8)) == c.qty && Get(Put(c.owner, 4)) == c.owner
    ensures GetSigned(PutSigned(c.price)) == c.price
  {
    Powers();
    GetPut(c.orderId, 8);
    SignedRoundTrip(c.price);
    GetPut(c.qty, 8);
    GetPut(c.owner, 4);
  }

  lemma BodyParts(c: Command)
    requires c.kind != Cancel
    ensures var b := EncodeBody(c);
      && b[0..8] == Put(c.orderId, 8) && b[8..16] == PutSigned(c.price) && b[16..24] == Put(c.qty, 8)
      && (c.kind == NewOrder ==>
            && b[24..28] == Put(c.owner, 4) && b[28] == SideCode(c.side) && b[29] == OrdCode(c.ordType)
            && b[30] == TifCode(c.tif) && b[31] == c.flags % 256)
  {
    hide Put, PutSigned;
  }

  lemma BodyRoundTrip(c: Command)
    requires Fits(c)
    ensures DecodeBody(c.kind, EncodeBody(c), c.symbol, c.seq_) == Some(Carried(c))
  {
    hide Put, PutSigned, Get, GetSigned;
    FieldValues(c);
    if c.kind == Cancel {
      assert Put(c.orderId, 8)[0..8] == Put(c.orderId, 8);
    } else {
      hide EncodeBody;
      BodyParts(c);
    }
  }

  /** What is encoded decodes to what the wire carries of it, whatever follows. */
  lemma RoundTrip(c: Command, tail: Bytes)
    requires Fits(c)
    ensures Decode(Encode(c) + tail) == Ok(Size(c.kind), Carried(c))
  {
    hide EncodeHeader, EncodeBody, DecodeBody, Carried, Fits, Put, Get;
    var p := Encode(c) + tail;
    assert p == EncodeHeader(c) + (EncodeBody(c) + tail);
    HeaderParts(c, EncodeBody(c) + tail);
    HeaderValues(c);
    BodyRoundTrip(c);
    assert p[HEADER..Size(c.kind)] == EncodeBody(c);
  }

  lemma HeaderValues(c: Command)
    requires Fits(c)
    ensures Get(Put(Size(c.kind), 2)) == Size(c.kind) && Get(Put(c.symbol, 4)) == c.symbol
    ensures Get(Put(c.seq_, 8)) == c.seq_
  {
    Powers();
    GetPut(Size(c.kind), 2);
    GetPut(c.symbol, 4);
    GetPut(c.seq_, 8);
  }

  lemma BodyBytes(kind: MsgType, b: Bytes, symbol: nat, seq_: nat)
    requires |b| == Size(kind) - HEADER && DecodeBody(kind, b, symbol, seq_).Some?
    ensures var c := DecodeBody(kind, b, symbol, seq_).value;
      c.kind == kind && c.symbol == symbol && c.seq_ == seq_ && EncodeBody(c) == b
      && c.orderId < U64 && -(U64 / 2) <= c.price < U64 / 2 && c.qty < U64 && c.owner < U32 && c.flags < 256
      && c.ts == 0
  {
    hide Put, PutSigned, Get, GetSigned;
    Powers();
    PutGet(b[0..8]);
    if kind == Cancel {
      assert b == b[0..8];
    } else {
      SignedBytes(b[8..16]);
      PutGet(b[16..24]);
      if kind == NewOrder {
        PutGet(b[24..28]);
        assert b == b[0..8] + b[8..16] + b[16..24] + b[24..28] + [b[28], b[29], b[30], b[31]];
      } else {
        assert b == b[0..8] + b[8..16] + b[16..24];
      }
    }
  }

  /** Any accepted message re-encodes to its own bytes: no two messages mean the same command. */
  lemma AcceptedIsCanonical(p: Bytes)
    requires Decode(p).Ok?
    ensures Decode(p).consumed <= |p| && Encode(Decode(p).c) == p[..Decode(p).consumed]
    ensures Fits(Decode(p).c) && Decode(p).consumed == Size(Decode(p).c.kind)
  {
    hide DecodeBody, EncodeBody, Get, Put;
    var kind := KindOf(p[2]).value;
    var n := Size(kind);
    BodyBytes(kind, p[HEADER..n], Get(p[4..8]), Get(p[8..16]));
    Powers();
    PutGet(p[0..2]);
    PutGet(p[4..8]);
    PutGet(p[8..16]);
    assert p[..n] == p[0..2] + [p[2]] + [p[3]] + p[4..8] + p[8..16] + p[HEADER..n];
  }

  /** Two commands said by the same bytes are the same. */
  lemma {:induction false} SameDigits(p: Bytes, at: nat, width: nat, m: nat, n: nat)
    requires FieldIs(p, at, width, m) && FieldIs(p, at, width, n)
    ensures m == n
  {
    hide Put, Get, FieldIs;
    FieldFits(p, at, width, m);
    FieldFits(p, at, width, n);
    FieldIff(p, at, width, m);
    FieldIff(p, at, width, n);
    GetPut(m, width);
    GetPut(n, width);
  }

  lemma FieldFits(p: Bytes, at: nat, width: nat, n: nat)
    requires FieldIs(p, at, width, n)
    ensures at + width <= |p| && n < Pow256(width)
  {
  }

  lemma SayOne(p: Bytes, c: Command, d: Command)
    requires Says(p, c) && Says(p, d)
    ensures c == d
  {
    hide FieldIs;
    SameDigits(p, 4, 4, c.symbol, d.symbol);
    SameDigits(p, 8, 8, c.seq_, d.seq_);
    SameDigits(p, 16, 8, c.orderId, d.orderId);
    if c.kind != Cancel {
      SameDigits(p, 24, 8, Twos(c.price), Twos(d.price));
      SameDigits(p, 32, 8, c.qty, d.qty);
    }
    if c.kind == NewOrder {
      SameDigits(p, 40, 4, c.owner, d.owner);
    }
  }

  lemma SaysFits(p: Bytes, c: Command)
    requires Says(p, c)
    ensures Fits(c) && Carried(c) == c && |p| >= Size(c.kind)
  {
    Powers();
  }

  /** A field that both say is the same stretch of both. */
  lemma SameField(p: Bytes, e: Bytes, at: nat, width: nat, n: nat)
    requires FieldIs(p, at, width, n) && at + width <= |e| && e[at..at + width] == Put(n, width)
    ensures at + width <= |p| && p[at..at + width] == e[at..at + width]
  {
    FieldIff(p, at, width, n);
  }

  lemma SamePrefix(p: Bytes, e: Bytes, m: nat, n: nat)
    requires m <= n <= |p| && n <= |e| && p[..m] == e[..m] && p[m..n] == e[m..n]
    ensures p[..n] == e[..n]
  {
    assert p[..n] == p[..m] + p[m..n] && e[..n] == e[..m] + e[m..n];
  }

  /** Bytes that say a command are those its encoding writes. */
  lemma SaysEncoded(p: Bytes, c: Command)
    requires Says(p, c)
    ensures |p| >= Size(c.kind) && p == Encode(c) + p[Size(c.kind)..]
  {
    SaysFits(p, c);
    var n, e := Size(c.kind), Encode(c);
    EncodeBytes(c, []);
    assert e + [] == e;
    hide Put, FieldIs, Encode, Says;
    SaysHead(p, c, e);
    if c.kind != Cancel {
      SaysPrices(p, c, e);
    }
    if c.kind == NewOrder {
      SaysTail(p, c, e);
    }
    assert p[..n] == e[..n] == e;
    assert p == p[..n] + p[n..];
  }

  lemma SaysHead(p: Bytes, c: Command, e: Bytes)
    requires Says(p, c) && |e| >= 24
    requires e[0..2] == Put(Size(c.kind), 2) && e[2] == KindCode(c.kind) && e[3] == VERSION
    requires e[4..8] == Put(c.symbol, 4) && e[8..16] == Put(c.seq_, 8) && e[16..24] == Put(c.orderId, 8)
    ensures |p| >= 24 && p[..24] == e[..24]
  {
    hide Put, FieldIs;
    SizeBytes();
    assert p[..4] == p[0..2] + [p[2]] + [p[3]] && e[..4] == e[0..2] + [e[2]] + [e[3]] && p[0..2] == [p[0], p[1]];
    SameField(p, e, 4, 4, c.symbol);
    SamePrefix(p, e, 4, 8);
    SameField(p, e, 8, 8, c.seq_);
    SamePrefix(p, e, 8, 16);
    SameField(p, e, 16, 8, c.orderId);
    SamePrefix(p, e, 16, 24);
  }

  lemma SaysTail(p: Bytes, c: Command, e: Bytes)
    requires Says(p, c) && c.kind == NewOrder && |e| >= 48 && p[..40] == e[..40]
    requires e[40..44] == Put(c.owner, 4) && e[44] == SideCode(c.side) && e[45] == OrdCode(c.ordType)
    requires e[46] == TifCode(c.tif) && e[47] == c.flags % 256
    ensures |p| >= 48 && p[..48] == e[..48]
  {
    hide Put, FieldIs;
    SameField(p, e, 40, 4, c.owner);
    SamePrefix(p, e, 40, 44);
    assert p[44..48] == [p[44], p[45], p[46], p[47]] && e[44..48] == [e[44], e[45], e[46], e[47]];
    SamePrefix(p, e, 44, 48);
  }

  lemma SaysPrices(p: Bytes, c: Command, e: Bytes)
    requires Says(p, c) && c.kind != Cancel && |e| >= 40 && |p| >= 24
    requires e[24..32] == Put(c.price % U64, 8) && e[32..40] == Put(c.qty, 8) && p[..24] == e[..24]
    ensures |p| >= 40 && p[..40] == e[..40]
  {
    hide Put, FieldIs;
    assert c.price % U64 == Twos(c.price);
    SameField(p, e, 24, 8, Twos(c.price));
    SamePrefix(p, e, 24, 32);
    SameField(p, e, 32, 8, c.qty);
    SamePrefix(p, e, 32, 40);
  }

  /** The length a message gives itself, in its first two bytes. */
  function Length(p: Bytes): nat
    requires |p| >= 2
  {
    var low: nat, high: nat := p[0], p[1];
    low + 256 * high
  }

  /** Bytes decode to a command if and only if they say it, by position; and the message's length is the one in
      its first two bytes. */
  lemma DecodeIff(p: Bytes, c: Command, n: nat)
    ensures Decode(p) == Ok(n, c) <==> Says(p, c) && n == Length(p)
  {
    hide Decode, FieldIs;
    if Says(p, c) {
      SaysFits(p, c);
      SaysEncoded(p, c);
      RoundTrip(c, p[Size(c.kind)..]);
    }
    if Decode(p) == Ok(n, c) {
      AcceptedIsCanonical(p);
      assert p == Encode(c) + p[n..];
      AcceptedCarried(p);
      EncodeSays(c, p[n..]);
    }
  }

  lemma AcceptedCarried(p: Bytes)
    requires Decode(p).Ok?
    ensures Carried(Decode(p).c) == Decode(p).c
  {
    hide Get, GetSigned;
  }

  /** Bytes that say no command: the rest of a message is waited for, framing is lost on a length below the
      header's, and any other whole message is skipped by its length. */
  lemma DecodeElse(p: Bytes)
    ensures Decode(p).Incomplete? <==>
      |p| < 16 || (16 <= Length(p) && |p| < Length(p))
    ensures Decode(p) == Malformed(0) <==> |p| >= 16 && Length(p) < 16
    ensures Decode(p).Malformed? && Decode(p).consumed != 0 <==>
      |p| >= 16 && 16 <= Length(p) <= |p| && !exists c :: Says(p, c)
    ensures Decode(p).Malformed? && Decode(p).consumed != 0 ==> Decode(p).consumed == Length(p)
  {
    hide Says;
    DecodeLength(p);
    hide Decode;
    if exists c :: Says(p, c) {
      var c :| Says(p, c);
      SaysLong(p, c);
      DecodeIff(p, c, Length(p));
    }
    if Decode(p).Ok? {
      DecodeIff(p, Decode(p).c, Decode(p).consumed);
    }
  }

  lemma SaysLong(p: Bytes, c: Command)
    requires Says(p, c)
    ensures |p| >= 16 && 16 <= Length(p) <= |p|
  {
  }

  lemma DecodeLength(p: Bytes)
    ensures |p| >= 16 ==> Get(p[0..2]) == Length(p)
    ensures Decode(p).Incomplete? <==> |p| < 16 || (16 <= Get(p[0..2]) && |p| < Get(p[0..2]))
    ensures Decode(p) == Malformed(0) <==> |p| >= 16 && Get(p[0..2]) < 16
    ensures Decode(p).Malformed? && Decode(p).consumed != 0 ==> |p| >= 16 && Decode(p).consumed == Get(p[0..2])
  {
    hide DecodeBody;
    if |p| >= 16 {
      var b := p[0..2];
      assert b[1..][1..] == [] && b[1..][0] == p[1];
      assert Get(b[1..]) == p[1] + 256 * Get([]);
    }
  }
}
