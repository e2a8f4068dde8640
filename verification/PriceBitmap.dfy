/** 64-bit words and their bits. Facts about single bits are settled in bit-vector arithmetic, one bit
    position at a time; everything above them sees words only through the functions here. */
module Words {

  datatype Word = Word(bits: bv64)

  /** A bit position inside a word, as the word that shifts use. */
  datatype Spot = Spot(at: bv64)

  const ZERO := Word(0)
  const ALL: bv64 := 0xFFFF_FFFF_FFFF_FFFF

  predicate On(s: Spot) { s.at < 64 }
  predicate SpotLe(s: Spot, t: Spot) { s.at <= t.at }
  function NextSpot(s: Spot): Spot { Spot(s.at + 1) }

  predicate HasAt(w: Word, s: Spot)
    requires On(s)
  {
    (w.bits >> s.at) & 1 == 1
  }

  function Or(v: Word, w: Word): Word { Word(v.bits | w.bits) }
  function And(v: Word, w: Word): Word { Word(v.bits & w.bits) }
  function AndNot(v: Word, w: Word): Word { Word(v.bits & !w.bits) }

  function BitAt(s: Spot): Word
    requires On(s)
  {
    Word((1 as bv64) << s.at)
  }

  function FromAt(s: Spot): Word
    requires On(s)
  {
    Word(ALL << s.at)
  }

  function UpToAt(s: Spot): Word
    requires On(s)
  {
    Word(ALL >> (63 - s.at))
  }

  predicate NoneFromAt(w: Word, s: Spot)
    requires On(s)
  {
    w.bits >> s.at == 0
  }

  // Bit-vector facts, one position each.

  lemma OrBit(v: bv64, w: bv64, p: bv64)
    requires p < 64
    ensures ((v | w) >> p) & 1 == 1 <==> (v >> p) & 1 == 1 || (w >> p) & 1 == 1
  {
  }

  lemma AtOr(v: Word, w: Word, s: Spot)
    requires On(s)
    ensures HasAt(Or(v, w), s) <==> HasAt(v, s) || HasAt(w, s)
  {
    OrBit(v.bits, w.bits, s.at);
  }

  lemma AtAnd(v: Word, w: Word, s: Spot)
    requires On(s)
    ensures HasAt(And(v, w), s) <==> HasAt(v, s) && HasAt(w, s)
  {
  }

  lemma AtAndNot(v: Word, w: Word, s: Spot)
    requires On(s)
    ensures HasAt(AndNot(v, w), s) <==> HasAt(v, s) && !HasAt(w, s)
  {
  }

  lemma AtBit(s: Spot, t: Spot)
    requires On(s) && On(t)
    ensures HasAt(BitAt(s), t) <==> s == t
  {
  }

  lemma AtFrom(s: Spot, t: Spot)
    requires On(s) && On(t)
    ensures HasAt(FromAt(s), t) <==> SpotLe(s, t)
  {
  }

  lemma AtUpTo(s: Spot, t: Spot)
    requires On(s) && On(t)
    ensures HasAt(UpToAt(s), t) <==> SpotLe(t, s)
  {
  }

  lemma AtZero(s: Spot)
    requires On(s)
    ensures !HasAt(ZERO, s)
  {
  }

  lemma AtTest(w: Word, s: Spot)
    requires On(s)
    ensures And(w, BitAt(s)) == ZERO <==> !HasAt(w, s)
  {
  }

  lemma NoneStep(w: Word, s: Spot)
    requires On(s) && On(NextSpot(s)) && !HasAt(w, s) && NoneFromAt(w, NextSpot(s))
    ensures NoneFromAt(w, s)
  {
  }

  lemma NoneEnds(w: Word)
    ensures !HasAt(w, Spot(63)) ==> NoneFromAt(w, Spot(63))
    ensures NoneFromAt(w, Spot(0)) ==> w == ZERO
  {
  }

  // Positions by number.

  function Pos(k: nat): Spot
    requires k < 64
  {
    if k == 0 then Spot(0)
    else if k % 2 == 0 then Spot(Pos(k / 2).at << 1)
    else Spot((Pos(k / 2).at << 1) | 1)
  }

  lemma {:induction false} PosBound(k: nat)
    requires k < 64
    ensures k < 32 ==> Pos(k).at < 32
    ensures k < 16 ==> Pos(k).at < 16
    ensures k < 8 ==> Pos(k).at < 8
    ensures k < 4 ==> Pos(k).at < 4
    ensures k < 2 ==> Pos(k).at < 2
    ensures On(Pos(k))
  {
    if k > 0 {
      PosBound(k / 2);
    }
  }

  lemma {:induction false} PosOrder(j: nat, k: nat)
    requires j < 64 && k < 64
    ensures Pos(j).at < Pos(k).at <==> j < k
    ensures Pos(j) == Pos(k) <==> j == k
    decreases j + k
  {
    if j > 0 || k > 0 {
      PosBound(j / 2);
      PosBound(k / 2);
      PosOrder(j / 2, k / 2);
      assert Pos(j).at == if j % 2 == 0 then Pos(j / 2).at << 1 else (Pos(j / 2).at << 1) | 1;
      assert Pos(k).at == if k % 2 == 0 then Pos(k / 2).at << 1 else (Pos(k / 2).at << 1) | 1;
      assert j < k <==> j / 2 < k / 2 || (j / 2 == k / 2 && j % 2 < k % 2);
    }
  }

  lemma PosLe(j: nat, k: nat)
    requires j < 64 && k < 64
    ensures On(Pos(j)) && On(Pos(k))
    ensures SpotLe(Pos(j), Pos(k)) <==> j <= k
    ensures Pos(j) == Pos(k) <==> j == k
  {
    hide Pos;
    PosBound(j);
    PosBound(k);
    PosOrder(j, k);
  }

  lemma PosOdd(p: bv64)
    requires p < 32
    ensures (p << 1) | 1 == (p << 1) + 1
    ensures (p + 1) << 1 == ((p << 1) | 1) + 1
  {
  }

  lemma {:induction false} PosNext(k: nat)
    requires k < 63
    ensures Pos(k + 1) == NextSpot(Pos(k))
  {
    PosBound(k / 2);
    PosOdd(Pos(k / 2).at);
    if k % 2 == 1 {
      PosNext(k / 2);
      assert (k + 1) / 2 == k / 2 + 1;
    } else {
      assert (k + 1) / 2 == k / 2;
    }
  }

  // Bits by number.

  predicate Has(w: Word, k: nat)
    requires k < 64
  {
    PosBound(k);
    HasAt(w, Pos(k))
  }

  /** 1 << k. */
  function Bit(k: nat): Word
    requires k < 64
  {
    PosBound(k);
    BitAt(Pos(k))
  }

  /** ~0 << k: the bits from k up. */
  function From(k: nat): Word
    requires k < 64
  {
    PosBound(k);
    FromAt(Pos(k))
  }

  /** ~0 >> (63 - k): the bits up to k. */
  function UpTo(k: nat): Word
    requires k < 64
  {
    PosBound(k);
    UpToAt(Pos(k))
  }

  lemma SetBit(w: Word, k: nat, j: nat)
    requires k < 64 && j < 64
    ensures Has(Or(w, Bit(k)), j) <==> k == j || Has(w, j)
    ensures Has(AndNot(w, Bit(k)), j) <==> k != j && Has(w, j)
  {
    hide Pos, HasAt, BitAt, Or, AndNot, And, On, SpotLe;
    PosLe(k, j);
    AtOr(w, Bit(k), Pos(j));
    AtAndNot(w, Bit(k), Pos(j));
    AtBit(Pos(k), Pos(j));
  }

  lemma MaskBits(w: Word, k: nat, j: nat)
    requires k < 64 && j < 64
    ensures Has(And(w, From(k)), j) <==> k <= j && Has(w, j)
    ensures Has(And(w, UpTo(k)), j) <==> j <= k && Has(w, j)
  {
    hide Pos, HasAt, FromAt, UpToAt, Or, AndNot, And, On, SpotLe;
    PosLe(k, j);
    PosLe(j, k);
    AtAnd(w, From(k), Pos(j));
    AtAnd(w, UpTo(k), Pos(j));
    AtFrom(Pos(k), Pos(j));
    AtUpTo(Pos(k), Pos(j));
  }

  lemma TestBit(w: Word, k: nat)
    requires k < 64
    ensures And(w, Bit(k)) == ZERO <==> !Has(w, k)
  {
    hide Pos, HasAt, BitAt, And, On;
    PosBound(k);
    AtTest(w, Pos(k));
  }

  lemma ZeroBit(k: nat)
    requires k < 64
    ensures !Has(ZERO, k)
  {
    hide Pos, HasAt, On;
    PosBound(k);
    AtZero(Pos(k));
  }

  lemma {:induction false} NoneFrom(w: Word, k: nat)
    requires k < 64 && forall j :: k <= j < 64 ==> !Has(w, j)
    ensures On(Pos(k)) && NoneFromAt(w, Pos(k))
    decreases 64 - k
  {
    hide HasAt, On, NoneFromAt, NextSpot;
    PosBound(k);
    assert !Has(w, k);
    if k == 63 {
      assert Pos(63) == Spot(63);
      NoneEnds(w);
    } else {
      NoneFrom(w, k + 1);
      PosNext(k);
      PosBound(k + 1);
      NoneStep(w, Pos(k));
    }
  }

  /** A word is zero exactly when it has no bit. */
  lemma ZeroIffNone(w: Word)
    ensures w == ZERO <==> forall j :: 0 <= j < 64 ==> !Has(w, j)
  {
    hide Has;
    forall j | 0 <= j < 64 && w == ZERO ensures !Has(w, j) {
      ZeroBit(j);
    }
    if forall j :: 0 <= j < 64 ==> !Has(w, j) {
      NoneFrom(w, 0);
      NoneEnds(w);
    }
  }

  function LowestFrom(w: Word, k: nat): (r: nat)
    requires k <= 64
    ensures k <= r <= 64
    ensures r < 64 ==> Has(w, r)
    ensures forall j :: k <= j < r ==> !Has(w, j)
    decreases 64 - k
  {
    if k == 64 || Has(w, k) then k else LowestFrom(w, k + 1)
  }

  function HighestBelow(w: Word, k: nat): (r: int)
    requires k <= 64
    ensures -1 <= r < k
    ensures r >= 0 ==> Has(w, r)
    ensures forall j :: r < j < k ==> !Has(w, j)
    decreases k
  {
    if k == 0 then -1 else if Has(w, k - 1) then k - 1 else HighestBelow(w, k - 1)
  }

  /** The count of trailing zeros of a non-zero word: its lowest bit. */
  function Lowest(w: Word): (r: nat)
    requires w != ZERO
    ensures r < 64 && Has(w, r)
    ensures forall j :: 0 <= j < r ==> !Has(w, j)
  {
    hide Has;
    ZeroIffNone(w);
    LowestFrom(w, 0)
  }

  /** 63 minus the count of leading zeros of a non-zero word: its highest bit. */
  function Highest(w: Word): (r: nat)
    requires w != ZERO
    ensures r < 64 && Has(w, r)
    ensures forall j :: r < j < 64 ==> !Has(w, j)
  {
    hide Has;
    ZeroIffNone(w);
    HighestBelow(w, 64)
  }
}

/** The two-level occupancy bitset over the price ladder. */
module PriceBitmaps {
  import opened Words

  /** The least member at or above i, or n. */
  ghost predicate IsNext(s: set<int>, n: int, i: int, r: int) {
    && (r == n || (r in s && i <= r))
    && forall j :: j in s && i <= j ==> r <= j
  }

  /** The greatest member at or below i, or -1. */
  ghost predicate IsPrev(s: set<int>, i: int, r: int) {
    && (r == -1 || (r in s && r <= i))
    && forall j :: j in s && j <= i ==> j <= r
  }

  ghost predicate Within(s: set<int>, n: int) {
    forall i :: i in s ==> 0 <= i < n
  }

  /** One bit per member. */
  ghost predicate Lists(words: seq<Word>, s: set<int>) {
    && Within(s, 64 * |words|)
    && forall w, k :: 0 <= w < |words| && 0 <= k < 64 ==> (Has(words[w], k) <==> 64 * w + k in s)
  }

  /** One bit per non-zero word. */
  ghost predicate Summarises(summary: seq<Word>, words: seq<Word>) {
    && |summary| == (|words| + 63) / 64
    && forall v, k :: 0 <= v < |summary| && 0 <= k < 64 ==>
         (Has(summary[v], k) <==> 64 * v + k < |words| && words[64 * v + k] != ZERO)
  }

  /** Changing one word from `old` to `new`, where bit k becomes `on`. */
  lemma ListsUpdate(words: seq<Word>, s: set<int>, w: nat, k: nat, x: Word, s': set<int>)
    requires Lists(words, s) && w < |words| && k < 64
    requires forall j :: 0 <= j < 64 && j != k ==> (Has(x, j) <==> Has(words[w], j))
    requires (s' == s + {64 * w + k} && Has(x, k)) || (s' == s - {64 * w + k} && !Has(x, k))
    ensures Lists(words[w := x], s')
  {
    hide Has, Bit, From, UpTo, Or, And, AndNot;
    var words' := words[w := x];
    forall v, j | 0 <= v < |words| && 0 <= j < 64
      ensures Has(words'[v], j) <==> 64 * v + j in s'
    {
      assert Has(words[v], j) <==> 64 * v + j in s;
    }
  }

  lemma SummaryUpdate(summary: seq<Word>, words: seq<Word>, w: nat, x: Word, y: Word)
    requires Summarises(summary, words) && w < |words|
    requires forall j :: 0 <= j < 64 && j != w % 64 ==> (Has(y, j) <==> Has(summary[w / 64], j))
    requires Has(y, w % 64) <==> x != ZERO
    ensures Summarises(summary[w / 64 := y], words[w := x])
  {
    hide Has, Bit, From, UpTo, Or, And, AndNot;
    var summary', words' := summary[w / 64 := y], words[w := x];
    forall v, k | 0 <= v < |summary| && 0 <= k < 64
      ensures Has(summary'[v], k) <==> 64 * v + k < |words| && words'[64 * v + k] != ZERO
    {
      assert Has(summary[v], k) <==> 64 * v + k < |words| && words[64 * v + k] != ZERO;
      assert 64 * v + k == w ==> v == w / 64 && k == w % 64;
    }
  }

  /** The bits of one summary word that stand for non-zero words in [lo, hi). */
  ghost predicate Marks(sm: Word, words: seq<Word>, s: nat, lo: int, hi: int) {
    forall k :: 0 <= k < 64 ==>
      (Has(sm, k) <==> lo <= 64 * s + k < hi && 64 * s + k < |words| && words[64 * s + k] != ZERO)
  }

  class PriceBitmap {
    const n: nat
    const words: array<Word>
    const summary: array<Word>
    ghost var Members: set<int>

    ghost predicate Valid()
      reads this, words, summary
    {
      && words != summary
      && 0 < n && n == 64 * words.Length
      && summary.Length == (words.Length + 63) / 64
      && Within(Members, n) && Lists(words[..], Members)
      && Summarises(summary[..], words[..])
    }

    constructor (size: nat)
      requires size > 0 && size % 64 == 0
      ensures Valid() && fresh(words) && fresh(summary) && n == size && Members == {}
    {
      hide Has, Bit, From, UpTo, Or, And, AndNot;
      n := size;
      var ws := new Word[size / 64](_ => ZERO);
      var sm := new Word[(size / 64 + 63) / 64](_ => ZERO);
      words, summary := ws, sm;
      Members := {};
      new;
      forall k: nat | k < 64 ensures !Has(ZERO, k) {
        ZeroBit(k);
      }
    }

    method Set(i: nat)
      requires Valid() && i < n
      modifies this, words, summary
      ensures Valid() && Members == old(Members) + {i as int}
    {
      hide Has, Bit, From, UpTo, Or, And, AndNot;
      var w, k := i / 64, i % 64;
      ghost var ws, sm := words[..], summary[..];
      words[w] := Or(words[w], Bit(k));
      summary[w / 64] := Or(summary[w / 64], Bit(w % 64));
      Members := Members + {i as int};
      SetFacts(ws, sm, w, k, old(Members));
      assert words[..] == ws[w := Or(ws[w], Bit(k))];
      assert summary[..] == sm[w / 64 := Or(sm[w / 64], Bit(w % 64))];
    }

    static lemma SetFacts(ws: seq<Word>, sm: seq<Word>, w: nat, k: nat, s: set<int>)
      requires Lists(ws, s) && Summarises(sm, ws) && w < |ws| && k < 64
      ensures var x := Or(ws[w], Bit(k));
        && Lists(ws[w := x], s + {64 * w + k})
        && Summarises(sm[w / 64 := Or(sm[w / 64], Bit(w % 64))], ws[w := x])
    {
      hide Has, Bit, From, UpTo, Or, And, AndNot;
      var x, y := Or(ws[w], Bit(k)), Or(sm[w / 64], Bit(w % 64));
      forall j | 0 <= j < 64
        ensures Has(x, j) <==> k == j || Has(ws[w], j)
        ensures Has(y, j) <==> w % 64 == j || Has(sm[w / 64], j)
      {
        SetBit(ws[w], k, j);
        SetBit(sm[w / 64], w % 64, j);
      }
      ListsUpdate(ws, s, w, k, x, s + {64 * w + k});
      ZeroIffNone(x);
      SummaryUpdate(sm, ws, w, x, y);
    }

    method Clear(i: nat)
      requires Valid() && i < n
      modifies this, words, summary
      ensures Valid() && Members == old(Members) - {i as int}
    {
      hide Has, Bit, From, UpTo, Or, And, AndNot;
      var w, k := i / 64, i % 64;
      ghost var ws, sm := words[..], summary[..];
      ClearFacts(ws, sm, w, k, Members);
      words[w] := AndNot(words[w], Bit(k));
      assert words[..] == ws[w := AndNot(ws[w], Bit(k))];
      if words[w] == ZERO {
        summary[w / 64] := AndNot(summary[w / 64], Bit(w % 64));
        assert summary[..] == sm[w / 64 := AndNot(sm[w / 64], Bit(w % 64))];
      }
      Members := Members - {i as int};
    }

    static lemma ClearFacts(ws: seq<Word>, sm: seq<Word>, w: nat, k: nat, s: set<int>)
      requires Lists(ws, s) && Summarises(sm, ws) && w < |ws| && k < 64
      ensures var x := AndNot(ws[w], Bit(k));
        && Lists(ws[w := x], s - {64 * w + k})
        && Summarises(if x == ZERO then sm[w / 64 := AndNot(sm[w / 64], Bit(w % 64))] else sm, ws[w := x])
    {
      hide Has, Bit, From, UpTo, Or, And, AndNot;
      var x, y := AndNot(ws[w], Bit(k)), AndNot(sm[w / 64], Bit(w % 64));
      forall j | 0 <= j < 64
        ensures Has(x, j) <==> k != j && Has(ws[w], j)
        ensures Has(y, j) <==> w % 64 != j && Has(sm[w / 64], j)
      {
        SetBit(ws[w], k, j);
        SetBit(sm[w / 64], w % 64, j);
      }
      ListsUpdate(ws, s, w, k, x, s - {64 * w + k});
      if x == ZERO {
        SummaryUpdate(sm, ws, w, x, y);
      } else {
        ZeroIffNone(x);
        ZeroIffNone(ws[w]);
        assert Has(sm[w / 64], w % 64) <==> 64 * (w / 64) + w % 64 < |ws| && ws[64 * (w / 64) + w % 64] != ZERO;
        SummaryUpdate(sm, ws, w, x, sm[w / 64]);
        assert sm[w / 64 := sm[w / 64]] == sm;
      }
    }

    method Test(i: nat) returns (on: bool)
      requires Valid() && i < n
      ensures on <==> i in Members
    {
      hide Has, Bit, From, UpTo, Or, And, AndNot;
      on := And(words[i / 64], Bit(i % 64)) != ZERO;
      TestBit(words[i / 64], i % 64);
      assert Has(words[..][i / 64], i % 64) <==> 64 * (i / 64) + i % 64 in Members;
    }

    /** The smallest member at or above i, or n if there is none; i may lie outside the ladder. */
    method FindNext(i: int) returns (r: int)
      requires Valid()
      ensures IsNext(Members, n, i, r)
    {
      hide Has, Bit, From, UpTo, Or, And, AndNot, Lists, Summarises, Marks;
      if i >= n { return n; }
      var u: nat := if i < 0 then 0 else i;
      var w := u / 64;
      var m := And(words[w], From(u % 64));
      assert words[..][w] == words[w];
      if m != ZERO {
        r := 64 * w + Lowest(m);
        NextInWord(words[..], Members, u);
        return;
      }
      NextNotInWord(words[..], Members, u);
      w := w + 1;
      if w >= words.Length { return n; }
      var s := w / 64;
      var sm := And(summary[s], From(w % 64));
      MaskedSummary(summary[..], words[..], w);
      while sm == ZERO
        invariant w / 64 <= s < summary.Length
        invariant Marks(sm, words[..], s, w, words.Length)
        invariant forall v :: w <= v < 64 * s && v < words.Length ==> words[v] == ZERO
        decreases summary.Length - s
      {
        SkipSummary(words[..], w, s, sm);
        s := s + 1;
        if s >= summary.Length {
          NextInLaterWord(words[..], Members, u, words.Length);
          return n;
        }
        sm := summary[s];
        WholeSummary(summary[..], words[..], s, w, words.Length);
      }
      LowestMarked(words[..], w, s, sm);
      w := 64 * s + Lowest(sm);
      NextInLaterWord(words[..], Members, u, w);
      r := 64 * w + Lowest(words[w]);
    }

    /** The member found in i's own word. */
    static lemma NextInWord(ws: seq<Word>, s: set<int>, u: nat)
      requires Lists(ws, s) && u / 64 < |ws| && And(ws[u / 64], From(u % 64)) != ZERO
      ensures IsNext(s, 64 * |ws|, u, 64 * (u / 64) + Lowest(And(ws[u / 64], From(u % 64))))
    {
      hide Has, Bit, From, UpTo, Or, And, AndNot;
      var w, m := u / 64, And(ws[u / 64], From(u % 64));
      var r := 64 * w + Lowest(m);
      MaskBits(ws[w], u % 64, Lowest(m));
      forall j | j in s && u <= j ensures r <= j {
        if j < 64 * w + 64 {
          MaskBits(ws[w], u % 64, j - 64 * w);
          assert Has(ws[w], j - 64 * w) <==> 64 * w + (j - 64 * w) in s;
        }
      }
    }

    static lemma NextNotInWord(ws: seq<Word>, s: set<int>, u: nat)
      requires Lists(ws, s) && u / 64 < |ws| && And(ws[u / 64], From(u % 64)) == ZERO
      ensures forall j :: j in s && u <= j ==> 64 * (u / 64) + 64 <= j
    {
      hide Has, Bit, From, UpTo, Or, And, AndNot;
      var w := u / 64;
      forall j | j in s && u <= j ensures 64 * w + 64 <= j {
        if j < 64 * w + 64 {
          assert Has(ws[w], j - 64 * w) <==> 64 * w + (j - 64 * w) in s;
          MaskBits(ws[w], u % 64, j - 64 * w);
          ZeroBit(j - 64 * w);
        }
      }
    }

    static lemma MaskedSummary(summary: seq<Word>, ws: seq<Word>, w: nat)
      requires Summarises(summary, ws) && w < |ws|
      ensures Marks(And(summary[w / 64], From(w % 64)), ws, w / 64, w, |ws|)
    {
      hide Has, Bit, From, UpTo, Or, And, AndNot;
      var sm := And(summary[w / 64], From(w % 64));
      forall k | 0 <= k < 64
        ensures Has(sm, k) <==> w <= 64 * (w / 64) + k < |ws| && ws[64 * (w / 64) + k] != ZERO
      {
        MaskBits(summary[w / 64], w % 64, k);
        assert Has(summary[w / 64], k) <==> 64 * (w / 64) + k < |ws| && ws[64 * (w / 64) + k] != ZERO;
      }
    }

    static lemma WholeSummary(summary: seq<Word>, ws: seq<Word>, s: nat, lo: int, hi: int)
      requires Summarises(summary, ws) && s < |summary| && lo <= 64 * s && (hi >= |ws| || hi >= 64 * s + 64)
      ensures Marks(summary[s], ws, s, lo, hi)
    {
      hide Has, Bit, From, UpTo, Or, And, AndNot;
    }

    static lemma SkipSummary(ws: seq<Word>, w: nat, s: nat, sm: Word)
      requires sm == ZERO
      requires Marks(sm, ws, s, w, |ws|)
      requires forall v :: w <= v < 64 * s && v < |ws| ==> ws[v] == ZERO
      ensures forall v :: w <= v < 64 * (s + 1) && v < |ws| ==> ws[v] == ZERO
    {
      hide Has, Bit, From, UpTo, Or, And, AndNot;
      forall v | w <= v < 64 * (s + 1) && v < |ws| ensures ws[v] == ZERO {
        if v >= 64 * s {
          ZeroBit(v - 64 * s);
        }
      }
    }

    static lemma LowestMarked(ws: seq<Word>, w: nat, s: nat, sm: Word)
      requires sm != ZERO && Marks(sm, ws, s, w, |ws|)
      requires forall v :: w <= v < 64 * s && v < |ws| ==> ws[v] == ZERO
      ensures var x := 64 * s + Lowest(sm);
        w <= x < |ws| && ws[x] != ZERO && forall v :: w <= v < x ==> ws[v] == ZERO
    {
      hide Has, Bit, From, UpTo, Or, And, AndNot;
      var low := Lowest(sm);
      forall v | w <= v < 64 * s + low ensures ws[v] == ZERO {
        assert v >= 64 * s ==> !Has(sm, v - 64 * s);
      }
    }

    /** Nothing at or above u lies before word w. */
    static lemma NextInLaterWord(ws: seq<Word>, s: set<int>, u: nat, w: nat)
      requires Lists(ws, s) && u / 64 < w <= |ws|
      requires forall j :: j in s && u <= j ==> 64 * (u / 64) + 64 <= j
      requires forall v :: u / 64 < v < w ==> ws[v] == ZERO
      requires w < |ws| ==> ws[w] != ZERO
      ensures IsNext(s, 64 * |ws|, u, if w == |ws| then 64 * w else 64 * w + Lowest(ws[w]))
    {
      hide Has, Bit, From, UpTo, Or, And, AndNot;
      var r := if w == |ws| then 64 * w else 64 * w + Lowest(ws[w]);
      forall j | j in s && u <= j ensures r <= j {
        var v := j / 64;
        assert Has(ws[v], j % 64) <==> 64 * v + j % 64 in s;
        ZeroBit(j % 64);
      }
    }

    /** The greatest member at or below i, or -1 if there is none; i may lie outside the ladder. */
    method FindPrev(i: int) returns (r: int)
      requires Valid()
      ensures IsPrev(Members, i, r)
    {
      hide Has, Bit, From, UpTo, Or, And, AndNot, Lists, Summarises, Marks;
      if i < 0 { return -1; }
      var u: nat := if i >= n then n - 1 else i;
      var w := u / 64;
      var m := And(words[w], UpTo(u % 64));
      assert words[..][w] == words[w];
      if m != ZERO {
        r := 64 * w + Highest(m);
        PrevInWord(words[..], Members, u);
        return;
      }
      PrevNotInWord(words[..], Members, u);
      if w == 0 { return -1; }
      w := w - 1;
      var s: int := w / 64;
      var sm := And(summary[s], UpTo(w % 64));
      MaskedSummaryDown(summary[..], words[..], w);
      while sm == ZERO
        invariant 0 <= s <= w / 64
        invariant Marks(sm, words[..], s, 0, w + 1)
        invariant forall v :: 64 * (s + 1) <= v <= w ==> words[v] == ZERO
        decreases s
      {
        SkipSummaryDown(words[..], w, s, sm);
        s := s - 1;
        if s < 0 {
          PrevInEarlierWord(words[..], Members, u, -1);
          return -1;
        }
        sm := summary[s];
        WholeSummary(summary[..], words[..], s, 0, w + 1);
      }
      HighestMarked(words[..], w, s, sm);
      w := 64 * s + Highest(sm);
      PrevInEarlierWord(words[..], Members, u, w);
      r := 64 * w + Highest(words[w]);
    }

    static lemma PrevInWord(ws: seq<Word>, s: set<int>, u: nat)
      requires Lists(ws, s) && u / 64 < |ws| && And(ws[u / 64], UpTo(u % 64)) != ZERO
      ensures IsPrev(s, u, 64 * (u / 64) + Highest(And(ws[u / 64], UpTo(u % 64))))
    {
      hide Has, Bit, From, UpTo, Or, And, AndNot;
      var w, m := u / 64, And(ws[u / 64], UpTo(u % 64));
      var r := 64 * w + Highest(m);
      MaskBits(ws[w], u % 64, Highest(m));
      forall j | j in s && j <= u ensures j <= r {
        if 64 * w <= j {
          MaskBits(ws[w], u % 64, j - 64 * w);
          assert Has(ws[w], j - 64 * w) <==> 64 * w + (j - 64 * w) in s;
        }
      }
    }

    static lemma PrevNotInWord(ws: seq<Word>, s: set<int>, u: nat)
      requires Lists(ws, s) && u / 64 < |ws| && And(ws[u / 64], UpTo(u % 64)) == ZERO
      ensures forall j :: j in s && j <= u ==> j < 64 * (u / 64)
    {
      hide Has, Bit, From, UpTo, Or, And, AndNot;
      var w := u / 64;
      forall j | j in s && j <= u ensures j < 64 * w {
        if 64 * w <= j {
          assert Has(ws[w], j - 64 * w) <==> 64 * w + (j - 64 * w) in s;
          MaskBits(ws[w], u % 64, j - 64 * w);
          ZeroBit(j - 64 * w);
        }
      }
    }

    static lemma MaskedSummaryDown(summary: seq<Word>, ws: seq<Word>, w: nat)
      requires Summarises(summary, ws) && w < |ws|
      ensures Marks(And(summary[w / 64], UpTo(w % 64)), ws, w / 64, 0, w + 1)
    {
      hide Has, Bit, From, UpTo, Or, And, AndNot;
      var sm := And(summary[w / 64], UpTo(w % 64));
      forall k | 0 <= k < 64
        ensures Has(sm, k) <==> 64 * (w / 64) + k <= w && ws[64 * (w / 64) + k] != ZERO
      {
        MaskBits(summary[w / 64], w % 64, k);
        assert Has(summary[w / 64], k) <==> 64 * (w / 64) + k < |ws| && ws[64 * (w / 64) + k] != ZERO;
      }
    }

    static lemma SkipSummaryDown(ws: seq<Word>, w: nat, s: nat, sm: Word)
      requires sm == ZERO && w < |ws|
      requires Marks(sm, ws, s, 0, w + 1)
      requires forall v :: 64 * (s + 1) <= v <= w ==> ws[v] == ZERO
      ensures forall v :: 64 * s <= v <= w ==> ws[v] == ZERO
    {
      hide Has, Bit, From, UpTo, Or, And, AndNot;
      forall v | 64 * s <= v <= w ensures ws[v] == ZERO {
        if v < 64 * (s + 1) {
          ZeroBit(v - 64 * s);
        }
      }
    }

    static lemma HighestMarked(ws: seq<Word>, w: nat, s: nat, sm: Word)
      requires sm != ZERO && w < |ws| && Marks(sm, ws, s, 0, w + 1)
      requires forall v :: 64 * (s + 1) <= v <= w ==> ws[v] == ZERO
      ensures var x := 64 * s + Highest(sm);
        x <= w && ws[x] != ZERO && forall v :: x < v <= w ==> ws[v] == ZERO
    {
      hide Has, Bit, From, UpTo, Or, And, AndNot;
      var high := Highest(sm);
      forall v | 64 * s + high < v <= w ensures ws[v] == ZERO {
        assert v < 64 * (s + 1) ==> !Has(sm, v - 64 * s);
      }
    }

    /** Nothing at or below u lies after word w, down to -1. */
    static lemma PrevInEarlierWord(ws: seq<Word>, s: set<int>, u: nat, w: int)
      requires Lists(ws, s) && -1 <= w < u / 64 < |ws|
      requires forall j :: j in s && j <= u ==> j < 64 * (u / 64)
      requires forall v :: w < v < u / 64 ==> ws[v] == ZERO
      requires w >= 0 ==> ws[w] != ZERO
      ensures IsPrev(s, u, if w < 0 then -1 else 64 * w + Highest(ws[w]))
    {
      hide Has, Bit, From, UpTo, Or, And, AndNot;
      var r := if w < 0 then -1 else 64 * w + Highest(ws[w]);
      forall j | j in s && j <= u ensures j <= r {
        var v := j / 64;
        assert Has(ws[v], j % 64) <==> 64 * v + j % 64 in s;
        ZeroBit(j % 64);
      }
    }
  }
}
