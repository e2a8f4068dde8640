/** The order-id index: open addressing with linear probing in Robin Hood order, and deletion by
    shifting back. It behaves as a finite map whatever the hash does. */
module OrderIndexes {
  import opened Types
  import opened Arithmetic

  /** One table entry; value NIL marks it empty. */
  datatype Slot = Slot(fp: nat, value: nat)

  // Cyclic arithmetic on a table of m slots.

  function Home(fp: nat, m: nat): (h: nat)
    requires m > 0
    ensures h < m
  {
    fp % m
  }

  function Step(i: nat, m: nat): (j: nat)
    requires i < m
    ensures j < m
  {
    if i + 1 == m then 0 else i + 1
  }

  function Back(i: nat, m: nat): nat
    requires i < m
  {
    if i == 0 then m - 1 else i - 1
  }

  /** How many steps lead from slot h to slot i. */
  function Ahead(h: nat, i: nat, m: nat): nat
    requires h < m && i < m
  {
    if i >= h then i - h else i + m - h
  }

  /** How far an entry with this fingerprint, at slot i, is from its home: the table's masked subtraction. */
  function Dist(i: nat, fp: nat, m: nat): (d: nat)
    requires i < m
    ensures d == (i - fp) % m
  {
    var q, h := fp / m, Home(fp, m);
    var d := Ahead(h, i, m);
    assert fp == m * q + h;
    assert i - fp == m * (if i >= h then -q else -q - 1) + d;
    Quotient(i - fp, if i >= h then -q else -q - 1, d, m);
    d
  }

  // Tables as values: entries, the key of each occupied entry, and where each key sits.

  predicate Full(t: seq<Slot>, i: nat)
    requires i < |t|
  {
    t[i].value != NIL
  }

  function DistAt(t: seq<Slot>, i: nat): nat
    requires i < |t|
  {
    Dist(i, t[i].fp, |t|)
  }

  /** Robin Hood order at slot i: an entry away from home follows one at most a step closer. */
  ghost predicate OrderedAt(t: seq<Slot>, i: nat)
    requires i < |t|
  {
    Full(t, i) && DistAt(t, i) > 0 ==>
      Full(t, Back(i, |t|)) && DistAt(t, i) <= DistAt(t, Back(i, |t|)) + 1
  }

  ghost predicate Ordered(t: seq<Slot>) {
    forall i :: 0 <= i < |t| ==> OrderedAt(t, i)
  }

  /** Every entry but the one at `except` is where `at` says, with its key's fingerprint and value. */
  ghost predicate Holds(t: seq<Slot>, keys: seq<nat>, at: map<nat, nat>, m: map<nat, nat>, hash: nat -> nat,
                        except: int) {
    && |keys| == |t|
    && (forall i :: 0 <= i < |t| && i != except && Full(t, i) ==> keys[i] in at && at[keys[i]] == i)
    && (forall k :: k in at ==> at[k] < |t| && at[k] != except && Full(t, at[k]) && keys[at[k]] == k)
    && (forall k :: k in at ==> k in m && t[at[k]] == Slot(hash(k), m[k]))
  }

  /** Walking back from an entry to its home, every slot is occupied and at least as far from its home
      as the walk has left to go. */
  lemma {:induction false} ProbePath(t: seq<Slot>, p: nat, i: nat)
    requires Ordered(t) && p < |t| && i < |t| && Full(t, p)
    requires Ahead(i, p, |t|) <= DistAt(t, p)
    ensures Full(t, i) && DistAt(t, i) + Ahead(i, p, |t|) >= DistAt(t, p)
    decreases Ahead(i, p, |t|)
  {
    if i != p {
      assert OrderedAt(t, p);
      ProbePath(t, Back(p, |t|), i);
    }
  }

  /** An entry never sits past an empty slot. */
  lemma EmptyIsBefore(t: seq<Slot>, p: nat, e: nat)
    requires Ordered(t) && p < |t| && e < |t| && Full(t, p) && !Full(t, e)
    ensures DistAt(t, p) < Ahead(e, p, |t|)
  {
    if Ahead(e, p, |t|) <= DistAt(t, p) {
      ProbePath(t, p, e);
    }
  }

  // Inserting.

  /** An entry of distance d may be put at slot i without breaking the order there. */
  ghost predicate Fits(t: seq<Slot>, i: nat, d: nat)
    requires i < |t|
  {
    d > 0 ==> Full(t, Back(i, |t|)) && d <= DistAt(t, Back(i, |t|)) + 1
  }

  lemma PutOrdered(t: seq<Slot>, i: nat, cur: Slot)
    requires Ordered(t) && |t| >= 3 && i < |t| && cur.value != NIL
    requires Fits(t, i, Dist(i, cur.fp, |t|))
    requires Full(t, i) ==> DistAt(t, i) < Dist(i, cur.fp, |t|)
    ensures Ordered(t[i := cur])
  {
    var u := t[i := cur];
    forall j | 0 <= j < |u| ensures OrderedAt(u, j) {
      assert OrderedAt(t, j);
    }
  }

  /** The displaced entry, or the one passed over, fits at the next slot or later. */
  lemma NextFits(t: seq<Slot>, i: nat, fp: nat, e: nat)
    requires Ordered(t) && i < |t| && e < |t| && Full(t, i) && !Full(t, e)
    requires Fits(t, i, Dist(i, fp, |t|))
    requires Dist(i, fp, |t|) <= DistAt(t, i)
    ensures Dist(Step(i, |t|), fp, |t|) == Dist(i, fp, |t|) + 1
    ensures Fits(t, Step(i, |t|), Dist(Step(i, |t|), fp, |t|))
    ensures Ahead(Step(i, |t|), e, |t|) < Ahead(i, e, |t|)
  {
    EmptyIsBefore(t, i, e);
  }

  lemma PutHolds(t: seq<Slot>, keys: seq<nat>, at: map<nat, nat>, m: map<nat, nat>, hash: nat -> nat, i: nat, k: nat)
    requires Holds(t, keys, at, m, hash, -1) && i < |t| && k !in at && k in m && m[k] != NIL
    ensures var at0 := if Full(t, i) then at - {keys[i]} else at;
      Holds(t[i := Slot(hash(k), m[k])], keys[i := k], at0[k := i], m, hash, -1)
  {
  }

  /** A table while an entry for curKey is on its way in, about to probe slot i; e stays empty. */
  ghost predicate Carrying(t: seq<Slot>, keys: seq<nat>, at: map<nat, nat>, m: map<nat, nat>, hash: nat -> nat,
                           curKey: nat, i: nat, e: nat) {
    && |t| >= 3 && i < |t| && e < |t| && !Full(t, e)
    && Ordered(t) && Holds(t, keys, at, m, hash, -1)
    && curKey in m && m[curKey] != NIL && at.Keys == m.Keys - {curKey}
    && Fits(t, i, Dist(i, hash(curKey), |t|))
  }

  lemma CarryStart(t: seq<Slot>, keys: seq<nat>, at: map<nat, nat>, m: map<nat, nat>, hash: nat -> nat, key: nat,
                   value: nat, e: nat)
    requires |t| >= 3 && e < |t| && !Full(t, e) && Ordered(t) && Holds(t, keys, at, m, hash, -1)
    requires at.Keys == m.Keys && key !in m && value != NIL
    ensures Carrying(t, keys, at, m[key := value], hash, key, Home(hash(key), |t|), e)
    ensures Dist(Home(hash(key), |t|), hash(key), |t|) == 0
  {
  }

  /** The entry at i is at least as far from home: it keeps its slot. */
  lemma CarryPass(t: seq<Slot>, keys: seq<nat>, at: map<nat, nat>, m: map<nat, nat>, hash: nat -> nat, curKey: nat,
                  i: nat, e: nat)
    requires Carrying(t, keys, at, m, hash, curKey, i, e)
    requires Full(t, i) && Dist(i, hash(curKey), |t|) <= DistAt(t, i)
    ensures Carrying(t, keys, at, m, hash, curKey, Step(i, |t|), e)
    ensures Dist(Step(i, |t|), hash(curKey), |t|) == Dist(i, hash(curKey), |t|) + 1
    ensures Ahead(Step(i, |t|), e, |t|) < Ahead(i, e, |t|)
  {
    NextFits(t, i, hash(curKey), e);
  }

  /** The entry at i is closer to home: it gives up its slot and is carried on. */
  lemma CarrySwap(t: seq<Slot>, keys: seq<nat>, at: map<nat, nat>, m: map<nat, nat>, hash: nat -> nat, curKey: nat,
                  i: nat, e: nat)
    requires Carrying(t, keys, at, m, hash, curKey, i, e)
    requires Full(t, i) && DistAt(t, i) < Dist(i, hash(curKey), |t|)
    ensures i < |keys| && keys[i] in m && t[i] == Slot(hash(keys[i]), m[keys[i]])
    ensures var t' := t[i := Slot(hash(curKey), m[curKey])];
      && Carrying(t', keys[i := curKey], (at - {keys[i]})[curKey := i], m, hash, keys[i], i, e)
      && Full(t', i) && Dist(i, hash(keys[i]), |t'|) <= DistAt(t', i)
  {
    PutOrdered(t, i, Slot(hash(curKey), m[curKey]));
    PutHolds(t, keys, at, m, hash, i, curKey);
    assert OrderedAt(t, i);
  }

  /** The slot at i is empty: the carried entry settles there. */
  lemma CarryPut(t: seq<Slot>, keys: seq<nat>, at: map<nat, nat>, m: map<nat, nat>, hash: nat -> nat, curKey: nat,
                 i: nat, e: nat)
    requires Carrying(t, keys, at, m, hash, curKey, i, e) && !Full(t, i)
    ensures var t' := t[i := Slot(hash(curKey), m[curKey])];
      && i < |keys|
      && Ordered(t') && Holds(t', keys[i := curKey], at[curKey := i], m, hash, -1) && at[curKey := i].Keys == m.Keys
  {
    PutOrdered(t, i, Slot(hash(curKey), m[curKey]));
    PutHolds(t, keys, at, m, hash, i, curKey);
  }

  // Deleting by shifting back.

  /** Slot `hole` holds a stale copy; the entry after it is not at home and moves into the hole. */
  lemma ShiftOrdered(t: seq<Slot>, hole: nat)
    requires Ordered(t) && |t| >= 3 && hole < |t| && Full(t, hole)
    requires var j := Step(hole, |t|); Full(t, j) && DistAt(t, j) != 0
    ensures Ordered(t[hole := t[Step(hole, |t|)]])
  {
    var j := Step(hole, |t|);
    var u := t[hole := t[j]];
    assert OrderedAt(t, j) && OrderedAt(t, hole);
    forall i | 0 <= i < |u| ensures OrderedAt(u, i) {
      assert OrderedAt(t, i);
    }
  }

  lemma ShiftHolds(t: seq<Slot>, keys: seq<nat>, at: map<nat, nat>, m: map<nat, nat>, hash: nat -> nat, hole: nat)
    requires |t| >= 3 && hole < |t| && Holds(t, keys, at, m, hash, hole) && Full(t, Step(hole, |t|))
    ensures var j := Step(hole, |t|);
      Holds(t[hole := t[j]], keys[hole := keys[j]], at[keys[j] := hole], m, hash, j)
  {
    var j := Step(hole, |t|);
    var at', t', keys' := at[keys[j] := hole], t[hole := t[j]], keys[hole := keys[j]];
    assert keys[j] in at && at[keys[j]] == j;
    forall k | k in at' ensures at'[k] < |t| && at'[k] != j && Full(t', at'[k]) && keys'[at'[k]] == k {
      if k != keys[j] {
        assert k in at && at[k] != hole && keys[at[k]] == k;
      }
    }
    forall k | k in at' ensures k in m && t'[at'[k]] == Slot(hash(k), m[k]) {
      assert k in at;
    }
  }

  lemma ClearOrdered(t: seq<Slot>, hole: nat)
    requires Ordered(t) && |t| >= 3 && hole < |t|
    requires var j := Step(hole, |t|); Full(t, j) ==> DistAt(t, j) == 0
    ensures Ordered(t[hole := t[hole].(value := NIL)])
  {
    var u := t[hole := t[hole].(value := NIL)];
    forall i | 0 <= i < |u| ensures OrderedAt(u, i) {
      assert OrderedAt(t, i);
    }
  }

  /** A table while the slot `hole` waits to be filled by what follows it. */
  ghost predicate Shifting(t: seq<Slot>, keys: seq<nat>, at: map<nat, nat>, m: map<nat, nat>, hash: nat -> nat,
                           hole: nat, e: nat) {
    && |t| >= 3 && hole < |t| && e < |t| && !Full(t, e)
    && Ordered(t) && Full(t, hole) && Holds(t, keys, at, m, hash, hole) && at.Keys == m.Keys
  }

  lemma ShiftStart(t: seq<Slot>, keys: seq<nat>, at: map<nat, nat>, m: map<nat, nat>, hash: nat -> nat, key: nat,
                   e: nat)
    requires |t| >= 3 && e < |t| && !Full(t, e) && Ordered(t) && Holds(t, keys, at, m, hash, -1)
    requires at.Keys == m.Keys && key in m
    ensures Shifting(t, keys, at - {key}, m - {key}, hash, at[key], e)
  {
  }

  lemma ShiftBack(t: seq<Slot>, keys: seq<nat>, at: map<nat, nat>, m: map<nat, nat>, hash: nat -> nat, hole: nat,
                  e: nat)
    requires Shifting(t, keys, at, m, hash, hole, e)
    requires var j := Step(hole, |t|); Full(t, j) && DistAt(t, j) != 0
    ensures var j := Step(hole, |t|);
      && j < |keys| && hole < |keys|
      && Shifting(t[hole := t[j]], keys[hole := keys[j]], at[keys[j] := hole], m, hash, j, e)
      && Ahead(Step(j, |t|), e, |t|) < Ahead(j, e, |t|)
  {
    var j := Step(hole, |t|);
    ShiftOrdered(t, hole);
    ShiftHolds(t, keys, at, m, hash, hole);
    assert keys[j] in at;
    assert at[keys[j] := hole].Keys == at.Keys;
  }

  lemma ShiftEnd(t: seq<Slot>, keys: seq<nat>, at: map<nat, nat>, m: map<nat, nat>, hash: nat -> nat, hole: nat, e: nat)
    requires hole < |t| && Shifting(t, keys, at, m, hash, hole, e)
    requires var j := Step(hole, |t|); Full(t, j) ==> DistAt(t, j) == 0
    ensures var t' := t[hole := t[hole].(value := NIL)];
      Ordered(t') && Holds(t', keys, at, m, hash, -1) && at.Keys == m.Keys
  {
    ClearOrdered(t, hole);
  }

  // Probing.

  /** A probe for `key` that has come to slot i without passing the key; e is empty. */
  ghost predicate Probing(t: seq<Slot>, keys: seq<nat>, at: map<nat, nat>, m: map<nat, nat>, hash: nat -> nat, key: nat,
                          i: nat, e: nat) {
    && i < |t| && e < |t| && !Full(t, e)
    && Ordered(t) && Holds(t, keys, at, m, hash, -1) && at.Keys == m.Keys
    && (key in at ==> Dist(i, hash(key), |t|) <= DistAt(t, at[key]))
    && Dist(i, hash(key), |t|) <= Dist(e, hash(key), |t|)
  }

  lemma ProbeStart(t: seq<Slot>, keys: seq<nat>, at: map<nat, nat>, m: map<nat, nat>, hash: nat -> nat, key: nat,
                   e: nat)
    requires e < |t| && !Full(t, e) && Ordered(t) && Holds(t, keys, at, m, hash, -1) && at.Keys == m.Keys
    ensures Probing(t, keys, at, m, hash, key, Home(hash(key), |t|), e)
    ensures Dist(Home(hash(key), |t|), hash(key), |t|) == 0
  {
  }

  /** An empty slot, or an entry closer to its home than the probe is, proves the key absent. */
  lemma ProbeMiss(t: seq<Slot>, keys: seq<nat>, at: map<nat, nat>, m: map<nat, nat>, hash: nat -> nat, key: nat, i: nat,
                  e: nat)
    requires Probing(t, keys, at, m, hash, key, i, e)
    requires !Full(t, i) || DistAt(t, i) < Dist(i, hash(key), |t|)
    ensures key !in m
  {
    if key in at {
      ProbePath(t, at[key], i);
    }
  }

  /** What an occupied slot says about its key. */
  lemma ProbeEntry(t: seq<Slot>, keys: seq<nat>, at: map<nat, nat>, m: map<nat, nat>, hash: nat -> nat, key: nat,
                   i: nat, e: nat)
    requires Probing(t, keys, at, m, hash, key, i, e) && Full(t, i)
    ensures i < |keys| && keys[i] in m && keys[i] in at && at[keys[i]] == i && t[i] == Slot(hash(keys[i]), m[keys[i]])
  {
  }

  lemma ProbeOn(t: seq<Slot>, keys: seq<nat>, at: map<nat, nat>, m: map<nat, nat>, hash: nat -> nat, key: nat, i: nat,
                e: nat)
    requires Probing(t, keys, at, m, hash, key, i, e) && Full(t, i) && i < |keys| && keys[i] != key
    ensures Probing(t, keys, at, m, hash, key, Step(i, |t|), e)
    ensures Dist(Step(i, |t|), hash(key), |t|) == Dist(i, hash(key), |t|) + 1
    ensures Dist(i, hash(key), |t|) < Dist(e, hash(key), |t|)
  {
    if key in at {
      assert at[key] != i;
    }
  }

  // Room.

  /** As long as there are fewer keys than slots, some slot is empty. */
  lemma {:induction false} SomeEmpty(t: seq<Slot>, keys: seq<nat>, at: map<nat, nat>, m: map<nat, nat>,
                                     hash: nat -> nat) returns (e: nat)
    requires Holds(t, keys, at, m, hash, -1) && |at| < |t|
    ensures e < |t| && !Full(t, e)
  {
    if forall i :: 0 <= i < |t| ==> Full(t, i) {
      PrefixKeys(keys, at, |t|);
      assert (set i | 0 <= i < |t| :: keys[i]) <= at.Keys;
      SubsetSize(set i | 0 <= i < |t| :: keys[i], at.Keys);
    }
    e :| e < |t| && !Full(t, e);
  }

  lemma {:induction false} PrefixKeys(keys: seq<nat>, at: map<nat, nat>, n: nat)
    requires n <= |keys| && forall i :: 0 <= i < n ==> keys[i] in at && at[keys[i]] == i
    ensures |set i | 0 <= i < n :: keys[i]| == n
  {
    if n > 0 {
      PrefixKeys(keys, at, n - 1);
      var a, b := set i | 0 <= i < n - 1 :: keys[i], set i | 0 <= i < n :: keys[i];
      assert keys[n - 1] !in a;
      assert b == a + {keys[n - 1]};
    }
  }

  lemma {:induction false} SubsetSize<T>(a: set<T>, b: set<T>)
    requires a <= b
    ensures |a| <= |b|
    decreases a
  {
    if a != {} {
      var x :| x in a;
      SubsetSize(a - {x}, b - {x});
    }
  }

  lemma OneLess(m: map<nat, nat>, k: nat)
    requires k in m
    ensures |m - {k}| == |m| - 1
  {
    assert m.Keys == (m - {k}).Keys + {k};
    assert |m.Keys| == |m| && |(m - {k}).Keys| == |m - {k}|;
  }

  /** The least power of two at or above x. */
  function BitCeil(x: nat, from: nat := 1): (p: nat)
    requires from > 0
    ensures p >= x && p >= from
    decreases x - from
  {
    if from >= x then from else BitCeil(x, 2 * from)
  }

  /** The number of slots: the mask is one less than a power of two, cut to 32 bits. */
  function TableSize(max: nat): (m: nat)
    ensures m > 0
  {
    (BitCeil(if 2 * max > 16 then 2 * max else 16) - 1) % 0x1_0000_0000 + 1
  }

  /** Rounding up gives a power of two, and less than twice the number. */
  lemma {:induction false} CeilPower(x: nat, a: nat) returns (b: nat)
    ensures b >= a && BitCeil(x, Pow2(a)) == Pow2(b) && (b > a ==> x > Pow2(b - 1))
    decreases x - Pow2(a)
  {
    if Pow2(a) >= x {
      b := a;
    } else {
      b := CeilPower(x, a + 1);
    }
  }

  lemma TableFits(max: nat)
    requires max < NIL
    ensures TableSize(max) > max && TableSize(max) >= 16 && (max <= 0x8000_0000 ==> TableSize(max) >= 2 * max)
  {
    hide BitCeil, Pow2;
    var x := if 2 * max > 16 then 2 * max else 16;
    var b := CeilPower(x, 0);
    var p := BitCeil(x);
    Pow2Word();
    if b < 32 {
      Pow2Grows(b, 32);
    } else if b > 33 {
      if b - 1 > 33 { Pow2Grows(33, b - 1); }
      assert false;
    }
  }

  function Log2(p: nat): nat {
    if p <= 1 then 0 else 1 + Log2(p / 2)
  }

  /** The locality hash: the id folded with the bits above the table size, in 32 bits. */
  function LocalityHash(key: nat, bits: nat): nat
  {
    var k := (key % U64) as bv64;
    ((k ^ (k >> (bits % 64))) & 0xFFFF_FFFF) as nat
  }

  class OrderIndex {
    const maxEntries: nat
    const hash: nat -> nat
    const slots: array<Slot>
    var size: nat
    ghost var Keys: seq<nat>
    ghost var At: map<nat, nat>
    /** What the index means: order id to store slot. */
    ghost var Entries: map<nat, nat>

    ghost predicate Valid()
      reads this, slots
    {
      && slots.Length >= 3 && maxEntries < slots.Length
      && Ordered(slots[..])
      && Holds(slots[..], Keys, At, Entries, hash, -1)
      && At.Keys == Entries.Keys && |Entries| <= maxEntries && size == |Entries|
    }

    /** A table of at least twice as many slots as entries; the 32-bit mask stops it at 2^32 slots, which
        still leaves one empty. */
    constructor (max: nat, fingerprint: nat -> nat)
      requires max < NIL
      ensures Valid() && fresh(slots) && Entries == map[] && maxEntries == max
      ensures slots.Length == TableSize(max) > max && (max <= 0x8000_0000 ==> slots.Length >= 2 * max)
    {
      TableFits(max);
      var m := TableSize(max);
      var a := new Slot[m](_ => Slot(0, NIL));
      maxEntries, hash, slots, size := max, fingerprint, a, 0;
      Keys, At, Entries := seq(m, _ => 0), map[], map[];
    }

    ghost predicate Knows(keyOf: nat -> nat)
      reads this
    {
      forall k :: k in Entries ==> keyOf(Entries[k]) == k
    }

    lemma Empty() returns (e: nat)
      requires Valid()
      ensures e < slots.Length && !Full(slots[..], e)
    {
      assert |At.Keys| == |At| && |Entries.Keys| == |Entries|;
      e := SomeEmpty(slots[..], Keys, At, Entries, hash);
    }

    /** The slot index of an entry, or the table's length if the key is absent. */
    method Probe(key: nat, keyOf: nat -> nat) returns (i: nat)
      requires Valid() && Knows(keyOf)
      ensures if key in Entries then i < slots.Length && key in At && At[key] == i && slots[i].value == Entries[key]
              else i == slots.Length
    {
      hide Ordered, Holds, Probing, Step, Home, Ahead;
      ghost var e := Empty();
      ghost var t := slots[..];
      var fp, d: nat := hash(key), 0;
      i := Home(fp, slots.Length);
      ProbeStart(t, Keys, At, Entries, hash, key, e);
      while true
        invariant i < slots.Length && d == Dist(i, fp, slots.Length)
        invariant Probing(t, Keys, At, Entries, hash, key, i, e)
        decreases Dist(e, fp, slots.Length) - d
      {
        var s := slots[i];
        assert t[i] == s;
        if s.value == NIL || Dist(i, s.fp, slots.Length) < d {
          ProbeMiss(t, Keys, At, Entries, hash, key, i, e);
          return slots.Length;
        }
        ProbeEntry(t, Keys, At, Entries, hash, key, i, e);
        if s.fp == fp && keyOf(s.value) == key {
          return;
        }
        ProbeOn(t, Keys, At, Entries, hash, key, i, e);
        i, d := Step(i, slots.Length), d + 1;
      }
    }

    /** The store slot holding `key`, or NIL. */
    method Find(key: nat, keyOf: nat -> nat) returns (r: nat)
      requires Valid() && Knows(keyOf)
      ensures r == if key in Entries then Entries[key] else NIL
    {
      var i := Probe(key, keyOf);
      r := if i < slots.Length then slots[i].value else NIL;
    }

    method Insert(key: nat, value: nat)
      requires Valid() && key !in Entries && size < maxEntries && value != NIL
      modifies this, slots
      ensures Valid() && Entries == old(Entries)[key := value]
    {
      hide Ordered, Holds, Carrying, Step, Home, Ahead;
      ghost var e := Empty();
      ghost var curKey := key;
      var cur := Slot(hash(key), value);
      CarryStart(slots[..], Keys, At, Entries, hash, key, value, e);
      Entries := Entries[key := value];
      var i: nat, d: nat := Home(cur.fp, slots.Length), 0;
      while slots[i].value != NIL
        invariant i < slots.Length && d == Dist(i, cur.fp, slots.Length) && e < slots.Length
        invariant Entries == old(Entries)[key := value]
        invariant curKey in Entries && cur == Slot(hash(curKey), Entries[curKey])
        invariant Carrying(slots[..], Keys, At, Entries, hash, curKey, i, e)
        modifies slots, `Keys, `At
        decreases Ahead(i, e, slots.Length)
      {
        ghost var t := slots[..];
        assert t[i] == slots[i];
        var sd := Dist(i, slots[i].fp, slots.Length);
        if sd < d {
          CarrySwap(t, Keys, At, Entries, hash, curKey, i, e);
          ghost var k := Keys[i];
          cur, slots[i] := slots[i], cur;
          At := (At - {k})[curKey := i];
          Keys := Keys[i := curKey];
          curKey := k;
          d := sd;
          assert slots[..] == t[i := slots[i]];
        }
        CarryPass(slots[..], Keys, At, Entries, hash, curKey, i, e);
        i, d := Step(i, slots.Length), d + 1;
      }
      ghost var t := slots[..];
      CarryPut(t, Keys, At, Entries, hash, curKey, i, e);
      slots[i] := cur;
      assert slots[..] == t[i := cur];
      At := At[curKey := i];
      Keys := Keys[i := curKey];
      size := size + 1;
    }

    /** Moves each entry after the hole that is not at home one slot back; returns where the hole ends. */
    method ShiftRun(from: nat, ghost entries: map<nat, nat>, ghost e: nat) returns (hole: nat)
      requires Shifting(slots[..], Keys, At, entries, hash, from, e)
      modifies slots, `Keys, `At
      ensures hole < slots.Length && Shifting(slots[..], Keys, At, entries, hash, hole, e)
      ensures var t, j := slots[..], Step(hole, slots.Length); Full(t, j) ==> DistAt(t, j) == 0
    {
      hide Ordered, Holds, Step, Home, Ahead, Dist;
      hole := from;
      var j: nat := Step(hole, slots.Length);
      while slots[j].value != NIL && Dist(j, slots[j].fp, slots.Length) != 0
        invariant hole < slots.Length && j < slots.Length && j == Step(hole, slots.Length)
        invariant Shifting(slots[..], Keys, At, entries, hash, hole, e)
        decreases Ahead(j, e, slots.Length)
      {
        ghost var t := slots[..];
        ShiftBack(t, Keys, At, entries, hash, hole, e);
        slots[hole] := slots[j];
        At := At[Keys[j] := hole];
        Keys := Keys[hole := Keys[j]];
        assert slots[..] == t[hole := t[j]];
        hole := j;
        j := Step(j, slots.Length);
      }
    }

    /** Backward-shift deletion of the entry at `from`. */
    method RemoveAt(from: nat, ghost key: nat)
      requires Valid() && key in Entries && key in At && from < slots.Length && At[key] == from
      modifies this, slots
      ensures Valid() && Entries == old(Entries) - {key}
    {
      hide Ordered, Holds, Shifting, Step, Home, Ahead, Dist;
      ghost var e := Empty();
      ghost var entries := Entries - {key};
      ShiftStart(slots[..], Keys, At, Entries, hash, key, e);
      OneLess(Entries, key);
      At := At - {key};
      var hole := ShiftRun(from, entries, e);
      ghost var t := slots[..];
      ShiftEnd(t, Keys, At, entries, hash, hole, e);
      slots[hole] := slots[hole].(value := NIL);
      assert slots[..] == t[hole := t[hole].(value := NIL)];
      Entries := entries;
      size := size - 1;
    }

    /** Removes an entry whose store slot is already known; no key is verified. */
    method EraseKnown(key: nat, value: nat)
      requires Valid() && key in Entries && Entries[key] == value
      requires forall k :: k in Entries && Entries[k] == value ==> k == key
      modifies this, slots
      ensures Valid() && Entries == old(Entries) - {key}
    {
      hide Ordered, Holds, Probing, Step, Home, Ahead;
      ghost var e := Empty();
      ghost var t := slots[..];
      var i: nat := Home(hash(key), slots.Length);
      ProbeStart(t, Keys, At, Entries, hash, key, e);
      while slots[i].value != value
        invariant i < slots.Length
        invariant Probing(t, Keys, At, Entries, hash, key, i, e)
        modifies {}
        decreases Dist(e, hash(key), slots.Length) - Dist(i, hash(key), slots.Length)
      {
        assert t[i] == slots[i];
        KnownAhead(t, Keys, At, Entries, hash, key, i, e);
        ProbeOn(t, Keys, At, Entries, hash, key, i, e);
        i := Step(i, slots.Length);
      }
      assert t[i] == slots[i];
      KnownAhead(t, Keys, At, Entries, hash, key, i, e);
      RemoveAt(i, key);
    }

    /** On the way to a present key every slot is occupied, and only the key's own holds its value. */
    static lemma KnownAhead(t: seq<Slot>, keys: seq<nat>, at: map<nat, nat>, m: map<nat, nat>, hash: nat -> nat,
                            key: nat, i: nat, e: nat)
      requires Probing(t, keys, at, m, hash, key, i, e) && key in m
      requires forall k :: k in m && m[k] == m[key] ==> k == key
      ensures Full(t, i) && i < |keys| && key in at
      ensures t[i].value == m[key] <==> keys[i] == key
      ensures t[i].value == m[key] ==> at[key] == i
    {
      if !Full(t, i) {
        ProbeMiss(t, keys, at, m, hash, key, i, e);
      }
      ProbeEntry(t, keys, at, m, hash, key, i, e);
    }

    /** Looks up and removes a key; its store slot, or NIL if it is absent. */
    method Erase(key: nat, keyOf: nat -> nat) returns (r: nat)
      requires Valid() && Knows(keyOf)
      modifies this, slots
      ensures Valid()
      ensures if key in old(Entries) then r == old(Entries)[key] && Entries == old(Entries) - {key}
              else r == NIL && Entries == old(Entries)
    {
      var i := Probe(key, keyOf);
      if i == slots.Length {
        return NIL;
      }
      r := slots[i].value;
      RemoveAt(i, key);
    }
  }
}
