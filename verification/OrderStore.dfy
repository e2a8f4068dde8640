/** Resting-order storage: a preallocated slab whose free slots form a list through their `next`. */
module OrderStores {
  import opened Types

  datatype Rec = Rec(
    id: nat, ts: nat, qty: nat, origQty: nat, next: nat, prev: nat, level: nat, owner: nat, side: Side, flags: nat)

  const BLANK := Rec(0, 0, 0, 0, 0, 0, 0, 0, Buy, 0)

  ghost predicate NoDup(q: seq<nat>) {
    forall i, j :: 0 <= i < j < |q| ==> q[i] != q[j]
  }

  ghost predicate InRange(q: seq<nat>, n: nat) {
    forall k :: 0 <= k < |q| ==> q[k] < n
  }

  /** The slots of q are linked forward, in order, up to NIL. */
  ghost predicate NextLinked(recs: seq<Rec>, q: seq<nat>) {
    && InRange(q, |recs|)
    && (forall k :: 0 <= k < |q| - 1 ==> recs[q[k]].next == q[k + 1])
    && (q != [] ==> recs[q[|q| - 1]].next == NIL)
  }

  function HeadOf(q: seq<nat>): nat {
    if q == [] then NIL else q[0]
  }

  function LastOf(q: seq<nat>): nat {
    if q == [] then NIL else q[|q| - 1]
  }

  class OrderStore {
    const recs: array<Rec>
    var free: nat
    var live: nat
    /** What the slab holds, and the free slots in the order they will be taken. */
    ghost var Recs: seq<Rec>
    ghost var Free: seq<nat>

    ghost predicate Valid()
      reads this, recs
    {
      && recs.Length < NIL && Recs == recs[..]
      && NextLinked(Recs, Free) && NoDup(Free)
      && free == HeadOf(Free)
      && live + |Free| == recs.Length
    }

    constructor (cap: nat)
      requires cap < NIL
      ensures Valid() && fresh(recs)
      ensures recs.Length == cap && |Recs| == cap && Free == seq(cap, i => i) && live == 0 && NextLinked(Recs, Free)
    {
      var a := new Rec[cap](_ => BLANK);
      recs := a;
      free := if cap != 0 then 0 else NIL;
      live := 0;
      Free := seq(cap, i => i);
      new;
      for i := 0 to cap
        invariant forall k :: 0 <= k < i ==> recs[k].next == if k + 1 < cap then k + 1 else NIL
        modifies recs
      {
        recs[i] := recs[i].(next := if i + 1 < cap then i + 1 else NIL);
      }
      Recs := recs[..];
    }

    function At(s: nat): (r: Rec)
      requires Valid() && s < recs.Length
      reads this, recs
      ensures s < |Recs| && r == Recs[s]
    {
      recs[s]
    }

    function All(): (r: seq<Rec>)
      requires Valid()
      reads this, recs
      ensures r == Recs
    {
      recs[..]
    }

    /** Takes the most recently freed slot, or returns NIL when none is left. */
    method Alloc() returns (s: nat)
      requires Valid()
      modifies this
      ensures Valid() && Recs == old(Recs)
      ensures s == HeadOf(old(Free))
      ensures Free == if old(Free) == [] then [] else old(Free)[1..]
      ensures s != NIL ==> s < recs.Length && s !in Free
    {
      s := free;
      if s != NIL {
        free := recs[s].next;
        live := live + 1;
        Free := Free[1..];
      }
    }

    method Release(s: nat)
      requires Valid() && s < recs.Length && s !in Free
      modifies this, recs
      ensures Valid() && Free == [s] + old(Free)
      ensures |Recs| == |old(Recs)| && s < |Recs|
      ensures Recs == old(Recs)[s := old(Recs)[s].(next := HeadOf(old(Free)))]
    {
      recs[s] := recs[s].(next := free);
      free := s;
      RoomForOneMore(Free, s, recs.Length);
      live := live - 1;
      Recs := Recs[s := Recs[s].(next := HeadOf(Free))];
      Free := [s] + Free;
    }

    /** Writes fields of a slot that is not free. */
    method Update(s: nat, r: Rec)
      requires Valid() && s < recs.Length && s !in Free
      modifies recs, `Recs
      ensures Valid() && s < |old(Recs)| && Recs == old(Recs)[s := r]
    {
      recs[s] := r;
      Recs := Recs[s := r];
    }
  }

  /** Distinct slots that leave one out do not fill the slab. */
  lemma RoomForOneMore(q: seq<nat>, s: nat, n: nat)
    requires NoDup(q) && InRange(q, n) && s < n && s !in q
    ensures |q| < n
  {
    AtMost([s] + q, n);
  }

  lemma {:induction false} AtMost(q: seq<nat>, n: nat)
    requires NoDup(q) && InRange(q, n)
    ensures |q| <= n
    decreases n
  {
    assert q != [] ==> q[0] < n;
    if n > 0 {
      if n - 1 in q {
        var k :| 0 <= k < |q| && q[k] == n - 1;
        var p := q[..k] + q[k + 1..];
        AtMost(p, n - 1);
      } else {
        AtMost(q, n - 1);
      }
    }
  }
}
