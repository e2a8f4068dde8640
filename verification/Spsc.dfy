/** The single-producer single-consumer ring, at the grain of single loads and stores. A load of the other
    side's index may return any value it has held since this side last looked. */
module Spsc {
  import opened Arithmetic

  /** Where the producer is in a push of `value`: about to check for room, to write its slot, or to publish. */
  datatype Producer<T> = Idle | Checking(value: T) | Writing(value: T) | Publishing(value: T)

  /** Where the consumer is: holding nothing, looking for an element, holding the front in place, or having
      read it and not yet given its slot back. */
  datatype Consumer<T> = Away | Looking | Holding | Taken(value: T)

  /** The indices run freely; `tail` and `headCache` are the producer's, `head` and `tailCache` the
      consumer's. `pushed` and `popped` are what each side has done. */
  datatype Ring<T> = Ring(
    slots: seq<T>, tail: nat, headCache: nat, head: nat, tailCache: nat,
    producer: Producer<T>, consumer: Consumer<T>, pushed: seq<T>, popped: seq<T>)

  datatype Step<T> =
    | StartPush(value: T)
    | HaveRoom
    | ReadHead(seen: nat)
    | WriteSlot
    | Publish
    | StartFront
    | HaveElement
    | ReadTail(seen: nat)
    | Prefetch(ahead: nat)
    | Take
    | Pop

  function Init<T>(capacity: nat, blank: T): Ring<T> {
    Ring(seq(capacity, _ => blank), 0, 0, 0, 0, Idle, Away, [], [])
  }

  function Capacity<T>(r: Ring<T>): nat {
    |r.slots|
  }

  /** Which step each side may take next; the two interleave freely. */
  predicate Can<T>(r: Ring<T>, s: Step<T>) {
    match s
    case StartPush(_) => r.producer.Idle?
    case HaveRoom => r.producer.Checking? && r.tail - r.headCache != Capacity(r)
    case ReadHead(seen) =>
      r.producer.Checking? && r.tail - r.headCache == Capacity(r) && r.headCache <= seen <= r.head
    case WriteSlot => r.producer.Writing?
    case Publish => r.producer.Publishing?
    case StartFront => r.consumer.Away?
    case HaveElement => r.consumer.Looking? && r.head != r.tailCache
    case ReadTail(seen) => r.consumer.Looking? && r.head == r.tailCache && r.tailCache <= seen <= r.tail
    case Prefetch(_) => true
    case Take => r.consumer.Holding? || r.consumer.Taken?
    case Pop => r.consumer.Taken?
  }

  function Slot<T>(r: Ring<T>, i: nat): nat
    requires |r.slots| > 0
  {
    i % |r.slots|
  }

  function Do<T>(r: Ring<T>, s: Step<T>): Ring<T>
    requires |r.slots| > 0 && Can(r, s)
  {
    match s
    case StartPush(v) => r.(producer := Checking(v))
    case HaveRoom => r.(producer := Writing(r.producer.value))
    case ReadHead(seen) =>
      r.(headCache := seen, producer := if r.tail - seen == Capacity(r) then Idle else Writing(r.producer.value))
    case WriteSlot =>
      var v := r.producer.value;
      r.(slots := r.slots[Slot(r, r.tail) := v], producer := Publishing(v))
    case Publish => r.(tail := r.tail + 1, pushed := r.pushed + [r.producer.value], producer := Idle)
    case StartFront => r.(consumer := Looking)
    case HaveElement => r.(consumer := Holding)
    case ReadTail(seen) => r.(tailCache := seen, consumer := if r.head == seen then Away else Holding)
    case Prefetch(_) => r
    case Take => r.(consumer := Taken(r.slots[Slot(r, r.head)]))
    case Pop => r.(popped := r.popped + [r.consumer.value], head := r.head + 1, consumer := Away)
  }

  /** A step a side cannot take does nothing. */
  function Next<T>(r: Ring<T>, s: Step<T>): Ring<T>
    requires |r.slots| > 0
  {
    if Can(r, s) then Do(r, s) else r
  }

  /** Step s of the consumer touches the slot of element i: the front in place, or one ahead of it that the
      consumer's own view says is published. */
  predicate Touches<T>(r: Ring<T>, s: Step<T>, i: nat) {
    match s
    case Take => i == r.head
    case Prefetch(ahead) => r.tailCache - r.head > ahead && i == r.head + ahead
    case _ => false
  }

  ghost predicate Inv<T>(r: Ring<T>) {
    && |r.slots| > 0
    && r.headCache <= r.head <= r.tailCache <= r.tail <= r.headCache + |r.slots|
    && |r.pushed| == r.tail && r.popped == r.pushed[..r.head]
    && (forall i :: r.head <= i < r.tail ==> r.slots[Slot(r, i)] == r.pushed[i])
    && (r.producer.Writing? || r.producer.Publishing? ==> r.tail < r.headCache + |r.slots|)
    && (r.producer.Publishing? ==> r.slots[Slot(r, r.tail)] == r.producer.value)
    && (r.consumer.Holding? || r.consumer.Taken? ==> r.head < r.tailCache)
    && (r.consumer.Taken? ==> r.consumer.value == r.slots[Slot(r, r.head)])
  }

  lemma StepOk<T>(r: Ring<T>, s: Step<T>)
    requires Inv(r) && Can(r, s)
    ensures Inv(Do(r, s))
  {
    if s.WriteSlot? {
      forall i: nat | r.head <= i < r.tail ensures Slot(r, i) != Slot(r, r.tail) {
        Apart(i, r.tail, |r.slots|);
      }
    }
  }

  /** Any interleaving of the two sides' steps. */
  ghost function Run<T>(capacity: nat, blank: T, steps: seq<Step<T>>): (r: Ring<T>)
    requires capacity > 0
    ensures Inv(r) && Capacity(r) == capacity
  {
    if steps == [] then Init(capacity, blank)
    else
      var before, s := Run(capacity, blank, steps[..|steps| - 1]), steps[|steps| - 1];
      assert Can(before, s) ==> Inv(Do(before, s)) by {
        if Can(before, s) {
          StepOk(before, s);
        }
      }
      Next(before, s)
  }

  /** In every interleaving, what has been popped is what was pushed first, in order, and the ring never
      holds more than its capacity. */
  lemma PopsWhatWasPushed<T>(capacity: nat, blank: T, steps: seq<Step<T>>)
    requires capacity > 0
    ensures var r := Run(capacity, blank, steps);
      && r.head <= |r.pushed| && r.popped == r.pushed[..r.head]
      && r.head <= r.tail <= r.head + capacity && r.tail == |r.pushed|
  {
  }

  /** In every interleaving, a slot about to be written is none the consumer may read or prefetch, and what
      it reads or prefetches is an element pushed and not yet popped. */
  lemma WritesAreSafe<T>(capacity: nat, blank: T, steps: seq<Step<T>>, s: Step<T>, i: nat)
    requires capacity > 0
    requires var r := Run(capacity, blank, steps); Can(r, s) && Touches(r, s, i)
    ensures var r := Run(capacity, blank, steps);
      && r.head <= i < |r.pushed| && r.slots[Slot(r, i)] == r.pushed[i]
      && (Can(r, WriteSlot) ==> Slot(r, i) != Slot(r, r.tail))
  {
    var r := Run(capacity, blank, steps);
    if Can(r, WriteSlot) {
      Apart(i, r.tail, |r.slots|);
    }
  }

  // ---- 64-bit indices ----

  const WORD := Pow2(64)

  /** What a 64-bit subtraction of one index from another gives. */
  function WordGap(a: nat, b: nat): nat {
    (a % WORD - b % WORD) % WORD
  }

  lemma WordGapIs(a: nat, b: nat)
    requires b <= a < b + WORD
    ensures WordGap(a, b) == a - b
  {
    assert a == WORD * (a / WORD) + a % WORD && b == WORD * (b / WORD) + b % WORD;
    assert WORD * (b / WORD - a / WORD) == WORD * (b / WORD) - WORD * (a / WORD);
    Quotient(a % WORD - b % WORD, b / WORD - a / WORD, a - b, WORD);
  }

  lemma WordMasked(i: nat, k: nat)
    requires k < 64
    ensures i % WORD % Pow2(k) == i % Pow2(k)
  {
    hide Pow2;
    Pow2Sum(k, 64 - k);
    ModOfMultiple(i, Pow2(k), Pow2(64 - k));
  }

  /** Free-running 64-bit indices wrap around without harm: over a power-of-two capacity they answer every
      comparison, and mask to every slot, as the unbounded ones do. */
  lemma WrapsHarmless<T>(log2: nat, blank: T, steps: seq<Step<T>>, seen: nat)
    requires log2 < 64
    ensures var r := Run(Pow2(log2), blank, steps);
      && (r.headCache <= seen <= r.head ==>
           (WordGap(r.tail, seen) == Capacity(r) <==> r.tail - seen == Capacity(r)))
      && (r.tailCache <= seen <= r.tail ==> (r.head % WORD == seen % WORD <==> r.head == seen))
      && WordGap(r.tailCache, r.head) == r.tailCache - r.head
      && r.tail % WORD % Pow2(log2) == Slot(r, r.tail) && r.head % WORD % Pow2(log2) == Slot(r, r.head)
  {
    hide Pow2;
    var r := Run(Pow2(log2), blank, steps);
    Pow2Grows(log2, 64);
    if r.headCache <= seen <= r.head {
      WordGapIs(r.tail, seen);
    }
    if r.tailCache <= seen <= r.tail && r.head < seen {
      Apart(r.head, seen, WORD);
    }
    WordGapIs(r.tailCache, r.head);
    WordMasked(r.tail, log2);
    WordMasked(r.head, log2);
  }

  // ---- whole calls ----

  /** A push of v that sees the head at `seen` if it looks. */
  function PushCall<T>(v: T, seen: nat): seq<Step<T>> {
    [StartPush(v), HaveRoom, ReadHead(seen), WriteSlot, Publish]
  }

  /** A pop that sees the tail at `seen` if it looks. */
  function PopCall<T>(seen: nat): seq<Step<T>> {
    [StartFront, HaveElement, ReadTail(seen), Take, Pop]
  }

  /** One step more, whatever came before. */
  lemma RunNext<T>(capacity: nat, blank: T, steps: seq<Step<T>>, s: Step<T>)
    requires capacity > 0
    ensures Run(capacity, blank, steps + [s]) == Next(Run(capacity, blank, steps), s)
  {
    hide Next, Inv;
    assert (steps + [s])[..|steps|] == steps;
  }

  lemma RunThree<T>(capacity: nat, blank: T, steps: seq<Step<T>>, s1: Step<T>, s2: Step<T>, s3: Step<T>)
    requires capacity > 0
    ensures Run(capacity, blank, steps + [s1, s2, s3])
      == Next(Next(Next(Run(capacity, blank, steps), s1), s2), s3)
  {
    hide Next, Inv, Run;
    RunNext(capacity, blank, steps, s1);
    RunNext(capacity, blank, steps + [s1], s2);
    RunNext(capacity, blank, steps + [s1] + [s2], s3);
    assert steps + [s1, s2, s3] == steps + [s1] + [s2] + [s3];
  }

  lemma RunTwo<T>(capacity: nat, blank: T, steps: seq<Step<T>>, s1: Step<T>, s2: Step<T>)
    requires capacity > 0
    ensures Run(capacity, blank, steps + [s1, s2]) == Next(Next(Run(capacity, blank, steps), s1), s2)
  {
    hide Next, Inv, Run;
    RunNext(capacity, blank, steps, s1);
    RunNext(capacity, blank, steps + [s1], s2);
    assert steps + [s1, s2] == steps + [s1] + [s2];
  }

  /** From any reachable ring, a push that sees the true head appends its value if and only if there is
      room, and changes nothing the consumer sees otherwise. */
  lemma PushAppendsIff<T>(capacity: nat, blank: T, steps: seq<Step<T>>, v: T)
    requires capacity > 0 && Run(capacity, blank, steps).producer.Idle?
    ensures var r := Run(capacity, blank, steps);
      var after := Run(capacity, blank, steps + PushCall(v, r.head));
      && after.producer.Idle? && after.consumer == r.consumer && after.popped == r.popped
      && after.pushed == if |r.pushed| - |r.popped| < capacity then r.pushed + [v] else r.pushed
  {
    hide Run;
    var r := Run(capacity, blank, steps);
    var looked := steps + [StartPush(v), HaveRoom, ReadHead(r.head)];
    RunThree(capacity, blank, steps, StartPush(v), HaveRoom, ReadHead(r.head));
    RunTwo(capacity, blank, looked, WriteSlot, Publish);
    assert steps + PushCall(v, r.head) == looked + [WriteSlot, Publish];
  }

  /** From any reachable ring, a pop that sees the true tail takes the oldest element not yet taken if and
      only if there is one. */
  lemma PopTakesOldestIff<T>(capacity: nat, blank: T, steps: seq<Step<T>>)
    requires capacity > 0 && Run(capacity, blank, steps).consumer.Away?
    ensures var r := Run(capacity, blank, steps);
      var after := Run(capacity, blank, steps + PopCall(r.tail));
      && after.consumer.Away? && after.producer == r.producer && after.pushed == r.pushed
      && after.popped == if |r.popped| < |r.pushed| then r.popped + [r.pushed[|r.popped|]] else r.popped
  {
    hide Run;
    var r := Run(capacity, blank, steps);
    var looked := steps + [StartFront, HaveElement, ReadTail(r.tail)];
    RunThree(capacity, blank, steps, StartFront, HaveElement, ReadTail(r.tail));
    RunTwo(capacity, blank, looked, Take, Pop);
    assert steps + PopCall(r.tail) == looked + [Take, Pop];
  }

  function Pops<T>(seen: nat, n: nat): seq<Step<T>> {
    if n == 0 then [] else PopCall(seen) + Pops(seen, n - 1)
  }

  /** A consumer left alone drains the ring: as many pops as elements take exactly what was pushed. */
  lemma {:induction false} Drains<T>(capacity: nat, blank: T, steps: seq<Step<T>>, n: nat)
    requires capacity > 0 && Run(capacity, blank, steps).consumer.Away?
    ensures var r := Run(capacity, blank, steps);
      var after := Run(capacity, blank, steps + Pops(r.tail, n));
      && after.pushed == r.pushed
      && after.popped == if n < |r.pushed| - |r.popped| then r.pushed[..|r.popped| + n] else r.pushed
    decreases n
  {
    hide PopCall, Next, Inv;
    var r := Run(capacity, blank, steps);
    PopsWhatWasPushed(capacity, blank, steps);
    if n == 0 {
      assert steps + Pops(r.tail, 0) == steps;
    } else {
      var once := steps + PopCall(r.tail);
      PopTakesOldestIff(capacity, blank, steps);
      PopsWhatWasPushed(capacity, blank, once);
      Drains(capacity, blank, once, n - 1);
      assert steps + Pops(r.tail, n) == once + Pops(r.tail, n - 1);
    }
  }
}
