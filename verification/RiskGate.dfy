/** The pre-trade risk gate, and its rate limiter: a generic cell rate algorithm per owner. */
module RiskGates {
  import opened Types
  import opened BookSpec
  import opened Arithmetic
  import opened MissedFills
  import MarketData

  /** Zero disables the notional cap, the collar and the rate limit. */
  datatype RiskConfig = RiskConfig(
    maxQty: nat, maxNotional: nat, collarTicks: nat, maxOwners: nat, ratePerSec: nat, burst: nat, ticksPerSec: nat)

  datatype Gate = Gate(lastPx: seq<int>, halted: seq<bool>, haltAll: bool, tat: map<nat, nat>)

  function Interval(rc: RiskConfig): nat {
    if rc.ratePerSec == 0 then 0 else rc.ticksPerSec / rc.ratePerSec
  }

  /** How far ahead of its schedule an owner may run: `burst` messages may arrive together. */
  function Slack(rc: RiskConfig): nat {
    Interval(rc) * (if rc.burst == 0 then 0 else rc.burst - 1)
  }

  /** When an owner's next message is due. */
  function Due(g: Gate, owner: nat): nat {
    if owner in g.tat then g.tat[owner] else 0
  }

  function AllowedFrom(rc: RiskConfig, due: nat): nat {
    if due > Slack(rc) then due - Slack(rc) else 0
  }

  predicate Priced(c: Command) {
    c.kind == Modify || c.ordType == Limit
  }

  function Abs(x: int): nat {
    if x < 0 then -x else x
  }

  /** The limits that look at one command alone, in order. The notional test divides, so that a product
      beyond 64 bits cannot slip under the cap. */
  function StaticCheck(rc: RiskConfig, g: Gate, c: Command): Reason {
    if c.symbol >= |g.lastPx| || c.symbol >= |g.halted| then NoReason
    else if g.haltAll || g.halted[c.symbol] then RiskHalted
    else if c.qty > rc.maxQty then RiskMaxQty
    else if Priced(c) && rc.maxNotional != 0 && c.qty != 0
        && (if c.price < 0 then 0 else c.price) > rc.maxNotional / c.qty then
      RiskMaxNotional
    else if Priced(c) && rc.collarTicks != 0 && g.lastPx[c.symbol] != 0
        && Abs(c.price - g.lastPx[c.symbol]) > rc.collarTicks then
      RiskCollar
    else if c.owner >= rc.maxOwners then UnknownOwner
    else NoReason
  }

  /** The gate's verdict on a command, and the gate after it. */
  function Check(rc: RiskConfig, g: Gate, c: Command): (Reason, Gate) {
    if c.kind == Cancel || c.symbol >= |g.lastPx| || c.symbol >= |g.halted| then (NoReason, g)
    else
      var bad := StaticCheck(rc, g, c);
      if bad != NoReason then (bad, g)
      else if Interval(rc) == 0 then (NoReason, g)
      else if c.ts < AllowedFrom(rc, Due(g, c.owner)) then (RiskRateLimit, g)
      else (NoReason,
            g.(tat := g.tat[c.owner := (if c.ts > Due(g, c.owner) then c.ts else Due(g, c.owner)) + Interval(rc)]))
  }

  /** The tap on the engine's events remembers each symbol's last trade. */
  function Tap(g: Gate, events: seq<Event>): Gate
    decreases |events|
  {
    if events == [] then g
    else if events[0].kind == Trade && events[0].symbol < |g.lastPx| then
      Tap(g.(lastPx := g.lastPx[events[0].symbol := events[0].price]), events[1..])
    else Tap(g, events[1..])
  }

  /** Gates that differ at most in the last prices. */
  ghost predicate SameButPrices(g: Gate, h: Gate) {
    g == h.(lastPx := g.lastPx) && |g.lastPx| == |h.lastPx|
  }

  lemma {:induction false} TapKeeps(g: Gate, events: seq<Event>)
    ensures SameButPrices(Tap(g, events), g)
    decreases |events|
  {
    if events != [] {
      if events[0].kind == Trade && events[0].symbol < |g.lastPx| {
        TapKeeps(g.(lastPx := g.lastPx[events[0].symbol := events[0].price]), events[1..]);
      } else {
        TapKeeps(g, events[1..]);
      }
    }
  }

  // ---- whole runs ----

  /** What reaches the gate: a command, with the events the engine answers it with if it passes; or an
      operator's halt. */
  datatype Input = Message(c: Command, events: seq<Event>) | Halt(symbol: nat, on: bool) | HaltAll(on: bool)

  function Feed(rc: RiskConfig, g: Gate, i: Input): Gate {
    match i
    case Message(c, events) =>
      var (r, g1) := Check(rc, g, c);
      if r == NoReason then Tap(g1, events) else g1
    case Halt(s, on) => if s < |g.halted| then g.(halted := g.halted[s := on]) else g
    case HaltAll(on) => g.(haltAll := on)
  }

  function RunGate(rc: RiskConfig, g: Gate, ins: seq<Input>): Gate {
    if ins == [] then g else Feed(rc, RunGate(rc, g, ins[..|ins| - 1]), ins[|ins| - 1])
  }

  /** Input k is a new order or a modify of this owner, for a known symbol, that the gate lets through. */
  predicate Passes(rc: RiskConfig, g: Gate, ins: seq<Input>, owner: nat, k: nat)
    requires k < |ins|
  {
    && ins[k].Message? && ins[k].c.kind != Cancel && ins[k].c.owner == owner && ins[k].c.symbol < |g.lastPx|
    && Check(rc, RunGate(rc, g, ins[..k]), ins[k].c).0 == NoReason
  }

  /** How many of inputs from..end pass. */
  function Passed(rc: RiskConfig, g: Gate, ins: seq<Input>, owner: nat, from: nat, end: nat): nat
    requires from <= end <= |ins|
  {
    if from == end then 0
    else Passed(rc, g, ins, owner, from, end - 1) + if Passes(rc, g, ins, owner, end - 1) then 1 else 0
  }

  ghost predicate GateShape(g: Gate) {
    |g.halted| == |g.lastPx|
  }

  lemma {:induction false} RunShape(rc: RiskConfig, g: Gate, ins: seq<Input>)
    requires GateShape(g)
    ensures GateShape(RunGate(rc, g, ins)) && |RunGate(rc, g, ins).lastPx| == |g.lastPx|
    decreases |ins|
  {
    if ins != [] {
      RunShape(rc, g, ins[..|ins| - 1]);
      FeedShape(rc, RunGate(rc, g, ins[..|ins| - 1]), ins[|ins| - 1]);
    }
  }

  lemma FeedShape(rc: RiskConfig, g: Gate, i: Input)
    requires GateShape(g)
    ensures GateShape(Feed(rc, g, i)) && |Feed(rc, g, i).lastPx| == |g.lastPx|
  {
    if i.Message? {
      TapKeeps(Check(rc, g, i.c).1, i.events);
    }
  }

  /** One input: a passing message moves its owner's schedule on by an interval from the later of now and
      when it was due; nothing else moves it. */
  lemma FeedDue(rc: RiskConfig, g: Gate, ins: seq<Input>, owner: nat, k: nat)
    requires GateShape(g) && k < |ins| && Interval(rc) > 0
    ensures var before, after := Due(RunGate(rc, g, ins[..k]), owner), Due(RunGate(rc, g, ins[..k + 1]), owner);
      if Passes(rc, g, ins, owner, k) then
        && ins[k].c.ts >= AllowedFrom(rc, before)
        && after == (if ins[k].c.ts > before then ins[k].c.ts else before) + Interval(rc)
      else after == before
  {
    assert ins[..k + 1][..k] == ins[..k];
    RunShape(rc, g, ins[..k]);
    var h := RunGate(rc, g, ins[..k]);
    if ins[k].Message? {
      TapKeeps(Check(rc, h, ins[k].c).1, ins[k].events);
    }
  }

  /** Each passing message moves the schedule on by at least an interval. */
  lemma {:induction false} DueGrows(rc: RiskConfig, g: Gate, ins: seq<Input>, owner: nat, from: nat, end: nat)
    requires GateShape(g) && from <= end <= |ins| && Interval(rc) > 0
    ensures Due(RunGate(rc, g, ins[..end]), owner)
         >= Due(RunGate(rc, g, ins[..from]), owner) + Interval(rc) * Passed(rc, g, ins, owner, from, end)
    decreases end - from
  {
    hide Passes, RunGate, Interval, AllowedFrom, Check;
    if from < end {
      DueGrows(rc, g, ins, owner, from, end - 1);
      FeedDue(rc, g, ins, owner, end - 1);
      var p := Passed(rc, g, ins, owner, from, end - 1);
      assert Interval(rc) * (p + 1) == Interval(rc) * p + Interval(rc);
    }
  }

  lemma {:induction false} PassedFirst(rc: RiskConfig, g: Gate, ins: seq<Input>, owner: nat, from: nat, end: nat)
    requires from < end <= |ins|
    ensures Passed(rc, g, ins, owner, from, end)
         == (if Passes(rc, g, ins, owner, from) then 1 else 0) + Passed(rc, g, ins, owner, from + 1, end)
    decreases end
  {
    if from + 1 < end {
      PassedFirst(rc, g, ins, owner, from, end - 1);
    }
  }

  function Burst(rc: RiskConfig): nat {
    if rc.burst == 0 then 1 else rc.burst
  }

  /** The rate bound, in any run: of the messages from a first passing one at i to a last at j, no more pass
      than the burst and one per whole interval between the two. */
  lemma RateBound(rc: RiskConfig, g: Gate, ins: seq<Input>, owner: nat, i: nat, j: nat)
    requires GateShape(g) && i <= j < |ins| && Interval(rc) > 0
    requires Passes(rc, g, ins, owner, i) && Passes(rc, g, ins, owner, j) && ins[i].c.ts <= ins[j].c.ts
    ensures Passed(rc, g, ins, owner, i, j + 1) <= Burst(rc) + (ins[j].c.ts - ins[i].c.ts) / Interval(rc)
  {
    hide RunGate, Check, AllowedFrom, Interval, Due;
    FeedDue(rc, g, ins, owner, i);
    if i == j {
      assert Passed(rc, g, ins, owner, i, i) == 0;
    } else {
      FeedDue(rc, g, ins, owner, j);
      DueGrows(rc, g, ins, owner, i + 1, j);
      PassedFirst(rc, g, ins, owner, i, j + 1);
      FromAllowed(rc, Due(RunGate(rc, g, ins[..j]), owner), ins[j].c.ts);
      Budget(Interval(rc), Passed(rc, g, ins, owner, i + 1, j), Burst(rc), ins[i].c.ts, ins[j].c.ts,
             Due(RunGate(rc, g, ins[..j]), owner));
    }
  }

  /** A schedule p + 1 intervals past t1, and no more than the burst past t2. */
  lemma Budget(v: nat, p: nat, burst: nat, t1: nat, t2: nat, due: nat)
    requires v > 0 && burst > 0 && t1 <= t2 && t1 + v + v * p <= due <= t2 + v * (burst - 1)
    ensures p + 2 <= burst + (t2 - t1) / v
  {
    assert v * (p + 2 - burst) == v + v * p - v * (burst - 1);
    Whole(v, p + 2 - burst, t2 - t1);
  }

  lemma FromAllowed(rc: RiskConfig, due: nat, t: nat)
    requires t >= AllowedFrom(rc, due)
    ensures due <= t + Interval(rc) * (Burst(rc) - 1)
  {
  }

  /** n intervals that fit in a span are at most its whole intervals. */
  lemma Whole(v: nat, n: int, span: nat)
    requires v > 0 && v * n <= span
    ensures n <= span / v
  {
    Scaled(v, n - span / v);
    assert v * (n - span / v) == v * n - v * (span / v);
  }

  /** Messages at least an interval apart are never rate-limited. */
  lemma {:induction false} SpacedDue(rc: RiskConfig, g: Gate, ins: seq<Input>, owner: nat, k: nat, since: nat)
    requires GateShape(g) && k <= |ins| && Interval(rc) > 0 && owner !in g.tat
    requires forall j :: 0 <= j < k && Passes(rc, g, ins, owner, j) ==> ins[j].c.ts + Interval(rc) <= since
    requires forall i, j :: 0 <= i < j < k && Passes(rc, g, ins, owner, i) && Passes(rc, g, ins, owner, j) ==>
      ins[i].c.ts + Interval(rc) <= ins[j].c.ts
    ensures Due(RunGate(rc, g, ins[..k]), owner) <= since
    decreases k
  {
    if k > 0 {
      FeedDue(rc, g, ins, owner, k - 1);
      if Passes(rc, g, ins, owner, k - 1) {
        SpacedDue(rc, g, ins, owner, k - 1, ins[k - 1].c.ts);
      } else {
        SpacedDue(rc, g, ins, owner, k - 1, since);
      }
    }
  }

  lemma SpacedNeverLimited(rc: RiskConfig, g: Gate, ins: seq<Input>, owner: nat, k: nat)
    requires GateShape(g) && k < |ins| && Interval(rc) > 0 && owner !in g.tat
    requires ins[k].Message? && ins[k].c.owner == owner
    requires forall i, j ::
      0 <= i < j <= k && Passes(rc, g, ins, owner, i) && (j == k || Passes(rc, g, ins, owner, j)) ==>
        ins[i].Message? && ins[j].Message? && ins[i].c.ts + Interval(rc) <= ins[j].c.ts
    ensures Check(rc, RunGate(rc, g, ins[..k]), ins[k].c).0 != RiskRateLimit
  {
    SpacedDue(rc, g, ins, owner, k, ins[k].c.ts);
  }

  // ---- what passes ----

  /** The last trade of a symbol in a stream, or `before` if there was none. */
  function LastTrade(events: seq<Event>, symbol: nat, before: int): int {
    if events == [] then before
    else
      var n := |events| - 1;
      if events[n].kind == Trade && events[n].symbol == symbol then events[n].price
      else LastTrade(events[..n], symbol, before)
  }

  /** Everything the engine has answered so far: the events of the messages that passed. */
  function Answered(rc: RiskConfig, g: Gate, ins: seq<Input>): seq<Event> {
    if ins == [] then []
    else
      var n := |ins| - 1;
      Answered(rc, g, ins[..n])
      + if ins[n].Message? && Check(rc, RunGate(rc, g, ins[..n]), ins[n].c).0 == NoReason then ins[n].events else []
  }

  /** Is a symbol halted after these inputs: by its own last halt or lifting, or by the last for all? */
  predicate HaltedAfter(g: Gate, ins: seq<Input>, symbol: nat)
    requires symbol < |g.halted|
  {
    if ins == [] then g.halted[symbol]
    else if ins[|ins| - 1].Halt? && ins[|ins| - 1].symbol == symbol then ins[|ins| - 1].on
    else HaltedAfter(g, ins[..|ins| - 1], symbol)
  }

  predicate AllHaltedAfter(g: Gate, ins: seq<Input>) {
    if ins == [] then g.haltAll
    else if ins[|ins| - 1].HaltAll? then ins[|ins| - 1].on
    else AllHaltedAfter(g, ins[..|ins| - 1])
  }

  lemma {:induction false} TapLast(g: Gate, events: seq<Event>, symbol: nat)
    requires symbol < |g.lastPx|
    ensures |Tap(g, events).lastPx| == |g.lastPx|
    ensures Tap(g, events).lastPx[symbol] == LastTrade(events, symbol, g.lastPx[symbol])
    decreases |events|
  {
    if events != [] {
      var n := |events| - 1;
      TapLast(g, events[..n], symbol);
      TapAppend(g, events[..n], events[n]);
      assert events == events[..n] + [events[n]];
      TapKeeps(g, events[..n]);
    }
  }

  lemma {:induction false} TapAppend(g: Gate, events: seq<Event>, e: Event)
    ensures Tap(g, events + [e]) == Tap(Tap(g, events), [e])
    decreases |events|
  {
    if events == [] {
      assert events + [e] == [e];
    } else {
      assert (events + [e])[1..] == events[1..] + [e];
      var g1 := if events[0].kind == Trade && events[0].symbol < |g.lastPx|
        then g.(lastPx := g.lastPx[events[0].symbol := events[0].price]) else g;
      TapAppend(g1, events[1..], e);
    }
  }

  lemma {:induction false} LastTradeJoin(a: seq<Event>, b: seq<Event>, symbol: nat, before: int)
    ensures LastTrade(a + b, symbol, before) == LastTrade(b, symbol, LastTrade(a, symbol, before))
    decreases |b|
  {
    if b == [] {
      assert a + b == a;
    } else {
      assert (a + b)[..|a + b| - 1] == a + b[..|b| - 1];
      LastTradeJoin(a, b[..|b| - 1], symbol, before);
    }
  }

  /** Along any run the gate's marks are what the inputs say: each symbol's halt its last one, and its last price
      that of the last trade the engine answered with. */
  lemma {:induction false} RunMarks(rc: RiskConfig, g: Gate, ins: seq<Input>, symbol: nat)
    requires GateShape(g) && symbol < |g.lastPx|
    ensures var h := RunGate(rc, g, ins);
      && GateShape(h) && |h.lastPx| == |g.lastPx|
      && h.halted[symbol] == HaltedAfter(g, ins, symbol) && h.haltAll == AllHaltedAfter(g, ins)
      && h.lastPx[symbol] == LastTrade(Answered(rc, g, ins), symbol, g.lastPx[symbol])
    decreases |ins|
  {
    hide StaticCheck, Interval, AllowedFrom, LastTrade;
    RunShape(rc, g, ins);
    if ins == [] {
      NoTrade(symbol, g.lastPx[symbol]);
    } else {
      var n := |ins| - 1;
      var h := RunGate(rc, g, ins[..n]);
      RunMarks(rc, g, ins[..n], symbol);
      var now: seq<Event> :=
        if ins[n].Message? && Check(rc, h, ins[n].c).0 == NoReason then ins[n].events else [];
      LastTradeJoin(Answered(rc, g, ins[..n]), now, symbol, g.lastPx[symbol]);
      NoTrade(symbol, h.lastPx[symbol]);
      if now != [] {
        TapLast(Check(rc, h, ins[n].c).1, now, symbol);
        TapKeeps(Check(rc, h, ins[n].c).1, now);
      }
    }
  }

  lemma NoTrade(symbol: nat, before: int)
    ensures LastTrade([], symbol, before) == before
  {
  }

  /** price * qty > cap, as a product, is what the division tests. */
  lemma NotionalIs(price: nat, qty: nat, cap: nat)
    requires qty > 0
    ensures price > cap / qty <==> price * qty > cap
  {
    var q, r := cap / qty, cap % qty;
    assert cap == qty * q + r;
    Scaled(qty, price - q);
    assert qty * (price - q) == price * qty - qty * q;
  }

  /** No halt covers the command's symbol. */
  predicate Trading(g: Gate, ins: seq<Input>, c: Command)
    requires c.symbol < |g.halted|
  {
    !AllHaltedAfter(g, ins) && !HaltedAfter(g, ins, c.symbol)
  }

  /** No more than the notional cap (0: none), as a product; a negative price counts as 0. */
  predicate WithinNotional(rc: RiskConfig, c: Command) {
    || (c.kind == NewOrder && c.ordType == Market) || rc.maxNotional == 0 || c.price <= 0
    || c.price * c.qty <= rc.maxNotional
  }

  /** Within the collar (0: none) around a last price; 0 stands for no trade yet. */
  predicate WithinCollar(rc: RiskConfig, c: Command, last: int) {
    || (c.kind == NewOrder && c.ordType == Market) || rc.collarTicks == 0 || last == 0
    || last - rc.collarTicks <= c.price <= last + rc.collarTicks
  }

  /** The command comes no earlier than its owner's schedule, less the burst's intervals but one. */
  predicate OnSchedule(rc: RiskConfig, due: nat, c: Command) {
    || rc.ratePerSec == 0 || rc.ticksPerSec < rc.ratePerSec
    || (var interval := rc.ticksPerSec / rc.ratePerSec;
        due <= c.ts + interval * (if rc.burst == 0 then 0 else rc.burst - 1))
  }

  lemma OnScheduleIs(rc: RiskConfig, due: nat, c: Command)
    ensures OnSchedule(rc, due, c) <==> Interval(rc) == 0 || c.ts >= AllowedFrom(rc, due)
  {
    if rc.ratePerSec > 0 {
      WholeIntervals(rc.ticksPerSec, rc.ratePerSec);
    }
  }

  lemma WholeIntervals(x: nat, d: nat)
    requires d > 0
    ensures x / d == 0 <==> x < d
  {
  }

  /** In any run, a new order or modify for a known symbol gets the reason of the first of these that fails: no halt
      covers it, its quantity is within the cap, its notional is, its price is within the collar of the symbol's last
      trade, its owner is known, and the rate limiter has room. It passes if and only if all hold. */
  lemma VerdictIs(rc: RiskConfig, g: Gate, ins: seq<Input>, c: Command)
    requires GateShape(g) && c.kind != Cancel && c.symbol < |g.lastPx|
    ensures var last := LastTrade(Answered(rc, g, ins), c.symbol, g.lastPx[c.symbol]);
      var r := Check(rc, RunGate(rc, g, ins), c).0;
      && (r == NoReason <==>
            && Trading(g, ins, c) && c.qty <= rc.maxQty && WithinNotional(rc, c) && WithinCollar(rc, c, last)
            && c.owner < rc.maxOwners && OnSchedule(rc, Due(RunGate(rc, g, ins), c.owner), c))
      && r == if !Trading(g, ins, c) then RiskHalted
              else if c.qty > rc.maxQty then RiskMaxQty
              else if !WithinNotional(rc, c) then RiskMaxNotional
              else if !WithinCollar(rc, c, last) then RiskCollar
              else if c.owner >= rc.maxOwners then UnknownOwner
              else if OnSchedule(rc, Due(RunGate(rc, g, ins), c.owner), c) then NoReason
              else RiskRateLimit
  {
    RunMarks(rc, g, ins, c.symbol);
    RunShape(rc, g, ins);
    var h := RunGate(rc, g, ins);
    hide RunGate, LastTrade, Answered, HaltedAfter, AllHaltedAfter;
    VerdictAt(rc, h, c);
    OnScheduleIs(rc, Due(h, c.owner), c);
    hide OnSchedule, AllowedFrom, Interval, StaticCheck, WithinNotional, WithinCollar, Due;
    assert h.halted[c.symbol] || h.haltAll <==> !Trading(g, ins, c);
  }

  /** The same for a gate in any state. */
  lemma VerdictAt(rc: RiskConfig, h: Gate, c: Command)
    requires GateShape(h) && c.kind != Cancel && c.symbol < |h.lastPx|
    ensures var r := Check(rc, h, c).0;
      if h.haltAll || h.halted[c.symbol] then r == RiskHalted
      else if c.qty > rc.maxQty then r == RiskMaxQty
      else if !WithinNotional(rc, c) then r == RiskMaxNotional
      else if !WithinCollar(rc, c, h.lastPx[c.symbol]) then r == RiskCollar
      else if c.owner >= rc.maxOwners then r == UnknownOwner
      else if Interval(rc) == 0 || c.ts >= AllowedFrom(rc, Due(h, c.owner)) then r == NoReason
      else r == RiskRateLimit
  {
    hide AllowedFrom, Interval, Due;
    if c.price > 0 && c.qty > 0 {
      NotionalIs(c.price, c.qty, rc.maxNotional);
    }
    if c.qty == 0 {
      assert c.price * c.qty == 0;
    }
  }

  /** From a halt of a symbol to its lifting, whatever else arrives, no new order or modify for it passes. */
  lemma HaltHolds(rc: RiskConfig, g: Gate, ins: seq<Input>, i: nat, c: Command)
    requires GateShape(g) && c.kind != Cancel && c.symbol < |g.lastPx| && i < |ins|
    requires ins[i] == Halt(c.symbol, true) || ins[i] == HaltAll(true)
    requires forall j :: i < j < |ins| ==> ins[j] != (if ins[i].Halt? then Halt(c.symbol, false) else HaltAll(false))
    ensures Check(rc, RunGate(rc, g, ins), c).0 == RiskHalted
  {
    StillHalted(g, ins, i, c.symbol);
    hide HaltedAfter, AllHaltedAfter;
    VerdictIs(rc, g, ins, c);
  }

  lemma {:induction false} StillHalted(g: Gate, ins: seq<Input>, i: nat, symbol: nat)
    requires symbol < |g.halted| && i < |ins|
    requires ins[i] == Halt(symbol, true) || ins[i] == HaltAll(true)
    requires forall j :: i < j < |ins| ==> ins[j] != (if ins[i].Halt? then Halt(symbol, false) else HaltAll(false))
    ensures if ins[i].Halt? then HaltedAfter(g, ins, symbol) else AllHaltedAfter(g, ins)
    decreases |ins|
  {
    if i < |ins| - 1 {
      StillHalted(g, ins[..|ins| - 1], i, symbol);
    }
  }

  /** Lifted, or never imposed, no halt stops anything: the reason is given only under a halt in force. */
  lemma {:induction false} HaltLifts(g: Gate, ins: seq<Input>, symbol: nat)
    requires symbol < |g.halted| && !g.haltAll && !g.halted[symbol]
    ensures HaltedAfter(g, ins, symbol) <==>
      exists i :: 0 <= i < |ins| && ins[i] == Halt(symbol, true) && LastOf(ins, i, symbol)
    ensures AllHaltedAfter(g, ins) <==>
      exists i :: 0 <= i < |ins| && ins[i] == HaltAll(true) && LastForAll(ins, i)
    decreases |ins|
  {
    if ins != [] {
      var n := |ins| - 1;
      HaltLifts(g, ins[..n], symbol);
      forall i | 0 <= i < n
        ensures LastOf(ins, i, symbol) <==> LastOf(ins[..n], i, symbol) && !(ins[n].Halt? && ins[n].symbol == symbol)
        ensures LastForAll(ins, i) <==> LastForAll(ins[..n], i) && !ins[n].HaltAll?
      {
        LastBefore(ins, i, symbol);
      }
      assert LastOf(ins, n, symbol) && LastForAll(ins, n);
      forall i | 0 <= i < n ensures ins[i] == ins[..n][i] {
      }
    }
  }

  ghost predicate LastOf(ins: seq<Input>, i: nat, symbol: nat) {
    forall j :: i < j < |ins| ==> !(ins[j].Halt? && ins[j].symbol == symbol)
  }

  ghost predicate LastForAll(ins: seq<Input>, i: nat) {
    forall j :: i < j < |ins| ==> !ins[j].HaltAll?
  }

  lemma LastBefore(ins: seq<Input>, i: nat, symbol: nat)
    requires ins != [] && i < |ins| - 1
    ensures var n := |ins| - 1;
      && (LastOf(ins, i, symbol) <==> LastOf(ins[..n], i, symbol) && !(ins[n].Halt? && ins[n].symbol == symbol))
      && (LastForAll(ins, i) <==> LastForAll(ins[..n], i) && !ins[n].HaltAll?)
  {
    var n := |ins| - 1;
    assert forall j :: 0 <= j < n ==> ins[..n][j] == ins[j];
  }

  // ---- cancels ----

  ghost predicate Tradeless(events: seq<Event>) {
    forall k :: 0 <= k < |events| ==> events[k].kind != Trade
  }

  lemma {:induction false} TapTradeless(g: Gate, events: seq<Event>)
    requires Tradeless(events)
    ensures Tap(g, events) == g
    decreases |events|
  {
    if events != [] {
      TapTradeless(g, events[1..]);
    }
  }

  predicate IsCancel(i: Input) {
    i.Message? && i.c.kind == Cancel
  }

  function WithoutCancels(ins: seq<Input>): seq<Input> {
    if ins == [] then []
    else
      var n := |ins| - 1;
      WithoutCancels(ins[..n]) + if IsCancel(ins[n]) then [] else [ins[n]]
  }

  /** The gate's verdicts on the new orders and modifies of a stream, in order. */
  function Verdicts(rc: RiskConfig, g: Gate, ins: seq<Input>): seq<Reason> {
    if ins == [] then []
    else
      var n := |ins| - 1;
      var last := ins[n];
      Verdicts(rc, g, ins[..n])
      + if last.Message? && !IsCancel(last) then [Check(rc, RunGate(rc, g, ins[..n]), last.c).0] else []
  }

  /** The gate alone charges nothing for a cancel: in any stream, the engine's answers to the other messages held as
      they are, every cancel passes, and deleting all of them changes no other verdict and leaves the gate in the
      same state. */
  lemma {:induction false} CancelsCostNothing(rc: RiskConfig, g: Gate, ins: seq<Input>)
    requires forall k :: 0 <= k < |ins| && IsCancel(ins[k]) ==> Tradeless(ins[k].events)
    ensures Verdicts(rc, g, WithoutCancels(ins)) == Verdicts(rc, g, ins)
    ensures RunGate(rc, g, WithoutCancels(ins)) == RunGate(rc, g, ins)
    ensures forall k :: 0 <= k < |ins| && IsCancel(ins[k]) ==>
        Check(rc, RunGate(rc, g, ins[..k]), ins[k].c).0 == NoReason
    decreases |ins|
  {
    if ins != [] {
      var n := |ins| - 1;
      var last, less := ins[n], WithoutCancels(ins[..n]);
      CancelsCostNothing(rc, g, ins[..n]);
      hide StaticCheck;
      if IsCancel(last) {
        TapTradeless(RunGate(rc, g, ins[..n]), last.events);
        assert less + [] == less;
      } else {
        assert (less + [last])[..|less|] == less;
      }
      forall k | 0 <= k < |ins| && IsCancel(ins[k])
        ensures Check(rc, RunGate(rc, g, ins[..k]), ins[k].c).0 == NoReason
      {
      }
    }
  }

  // ---- the gate and the engine behind it ----

  datatype Venue = Venue(gate: Gate, books: MarketData.Books)

  /** One command: refused by the gate, or through it to the engine, whose events the tap sees. */
  function Admitted(rc: RiskConfig, cfg: Config, v: Venue, c: Command): (Venue, Reason, seq<Event>) {
    var (bad, g) := Check(rc, v.gate, c);
    if bad != NoReason then (v.(gate := g), bad, [RejectedEvent(c, bad)])
    else
      var z := MarketData.Step(cfg, v.books, c);
      (Venue(Tap(g, z.events), z.books), NoReason, z.events)
  }

  function RunVenue(rc: RiskConfig, cfg: Config, v: Venue, cmds: seq<Command>): Venue {
    if cmds == [] then v
    else Admitted(rc, cfg, RunVenue(rc, cfg, v, cmds[..|cmds| - 1]), cmds[|cmds| - 1]).0
  }

  /** The gate's verdicts on the new orders and modifies, in order. */
  function VenueVerdicts(rc: RiskConfig, cfg: Config, v: Venue, cmds: seq<Command>): seq<Reason> {
    if cmds == [] then []
    else
      var n := |cmds| - 1;
      VenueVerdicts(rc, cfg, v, cmds[..n])
      + if cmds[n].kind == Cancel then [] else [Admitted(rc, cfg, RunVenue(rc, cfg, v, cmds[..n]), cmds[n]).1]
  }

  function Uncanceled(cmds: seq<Command>): seq<Command> {
    if cmds == [] then []
    else
      var n := |cmds| - 1;
      Uncanceled(cmds[..n]) + if cmds[n].kind == Cancel then [] else [cmds[n]]
  }

  /** At any point of any run, a cancel reaches the engine and leaves the gate exactly as it was, whatever its
      owner has spent, whether or not trading is halted. */
  lemma CancelReachesEngine(rc: RiskConfig, cfg: Config, v: Venue, cmds: seq<Command>, c: Command)
    requires c.kind == Cancel
    ensures var before := RunVenue(rc, cfg, v, cmds);
      var z := MarketData.Step(cfg, before.books, c);
      && RunVenue(rc, cfg, v, cmds + [c]) == Venue(before.gate, z.books)
      && Admitted(rc, cfg, before, c) == (Venue(before.gate, z.books), NoReason, z.events)
  {
    hide StaticCheck, Missed;
    assert (cmds + [c])[..|cmds|] == cmds;
    var before := RunVenue(rc, cfg, v, cmds);
    TapTradeless(before.gate, MarketData.Step(cfg, before.books, c).events);
  }

  /** With the price collar off, deleting every cancel from a run changes no verdict on the other messages, and no
      owner's schedule, though the engine then answers otherwise. */
  lemma {:induction false} CancelsNeverCount(rc: RiskConfig, cfg: Config, v: Venue, cmds: seq<Command>)
    requires rc.collarTicks == 0
    ensures VenueVerdicts(rc, cfg, v, Uncanceled(cmds)) == VenueVerdicts(rc, cfg, v, cmds)
    ensures SameButPrices(RunVenue(rc, cfg, v, Uncanceled(cmds)).gate, RunVenue(rc, cfg, v, cmds).gate)
    decreases |cmds|
  {
    hide Interval, AllowedFrom, Due;
    if cmds != [] {
      var n := |cmds| - 1;
      var c, less := cmds[n], Uncanceled(cmds[..n]);
      CancelsNeverCount(rc, cfg, v, cmds[..n]);
      var was := RunVenue(rc, cfg, v, cmds[..n]);
      AdmittedAlike(rc, cfg, was, RunVenue(rc, cfg, v, less), c);
      if c.kind == Cancel {
        assert less + [] == less;
      } else {
        assert (less + [c])[..|less|] == less;
      }
    }
  }

  lemma AdmittedAlike(rc: RiskConfig, cfg: Config, v: Venue, w: Venue, c: Command)
    requires rc.collarTicks == 0 && SameButPrices(w.gate, v.gate)
    ensures Admitted(rc, cfg, w, c).1 == Admitted(rc, cfg, v, c).1
    ensures SameButPrices(Admitted(rc, cfg, w, c).0.gate, Admitted(rc, cfg, v, c).0.gate)
    ensures c.kind == Cancel ==> SameButPrices(w.gate, Admitted(rc, cfg, v, c).0.gate)
  {
    CheckAlike(rc, v.gate, w.gate, c);
    hide Check, MarketData.Step, Tap;
    TapKeeps(Check(rc, v.gate, c).1, MarketData.Step(cfg, v.books, c).events);
    TapKeeps(Check(rc, w.gate, c).1, MarketData.Step(cfg, w.books, c).events);
  }

  lemma CheckAlike(rc: RiskConfig, g: Gate, h: Gate, c: Command)
    requires rc.collarTicks == 0 && SameButPrices(h, g)
    ensures Check(rc, h, c).0 == Check(rc, g, c).0 && SameButPrices(Check(rc, h, c).1, Check(rc, g, c).1)
    ensures c.kind == Cancel ==> Check(rc, g, c) == (NoReason, g) && Check(rc, h, c) == (NoReason, h)
  {
    hide Interval, AllowedFrom;
  }

  /** A limit order of one lot. */
  function Lot(id: nat, side: Side, px: int): Command {
    Command(NewOrder, id, px, 1, 0, 0, side, Limit, Day, 0, 0, 0)
  }

  /** A sell at px canceled before a buy at px, and then a buy beyond the collar. */
  function CollarStream(px: int, far: int): seq<Command> {
    [Lot(1, Sell, px), Command(Cancel, 1, 0, 0, 0, 0, Sell, Limit, Day, 0, 0, 0), Lot(2, Buy, px), Lot(3, Buy, far)]
  }

  lemma LotRests(cfg: Config, px: int, id: nat, side: Side)
    requires InBand(cfg, px) && cfg.maxOrders > 0 && id > 0
    ensures var z := FastApply(cfg, EmptyBook, Lot(id, side, px));
      && z.book == (if side == Buy then Book([Order(id, 1, 0, px)], []) else Book([], [Order(id, 1, 0, px)]))
      && Tradeless(z.events)
  {
  }

  lemma LotTrades(cfg: Config, px: int)
    requires InBand(cfg, px) && cfg.stp == NoStp
    ensures var z := FastApply(cfg, Book([], [Order(1, 1, 0, px)]), Lot(2, Buy, px));
      z.events == [AcceptedEvent(cfg.symbol, 2, Buy, px, 1), TradeEvent(cfg.symbol, 2, 1, Buy, px, 1, 0)]
  {
    var q := [Order(1, 1, 0, px)];
    var t := AddTaker(cfg, Lot(2, Buy, px));
    assert EffectiveStp(0, NoStp) == NoStp;
    assert q[1..] == [];
    assert Sweep(q, t, 1).events == [TradeEvent(cfg.symbol, 2, 1, Buy, px, 1, 0)];
    assert !PostOnly(0);
  }

  lemma LotCanceled(cfg: Config, px: int, c: Command)
    requires c.kind == Cancel && c.orderId == 1
    ensures FastApply(cfg, Book([], [Order(1, 1, 0, px)]), c).book == EmptyBook
  {
    var q := [Order(1, 1, 0, px)];
    assert q[0].id == 1 && Find(q, 1) == 0;
    assert RemoveAt(q, 0) == [];
  }

  lemma VenueStep(rc: RiskConfig, cfg: Config, v: Venue, cmds: seq<Command>, c: Command)
    ensures var before := RunVenue(rc, cfg, v, cmds);
      && RunVenue(rc, cfg, v, cmds + [c]) == Admitted(rc, cfg, before, c).0
      && VenueVerdicts(rc, cfg, v, cmds + [c]) == VenueVerdicts(rc, cfg, v, cmds)
           + (if c.kind == Cancel then [] else [Admitted(rc, cfg, before, c).1])
      && Uncanceled(cmds + [c]) == Uncanceled(cmds) + if c.kind == Cancel then [] else [c]
  {
    hide Admitted;
    assert (cmds + [c])[..|cmds|] == cmds;
  }

  /** One symbol whose book is b, last traded at px (0 for never), and no other limit than the collar. */
  function Quiet(px: int, b: Book): Venue {
    Venue(Gate([px], [false], false, map[]), [b])
  }

  ghost predicate CollarOnly(rc: RiskConfig) {
    rc.collarTicks != 0 && rc.maxQty > 0 && rc.maxNotional == 0 && rc.maxOwners > 0 && rc.ratePerSec == 0
  }

  lemma QuietStep(rc: RiskConfig, cfg: Config, last: int, b: Book, c: Command)
    requires CollarOnly(rc) && c == Lot(c.orderId, c.side, c.price)
    requires last == 0 || Abs(c.price - last) <= rc.collarTicks
    ensures var z := FastApply(cfg.(symbol := 0), b, c);
      Admitted(rc, cfg, Quiet(last, b), c) == (Venue(Tap(Quiet(last, b).gate, z.events), [z.book]), NoReason, z.events)
  {
    hide FastApply;
    assert [b][0 := FastApply(cfg.(symbol := 0), b, c).book] == [FastApply(cfg.(symbol := 0), b, c).book];
  }

  /** With the collar on it is otherwise: the sell canceled in time leaves no last price for the collar to hold the
      last buy against; not canceled, it trades, and the collar refuses that buy. */
  lemma CollarSeesCancels(rc: RiskConfig, cfg: Config, px: int, far: int)
    requires CollarOnly(rc) && cfg.stp == NoStp && cfg.maxOrders > 0
    requires InBand(cfg, px) && px != 0 && Abs(far - px) > rc.collarTicks
    ensures var cmds, v := CollarStream(px, far), Quiet(0, EmptyBook);
      && VenueVerdicts(rc, cfg, v, cmds) == [NoReason, NoReason, NoReason]
      && VenueVerdicts(rc, cfg, v, Uncanceled(cmds)) == [NoReason, NoReason, RiskCollar]
  {
    hide FastApply, Check, Admitted, RunVenue, VenueVerdicts, Uncanceled, MarketData.Step, Tap;
    var cmds, v, k := CollarStream(px, far), Quiet(0, EmptyBook), cfg.(symbol := 0);
    var none: seq<Command> := [];
    Start(rc, cfg, v);
    VenueStep(rc, cfg, v, none, cmds[0]);
    QuietStep(rc, cfg, 0, EmptyBook, cmds[0]);
    LotRests(k, px, 1, Sell);
    TapTradeless(v.gate, FastApply(k, EmptyBook, cmds[0]).events);
    var held := Book([], [Order(1, 1, 0, px)]);
    assert none + [cmds[0]] == [cmds[0]];
    assert RunVenue(rc, cfg, v, [cmds[0]]) == Quiet(0, held);
    WithCancel(rc, cfg, px, far);
    WithoutCancel(rc, cfg, px, far);
    assert [cmds[0]] + [cmds[1]] + [cmds[2]] + [cmds[3]] == cmds;
  }

  lemma Start(rc: RiskConfig, cfg: Config, v: Venue)
    ensures RunVenue(rc, cfg, v, []) == v && VenueVerdicts(rc, cfg, v, []) == [] && Uncanceled([]) == []
  {
  }

  lemma WithCancel(rc: RiskConfig, cfg: Config, px: int, far: int)
    requires CollarOnly(rc) && cfg.maxOrders > 0 && InBand(cfg, px)
    requires RunVenue(rc, cfg, Quiet(0, EmptyBook), [Lot(1, Sell, px)])
      == Quiet(0, Book([], [Order(1, 1, 0, px)]))
    requires VenueVerdicts(rc, cfg, Quiet(0, EmptyBook), [Lot(1, Sell, px)]) == [NoReason]
    requires Uncanceled([Lot(1, Sell, px)]) == [Lot(1, Sell, px)]
    ensures var cmds, v := CollarStream(px, far), Quiet(0, EmptyBook);
      && VenueVerdicts(rc, cfg, v, cmds) == [NoReason, NoReason, NoReason]
      && Uncanceled(cmds) == [cmds[0], cmds[2], cmds[3]]
  {
    hide FastApply, Check, Admitted, RunVenue, VenueVerdicts, Uncanceled, Tap;
    var cmds, v, k := CollarStream(px, far), Quiet(0, EmptyBook), cfg.(symbol := 0);
    var t1 := [cmds[0]];
    CancelReachesEngine(rc, cfg, v, t1, cmds[1]);
    LotCanceled(k, px, cmds[1]);
    VenueStep(rc, cfg, v, t1, cmds[1]);
    var t2 := t1 + [cmds[1]];
    assert RunVenue(rc, cfg, v, t2).books == [EmptyBook];
    assert RunVenue(rc, cfg, v, t2) == v;
    VenueStep(rc, cfg, v, t2, cmds[2]);
    QuietStep(rc, cfg, 0, EmptyBook, cmds[2]);
    LotRests(k, px, 2, Buy);
    TapTradeless(v.gate, FastApply(k, EmptyBook, cmds[2]).events);
    var t3 := t2 + [cmds[2]];
    VenueStep(rc, cfg, v, t3, cmds[3]);
    QuietStep(rc, cfg, 0, Book([Order(2, 1, 0, px)], []), cmds[3]);
    assert t3 + [cmds[3]] == cmds;
  }

  lemma WithoutCancel(rc: RiskConfig, cfg: Config, px: int, far: int)
    requires CollarOnly(rc) && cfg.stp == NoStp && InBand(cfg, px) && px != 0 && Abs(far - px) > rc.collarTicks
    requires RunVenue(rc, cfg, Quiet(0, EmptyBook), [Lot(1, Sell, px)])
      == Quiet(0, Book([], [Order(1, 1, 0, px)]))
    requires VenueVerdicts(rc, cfg, Quiet(0, EmptyBook), [Lot(1, Sell, px)]) == [NoReason]
    ensures var cmds, v := CollarStream(px, far), Quiet(0, EmptyBook);
      VenueVerdicts(rc, cfg, v, [cmds[0], cmds[2], cmds[3]]) == [NoReason, NoReason, RiskCollar]
  {
    hide FastApply, Admitted, RunVenue, VenueVerdicts, MarketData.Step;
    var cmds, v, k := CollarStream(px, far), Quiet(0, EmptyBook), cfg.(symbol := 0);
    var t1 := [cmds[0]];
    VenueStep(rc, cfg, v, t1, cmds[2]);
    QuietStep(rc, cfg, 0, Book([], [Order(1, 1, 0, px)]), cmds[2]);
    LotTrades(k, px);
    var es := FastApply(k, Book([], [Order(1, 1, 0, px)]), cmds[2]).events;
    assert Tap(v.gate, es) == Tap(v.gate, es[1..]);
    TapOne(v.gate, es[1]);
    assert es[1..] == [es[1]] && [0][0 := px] == [px];
    assert Tap(v.gate, es).lastPx == [px];
    var t2 := t1 + [cmds[2]];
    assert RunVenue(rc, cfg, v, t2).gate == Gate([px], [false], false, map[]);
    VenueStep(rc, cfg, v, t2, cmds[3]);
    CollarRefuses(rc, cfg, RunVenue(rc, cfg, v, t2), px, cmds[3]);
    assert t2 + [cmds[3]] == [cmds[0], cmds[2], cmds[3]];
  }

  lemma TapOne(g: Gate, e: Event)
    requires e.kind == Trade && e.symbol < |g.lastPx|
    ensures Tap(g, [e]) == g.(lastPx := g.lastPx[e.symbol := e.price])
  {
    assert [e][1..] == [];
  }

  lemma CollarRefuses(rc: RiskConfig, cfg: Config, v: Venue, px: int, c: Command)
    requires CollarOnly(rc) && v.gate == Gate([px], [false], false, map[]) && px != 0
    requires c == Lot(c.orderId, c.side, c.price) && Abs(c.price - px) > rc.collarTicks
    ensures Admitted(rc, cfg, v, c).1 == RiskCollar
  {
    hide MarketData.Step;
  }

  // ---- in place ----

  class RiskGate {
    const rc: RiskConfig
    const interval: nat
    const lastPx: array<int>
    const halted: array<bool>
    var haltAll: bool
    var tat: map<nat, nat>
    var rejected: nat

    ghost predicate Valid()
      reads this, lastPx, halted
    {
      lastPx.Length == halted.Length && interval == Interval(rc)
    }

    ghost function State(): Gate
      reads this, lastPx, halted
    {
      Gate(lastPx[..], halted[..], haltAll, tat)
    }

    constructor (config: RiskConfig, symbols: nat)
      ensures Valid() && fresh(lastPx) && fresh(halted) && GateShape(State()) && rejected == 0
      ensures rc == config && State() == Gate(seq(symbols, _ => 0), seq(symbols, _ => false), false, map[])
    {
      rc, interval := config, Interval(config);
      lastPx, halted := new int[symbols](_ => 0), new bool[symbols](_ => false);
      haltAll, tat, rejected := false, map[], 0;
    }

    method SetHalt(s: nat, on: bool)
      requires Valid()
      modifies halted
      ensures Valid() && State() == Feed(rc, old(State()), Halt(s, on))
    {
      if s < halted.Length {
        halted[s] := on;
      }
    }

    method SetHaltAll(on: bool)
      requires Valid()
      modifies this`haltAll
      ensures Valid() && State() == Feed(rc, old(State()), HaltAll(on))
    {
      haltAll := on;
    }

    /** Refuses a command, or moves its owner's schedule on. */
    method Admit(c: Command) returns (r: Reason)
      requires Valid()
      modifies this`tat, this`rejected
      ensures Valid() && (r, State()) == Check(rc, old(State()), c)
      ensures rejected == old(rejected) + if r == NoReason then 0 else 1
    {
      r := NoReason;
      if c.kind == Cancel || c.symbol >= lastPx.Length {
        return;
      }
      if haltAll || halted[c.symbol] {
        r := RiskHalted;
      } else if c.qty > rc.maxQty {
        r := RiskMaxQty;
      } else if Priced(c) && rc.maxNotional != 0 && c.qty != 0
                && (if c.price < 0 then 0 else c.price) > rc.maxNotional / c.qty {
        r := RiskMaxNotional;
      } else if Priced(c) && rc.collarTicks != 0 && lastPx[c.symbol] != 0
                && Abs(c.price - lastPx[c.symbol]) > rc.collarTicks {
        r := RiskCollar;
      } else if c.owner >= rc.maxOwners {
        r := UnknownOwner;
      } else if interval != 0 {
        var due := if c.owner in tat then tat[c.owner] else 0;
        var slack := interval * (if rc.burst == 0 then 0 else rc.burst - 1);
        var allowedFrom := if due > slack then due - slack else 0;
        if c.ts < allowedFrom {
          r := RiskRateLimit;
        } else {
          tat := tat[c.owner := (if c.ts > due then c.ts else due) + interval];
        }
      }
      if r != NoReason {
        rejected := rejected + 1;
      }
    }

    /** Sees each event of the engine on its way out. */
    method Observe(e: Event)
      requires Valid()
      modifies lastPx
      ensures Valid() && State() == Tap(old(State()), [e])
    {
      if e.kind == Trade && e.symbol < lastPx.Length {
        lastPx[e.symbol] := e.price;
      }
    }
  }
}
