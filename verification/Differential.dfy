/** The headline: the optimised book and the naive one are the same book, but for the fills that 64-bit
    level totals make the optimised one miss. */
module Differential {
  import opened Types
  import opened BookSpec
  import opened BookInvariant
  import opened MissedFills
  import opened OrderBooks
  import opened ReferenceBooks

  lemma RunStep(cfg: Config, cmds: seq<Command>, n: nat)
    requires n < |cmds|
    ensures var r, z := RunAll(cfg, cmds[..n]), Apply(cfg, RunAll(cfg, cmds[..n]).book, cmds[n]);
      RunAll(cfg, cmds[..n + 1]) == Run(z.book, r.events + [z.events])
    ensures var r, z := RunFast(cfg, cmds[..n]), FastApply(cfg, RunFast(cfg, cmds[..n]).book, cmds[n]);
      RunFast(cfg, cmds[..n + 1]) == Run(z.book, r.events + [z.events])
  {
    assert cmds[..n + 1][..n] == cmds[..n];
  }

  /** One command through two books that agree: they emit the same events if and only if it is not a missed
      fill, and then they agree again. */
  method StepBoth(a: OrderBook, b: ReferenceBook, c: Command) returns (fast: seq<Event>, naive: seq<Event>)
    requires a.Valid() && b.Valid() && b !in a.Repr && a.cfg == b.cfg && a.Contents() == b.Contents()
    modifies a.Repr, b
    ensures a.Valid() && b.Valid()
    ensures Outcome(b.Contents(), naive) == Apply(a.cfg, old(a.Contents()), c)
    ensures fast == naive <==> !Missed(a.cfg, old(a.Contents()), c)
    ensures fast == naive ==> a.Contents() == b.Contents()
  {
    hide OrderBook.Parts, OrderBook.Contents, BookStates.Inv, RefInv, RefAbs, Apply, Missed;
    BookStands(a);
    DiffersIff(a.cfg, a.Contents(), c);
    fast := a.Process(c);
    naive := b.Process(c);
  }

  lemma BookStands(a: OrderBook)
    requires a.Valid()
    ensures BookOk(a.cfg, a.Contents())
  {
  }

  /** For every configuration and command stream, fresh books of both kinds: the naive one runs the
      specification, and the two emit the same events, command by command, if and only if the stream never
      comes to a missed fill; then they hold the same orders too. */
  method RunBoth(cfg: Config, cmds: seq<Command>)
    returns (a: OrderBook, b: ReferenceBook, fast: seq<seq<Event>>, naive: seq<seq<Event>>)
    requires ValidConfig(cfg)
    ensures fresh(a) && fresh(a.Repr) && fresh(b) && a.Valid() && b.Valid()
    ensures Run(b.Contents(), naive) == RunAll(cfg, cmds) && Run(a.Contents(), fast) == RunFast(cfg, cmds)
    ensures fast == naive <==> NeverMissed(cfg, cmds)
    ensures fast == naive ==> a.Contents() == b.Contents()
  {
    hide OrderBook.Parts, OrderBook.Contents, BookStates.Inv, RefInv, RefAbs, Apply, FastApply, RunAll, RunFast,
         NeverMissed;
    var book := OrderBook.Open(cfg);
    a := book;
    b := new ReferenceBook(cfg);
    fast, naive := [], [];
    EmptyRun(cfg);
    assert cmds[..0] == [];
    for i := 0 to |cmds|
      invariant fresh(a) && fresh(a.Repr) && fresh(b) && b !in a.Repr && a.Valid() && b.Valid() && a.cfg == cfg == b.cfg
      invariant Run(b.Contents(), naive) == RunAll(cfg, cmds[..i])
      invariant Run(a.Contents(), fast) == RunFast(cfg, cmds[..i])
    {
      RunStep(cfg, cmds, i);
      var x := a.Process(cmds[i]);
      var y := b.Process(cmds[i]);
      fast, naive := fast + [x], naive + [y];
    }
    assert cmds[..|cmds|] == cmds;
    RunsAgreeIff(cfg, cmds);
  }

  lemma EmptyRun(cfg: Config)
    ensures RunAll(cfg, []) == Run(EmptyBook, []) && RunFast(cfg, []) == Run(EmptyBook, [])
  {
  }
}
