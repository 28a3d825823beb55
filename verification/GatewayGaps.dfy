/**
 When a program's `milestone_spent` is behind its payout rows: the row and the increment are two
 statements, and what comes between them stays.
 */
module GatewayGaps {
  import opened Containers
  import opened GatewayAccounting
  import opened GatewayInvariant
  import opened GatewayJourneys
  import opened GatewayProgress
  import opened GatewayProtocol
  import opened GatewayRequests
  import opened GatewayRuns
  import opened GatewayTables
  import opened Slugs
  import opened Tags

  /** A handler that has saved a row of the program and not counted it. */
  predicate Owes(h: Handler, p: Uuid) {
    h.marks.saved && !h.marks.counted && h.job.program == p
  }

  /** An uncounted row has a positive amount. */
  lemma OwesPositive(s: System, pid: nat, p: Uuid)
    requires GInv(s) && pid in s.handlers
    ensures PendingOf(p)(s.handlers[pid]) >= 0
    ensures PendingOf(p)(s.handlers[pid]) > 0 <==> Owes(s.handlers[pid], p)
  {
    assert HandlerOk(s.tables, s.log, pid, s.handlers[pid]);
  }

  lemma NothingPendingIff(s: System, p: Uuid)
    requires GInv(s)
    ensures Sum(s.handlers, PendingOf(p)) >= 0
    ensures Sum(s.handlers, PendingOf(p)) == 0 <==> forall pid :: pid in s.handlers ==> !Owes(s.handlers[pid], p)
  {
    forall pid | pid in s.handlers
      ensures PendingOf(p)(s.handlers[pid]) >= 0 && (PendingOf(p)(s.handlers[pid]) > 0 <==> Owes(s.handlers[pid], p))
    {
      OwesPositive(s, pid, p);
    }
    SumNonNegative(s.handlers, PendingOf(p));
    if pid :| pid in s.handlers && Owes(s.handlers[pid], p) {
      SumAtLeast(s.handlers, PendingOf(p), pid);
    } else {
      SumOfZeroes(s.handlers, PendingOf(p));
    }
  }

  /**
   In every reachable state `milestone_spent` is at most the sum of the program's payout rows, and it
   is that sum iff no handler has saved a row of the program without counting it.
   */
  lemma SpentIsPaidIff(s: System, actions: seq<Action>, p: Uuid)
    requires Initial(s) && p in Run(s, actions).tables.programs
    ensures var s' := Run(s, actions);
      && s'.tables.programs[p].spent <= Sum(s'.tables.payouts, AmountOf(p))
      && (s'.tables.programs[p].spent == Sum(s'.tables.payouts, AmountOf(p)) <==>
           forall pid :: pid in s'.handlers ==> !Owes(s'.handlers[pid], p))
  {
    BooksBalance(s, actions, p);
    InitialHolds(s);
    assert GInv(Run(s, actions)) by { RunKeepsGInv(s, actions); }
    NothingPendingIff(Run(s, actions), p);
  }

  // ----- The gap stays -----

  /** Owing, and not about to count. */
  predicate OwesForGood(h: Handler, p: Uuid) {
    Owes(h, p) && !h.pc.Increment?
  }

  lemma StepStillOwes(t: Tables, log: seq<Submission>, pid: nat, h: Handler, o: Oracle, w: Written, p: Uuid)
    requires HandlerOk(t, log, pid, h) && OwesForGood(h, p)
    ensures OwesForGood(Continue(t, h, o, w), p)
  {
    assert h.pc.Audit? || h.pc.Done? || h.pc.Crashed?;
  }

  lemma {:induction false} RunStillOwes(s: System, actions: seq<Action>, pid: nat, p: Uuid)
    requires GInv(s) && pid in s.handlers && OwesForGood(s.handlers[pid], p)
    ensures pid in Run(s, actions).handlers && OwesForGood(Run(s, actions).handlers[pid], p)
  {
    if actions != [] {
      var prefix, last := actions[..|actions| - 1], actions[|actions| - 1];
      RunStillOwes(s, prefix, pid, p);
      assert GInv(Run(s, prefix)) by { RunKeepsGInv(s, prefix); }
      NextStillOwes(Run(s, prefix), last, pid, p);
    }
  }

  lemma NextStillOwes(s: System, a: Action, pid: nat, p: Uuid)
    requires GInv(s) && pid in s.handlers && OwesForGood(s.handlers[pid], p)
    ensures pid in Next(s, a).handlers && OwesForGood(Next(s, a).handlers[pid], p)
  {
    if a.Step? && a.pid == pid {
      var h := s.handlers[pid];
      assert HandlerOk(s.tables, s.log, pid, h);
      StepStillOwes(s.tables, s.log, pid, h, a.oracle, Write(s.tables, Statement(s.tables, h, a.oracle), a.oracle.fault), p);
    } else {
      OthersMove(s, a, pid);
    }
  }

  /**
   A handler that has lost its increment, or crashed before it, leaves `milestone_spent` behind the
   payout rows in every later state: no replay and no other delivery makes up for it.
   */
  lemma GapIsPermanent(s: System, actions: seq<Action>, later: seq<Action>, pid: nat, p: Uuid)
    requires Initial(s) && pid in Run(s, actions).handlers && OwesForGood(Run(s, actions).handlers[pid], p)
    ensures var s' := Run(s, actions + later);
      p in s'.tables.programs && s'.tables.programs[p].spent < Sum(s'.tables.payouts, AmountOf(p))
  {
    InitialHolds(s);
    assert GInv(Run(s, actions)) by { RunKeepsGInv(s, actions); }
    RunStillOwes(Run(s, actions), later, pid, p);
    RunThen(s, actions, later);
    OwingExists(s, actions + later, pid, p);
    SpentIsPaidIff(s, actions + later, p);
  }

  lemma OwingExists(s: System, actions: seq<Action>, pid: nat, p: Uuid)
    requires Initial(s) && pid in Run(s, actions).handlers && Owes(Run(s, actions).handlers[pid], p)
    ensures p in Run(s, actions).tables.programs
  {
    InitialHolds(s);
    assert GInv(Run(s, actions)) by { RunKeepsGInv(s, actions); }
    assert HandlerOk(Run(s, actions).tables, Run(s, actions).log, pid, Run(s, actions).handlers[pid]);
  }

  // ----- A run with a gap -----

  /** A delivery whose handler crashes between saving its row and counting it. */
  function CrashedJourney(pid: nat, r: Request, o: Oracle): seq<Action> {
    Approach(pid, r, o) + Steps(pid, o, 3) + Steps(pid, o, 2) + [Crash(pid)]
  }

  lemma SavesNext(s: System, pid: nat, h: Handler, o: Oracle)
    requires h.pc.LoadRatio? && o.fault.NoFault? && CanBook(s.tables, h, o.uuid)
    ensures var row := RowOf(s.tables, h, o.uuid);
      Run(Moved(s, pid, h), Steps(pid, o, 2)) == Moved(s, pid, SavedAs(h, row)).(tables := WithRow(s.tables, row))
  {
    var row := RowOf(s.tables, h, o.uuid);
    Saves(Moved(s, pid, h), pid, o);
    assert s.handlers[pid := h][pid := SavedAs(h, row)] == s.handlers[pid := SavedAs(h, row)];
  }

  lemma SavedBeforeCrash(s: System, pid: nat, r: Request, o: Oracle, program: Uuid)
    requires Consistent(s.tables) && pid !in s.handlers && IsMerge(r) && CanBePaid(s.tables, r, program, o.uuid) && o.fault.NoFault?
    ensures var row := PaidRow(s.tables, r, program, o);
      Run(s, Approach(pid, r, o) + Steps(pid, o, 3) + Steps(pid, o, 2)) ==
        System(WithRow(Claimed(s.tables, r), row), s.handlers[pid := SavedAs(OnTheWay(s.tables, r, program, o), row)],
               s.log + [Attesting(s.tables, pid, r, program, o)])
  {
    Submits(s, pid, r, o, program);
    RunThen(s, Approach(pid, r, o) + Steps(pid, o, 3), Steps(pid, o, 2));
    SavesNext(ClaimedIn(s, r).(log := s.log + [Attesting(s.tables, pid, r, program, o)]), pid, OnTheWay(s.tables, r, program, o), o);
  }

  /** From any consistent state in which a delivery can be paid, a crash at that point leaves its row uncounted. */
  lemma CrashLeavesGap(s: System, pid: nat, r: Request, o: Oracle, program: Uuid)
    requires Consistent(s.tables) && pid !in s.handlers && IsMerge(r) && CanBePaid(s.tables, r, program, o.uuid) && o.fault.NoFault?
    ensures var s' := Run(s, CrashedJourney(pid, r, o));
      && pid in s'.handlers && OwesForGood(s'.handlers[pid], program)
      && s'.tables.payouts == s.tables.payouts[(program, MergeOf(r).pr) := PaidRow(s.tables, r, program, o)]
      && s'.tables.programs == s.tables.programs
  {
    SavedBeforeCrash(s, pid, r, o, program);
    RunOne(s, Approach(pid, r, o) + Steps(pid, o, 3) + Steps(pid, o, 2), Crash(pid));
  }

  /** So from an initial state there is a run after which `milestone_spent` never equals the payout rows again. */
  lemma SpentMayStayBehind(delivery: Option<Text>, later: seq<Action>)
    ensures var o := Oracle(NoFault, 7, Simulated);
      var s' := Run(ExampleStart(), CrashedJourney(0, ExampleRequest(delivery), o) + later);
      && Initial(ExampleStart()) && 1 in s'.tables.programs
      && s'.tables.programs[1].spent < Sum(s'.tables.payouts, AmountOf(1))
  {
    var r, o := ExampleRequest(delivery), Oracle(NoFault, 7, Simulated);
    ExampleCanBePaid(delivery, 7);
    CrashLeavesGap(ExampleStart(), 0, r, o, 1);
    GapIsPermanent(ExampleStart(), CrashedJourney(0, r, o), later, 0, 1);
  }
}
