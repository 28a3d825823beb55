/**
 The gateway's bookkeeping: `milestone_spent` and `escrow_balance` against the payout rows.
 */
module GatewayAccounting {
  import opened Containers
  import opened GatewayInvariant
  import opened GatewayProtocol
  import opened GatewayRuns
  import opened GatewayTables
  import opened Integers

  /** The amount of the payout row a handler has saved for a program and not yet counted. */
  function Pending(h: Handler, p: Uuid): int {
    if h.marks.saved && !h.marks.counted && h.job.program == p then h.job.amount else 0
  }

  function PendingOf(p: Uuid): Handler -> int {
    (h: Handler) => Pending(h, p)
  }

  function AmountOf(p: Uuid): PayoutRow -> int {
    (row: PayoutRow) => if row.program == p then row.amount else 0
  }

  /** What a program's balance column held at the start; a program created later starts from zero. */
  function OpeningBalance(s: System, p: Uuid): int {
    if p in s.tables.programs then s.tables.programs[p].escrow else 0
  }

  ghost predicate Books(t: Tables, handlers: map<nat, Handler>, p: Uuid, opening: int) {
    p in t.programs ==>
      && t.programs[p].spent + Sum(handlers, PendingOf(p)) == Sum(t.payouts, AmountOf(p))
      && t.programs[p].escrow == Max(opening - t.programs[p].spent, 0)
  }

  ghost predicate Balanced(s: System, p: Uuid, opening: int) {
    Books(s.tables, s.handlers, p, opening)
  }

  /** Nothing is booked for a program that does not exist. */
  lemma NothingBooked(s: System, p: Uuid)
    requires GInv(s) && p !in s.tables.programs
    ensures Sum(s.handlers, PendingOf(p)) == 0 && Sum(s.tables.payouts, AmountOf(p)) == 0
  {
    forall pid | pid in s.handlers ensures PendingOf(p)(s.handlers[pid]) == 0 {
      assert HandlerOk(s.tables, s.log, pid, s.handlers[pid]);
    }
    SumOfZeroes(s.handlers, PendingOf(p));
    SumOfZeroes(s.tables.payouts, AmountOf(p));
  }

  /** A step that neither saves nor counts leaves what is pending and what is booked. */
  lemma QuietStep(t: Tables, log: seq<Submission>, pid: nat, h: Handler, o: Oracle, w: Written, p: Uuid)
    requires HandlerOk(t, log, pid, h) && w == Write(t, Statement(t, h, o), o.fault)
    requires !h.pc.SavePayout? && !h.pc.Increment?
    ensures Pending(Continue(t, h, o, w), p) == Pending(h, p)
    ensures w.tables.payouts == t.payouts && w.tables.programs == t.programs
  {
    JobMoves(t, h, o, w);
    MarksMove(t, h, o, w);
    QuietAmounts(t, log, pid, h, o, w);
  }

  lemma QuietAmounts(t: Tables, log: seq<Submission>, pid: nat, h: Handler, o: Oracle, w: Written)
    requires HandlerOk(t, log, pid, h) && !h.pc.SavePayout? && !h.pc.Increment?
    ensures Continue(t, h, o, w).marks.counted == h.marks.counted
    ensures h.marks.saved ==> Continue(t, h, o, w).job.amount == h.job.amount
  {
  }

  /** Saving a row makes its amount pending. */
  lemma SavingStep(t: Tables, log: seq<Submission>, pid: nat, h: Handler, o: Oracle, w: Written, p: Uuid)
    requires HandlerOk(t, log, pid, h) && w == Write(t, Statement(t, h, o), o.fault) && h.pc.SavePayout?
    ensures w.tables.programs == t.programs && Pending(h, p) == 0
    ensures var h' := Continue(t, h, o, w);
      Pending(h', p) == Sum(w.tables.payouts, AmountOf(p)) - Sum(t.payouts, AmountOf(p))
  {
    if w.took {
      var row := PayoutRowFor(o.uuid, h.job.program, h.job.merge, h.job.address, h.job.amount, h.job.tag).value;
      assert w.tables.payouts == t.payouts[(h.job.program, row.pr) := row];
      SumUpdate(t.payouts, AmountOf(p), (h.job.program, row.pr), row);
    }
  }

  /** Counting a row moves its amount from pending to spent, and out of the balance. */
  lemma CountingStep(t: Tables, log: seq<Submission>, pid: nat, h: Handler, o: Oracle, w: Written, p: Uuid, opening: int)
    requires HandlerOk(t, log, pid, h) && w == Write(t, Statement(t, h, o), o.fault) && h.pc.Increment?
    requires p in t.programs && t.programs[p].escrow == Max(opening - t.programs[p].spent, 0)
    ensures w.tables.payouts == t.payouts && p in w.tables.programs
    ensures var h' := Continue(t, h, o, w);
      w.tables.programs[p].spent + Pending(h', p) == t.programs[p].spent + Pending(h, p)
    ensures w.tables.programs[p].escrow == Max(opening - w.tables.programs[p].spent, 0)
  {
  }

  lemma CountingKeepsPrograms(t: Tables, h: Handler, o: Oracle)
    requires h.pc.Increment?
    ensures Write(t, Statement(t, h, o), o.fault).tables.programs.Keys == t.programs.Keys
  {
  }

  lemma StepBooks(t: Tables, log: seq<Submission>, handlers: map<nat, Handler>, pid: nat, o: Oracle, p: Uuid, opening: int)
    requires pid in handlers && HandlerOk(t, log, pid, handlers[pid]) && Books(t, handlers, p, opening)
    ensures var w := Write(t, Statement(t, handlers[pid], o), o.fault);
      Books(w.tables, handlers[pid := Continue(t, handlers[pid], o, w)], p, opening)
  {
    var h := handlers[pid];
    var w := Write(t, Statement(t, h, o), o.fault);
    var h' := Continue(t, h, o, w);
    SumUpdate(handlers, PendingOf(p), pid, h');
    if h.pc.SavePayout? {
      SavingStep(t, log, pid, h, o, w, p);
    } else if h.pc.Increment? {
      CountingKeepsPrograms(t, h, o);
      if p in t.programs {
        CountingStep(t, log, pid, h, o, w, p, opening);
      }
    } else {
      QuietStep(t, log, pid, h, o, w, p);
    }
  }

  lemma StepBalanced(s: System, pid: nat, o: Oracle, p: Uuid, opening: int)
    requires HandlersOk(s) && Balanced(s, p, opening) && pid in s.handlers
    ensures Balanced(Next(s, Step(pid, o)), p, opening)
  {
    assert HandlerOk(s.tables, s.log, pid, s.handlers[pid]);
    StepBooks(s.tables, s.log, s.handlers, pid, o, p, opening);
  }

  /** Admin calls on existing programs touch neither spent amounts nor balances. */
  lemma AdminBalanced(s: System, a: Action, p: Uuid, opening: int)
    requires Balanced(s, p, opening) && (a.Pause? || a.Resume? || a.SetRatio? || a.Register?)
    ensures Balanced(Next(s, a), p, opening)
  {
  }

  /** Creating a program leaves every other one, and every handler and payout. */
  lemma CreateKeepsOthers(s: System, a: Action, p: Uuid)
    requires a.Create?
    ensures var s' := Next(s, a);
      && s'.handlers == s.handlers && s'.tables.payouts == s.tables.payouts
      && (p in s.tables.programs ==> p in s'.tables.programs && s'.tables.programs[p] == s.tables.programs[p])
      && (p !in s.tables.programs && p in s'.tables.programs ==> s'.tables.programs[p].spent == 0 && s'.tables.programs[p].escrow == 0)
  {
  }

  /** A created program starts with nothing spent, nothing booked and an empty balance. */
  lemma CreateBalanced(s: System, a: Action, p: Uuid, opening: int)
    requires GInv(s) && Balanced(s, p, opening) && (p !in s.tables.programs ==> opening == 0) && a.Create?
    ensures Balanced(Next(s, a), p, opening)
  {
    CreateKeepsOthers(s, a, p);
    if p !in s.tables.programs {
      NothingBooked(s, p);
    }
  }

  lemma HandlerBalanced(s: System, a: Action, p: Uuid, opening: int)
    requires HandlersOk(s) && Balanced(s, p, opening) && (a.Arrive? || a.Step? || a.Crash?)
    ensures Balanced(Next(s, a), p, opening)
  {
    match a
    case Arrive(pid, request) => SumUpdate(s.handlers, PendingOf(p), pid, NewHandler(request));
    case Step(pid, o) => if pid in s.handlers { StepBalanced(s, pid, o, p, opening); }
    case Crash(pid) => if pid in s.handlers {
        SumUpdate(s.handlers, PendingOf(p), pid, s.handlers[pid].(pc := Crashed));
      }
  }

  lemma NextBalanced(s: System, a: Action, p: Uuid, opening: int)
    requires GInv(s) && Balanced(s, p, opening) && (p !in s.tables.programs ==> opening == 0)
    ensures Balanced(Next(s, a), p, opening)
  {
    if a.Create? {
      CreateBalanced(s, a, p, opening);
    } else if a.Arrive? || a.Step? || a.Crash? {
      HandlerBalanced(s, a, p, opening);
    } else {
      AdminBalanced(s, a, p, opening);
    }
  }

  /**
   The books balance after every interleaving and every crash: a program's `milestone_spent`
   plus the payout rows whose handlers have not completed their increment is the sum of its
   payout rows, and its balance column is its opening balance less what was spent, not below 0.
   */
  lemma {:induction false} BooksBalance(s: System, actions: seq<Action>, p: Uuid)
    requires Initial(s)
    ensures Balanced(Run(s, actions), p, OpeningBalance(s, p))
  {
    if actions == [] {
      assert Sum(s.handlers, PendingOf(p)) == 0 && Sum(s.tables.payouts, AmountOf(p)) == 0;
    } else {
      var prefix, last := actions[..|actions| - 1], actions[|actions| - 1];
      BooksBalance(s, prefix, p);
      InitialHolds(s);
      RunKeepsGInv(s, prefix);
      assert p !in Run(s, prefix).tables.programs ==> OpeningBalance(s, p) == 0;
      NextBalanced(Run(s, prefix), last, p, OpeningBalance(s, p));
    }
  }

  /** Pending amounts are amounts of payout rows, and no row is pending twice. */
  lemma PendingRowsExist(s: System, actions: seq<Action>, pid: nat, qid: nat)
    requires Initial(s)
    requires pid in Run(s, actions).handlers && qid in Run(s, actions).handlers
    requires Run(s, actions).handlers[pid].marks.saved && Run(s, actions).handlers[qid].marks.saved
    ensures var s' := Run(s, actions);
      var h, g := s'.handlers[pid], s'.handlers[qid];
      && OwnsRow(s'.tables, h)
      && (pid != qid ==> h.job.payoutId != g.job.payoutId)
  {
    InitialHolds(s);
    RunKeepsGInv(s, actions);
    var s' := Run(s, actions);
    assert HandlerOk(s'.tables, s'.log, pid, s'.handlers[pid]) && HandlerOk(s'.tables, s'.log, qid, s'.handlers[qid]);
    assert pid == qid || Apart(s'.handlers[pid], s'.handlers[qid]);
  }

  // ----- Amounts -----

  /** A state whose program has this ratio, after a submission with this tag. */
  ghost predicate PricedIn(s: System, program: Uuid, amount: int, tag: string) {
    && program in s.tables.programs && s.tables.programs[program].ratio == amount
    && exists i :: 0 <= i < |s.log| && s.log[i].tag == tag
  }

  ghost predicate Priced(s: System, actions: seq<Action>, program: Uuid, amount: int, tag: string) {
    exists n :: 0 <= n <= |actions| && PricedIn(Run(s, actions[..n]), program, amount, tag)
  }

  lemma PricedStays(s: System, prefix: seq<Action>, a: Action, program: Uuid, amount: int, tag: string)
    requires Priced(s, prefix, program, amount, tag)
    ensures Priced(s, prefix + [a], program, amount, tag)
  {
    var n :| 0 <= n <= |prefix| && PricedIn(Run(s, prefix[..n]), program, amount, tag);
    assert (prefix + [a])[..n] == prefix[..n];
  }

  lemma PricedNow(s: System, prefix: seq<Action>, a: Action, program: Uuid, amount: int, tag: string)
    requires PricedIn(Run(s, prefix), program, amount, tag)
    ensures Priced(s, prefix + [a], program, amount, tag)
  {
    assert (prefix + [a])[..|prefix|] == prefix;
  }

  /** The amount a handler goes on to save is the ratio its program has at that read. */
  lemma StepToSave(t: Tables, log: seq<Submission>, pid: nat, h: Handler, o: Oracle, w: Written)
    requires HandlerOk(t, log, pid, h) && w == Write(t, Statement(t, h, o), o.fault) && Continue(t, h, o, w).pc.SavePayout?
    ensures h.pc.LoadRatio? && h.job.program in t.programs
    ensures var h' := Continue(t, h, o, w);
      h'.job.program == h.job.program && h'.job.tag == h.job.tag && h'.job.amount == t.programs[h.job.program].ratio
    ensures exists i :: 0 <= i < |log| && log[i].tag == h.job.tag
  {
    var i :| 0 <= i < |log| && IsSubmissionOf(log[i], pid, h);
    assert log[i].tag == h.job.tag;
  }

  lemma NextToSave(s: System, a: Action, pid: nat)
    requires HandlersOk(s) && pid in Next(s, a).handlers && Next(s, a).handlers[pid].pc.SavePayout?
    ensures pid in s.handlers
    ensures var job := Next(s, a).handlers[pid].job;
      || s.handlers[pid] == Next(s, a).handlers[pid]
      || PricedIn(s, job.program, job.amount, job.tag)
  {
    if a.Step? && a.pid == pid && pid in s.handlers {
      var h := s.handlers[pid];
      assert HandlerOk(s.tables, s.log, pid, h);
      StepToSave(s.tables, s.log, pid, h, a.oracle, Write(s.tables, Statement(s.tables, h, a.oracle), a.oracle.fault));
    } else if pid in s.handlers {
      OthersMove(s, a, pid);
    }
  }

  /** Every amount about to be saved, and every amount saved, was priced at some point of the run. */
  ghost predicate AllPriced(s: System, actions: seq<Action>) {
    var s' := Run(s, actions);
    && (forall pid :: pid in s'.handlers && s'.handlers[pid].pc.SavePayout? ==>
         var job := s'.handlers[pid].job; Priced(s, actions, job.program, job.amount, job.tag))
    && (forall k :: k in s'.tables.payouts ==>
         var row := s'.tables.payouts[k]; Priced(s, actions, row.program, row.amount, row.tag))
  }

  lemma NextPricedHandler(s: System, prefix: seq<Action>, a: Action, pid: nat)
    requires HandlersOk(Run(s, prefix)) && AllPriced(s, prefix)
    requires var s' := Next(Run(s, prefix), a); pid in s'.handlers && s'.handlers[pid].pc.SavePayout?
    ensures var job := Next(Run(s, prefix), a).handlers[pid].job; Priced(s, prefix + [a], job.program, job.amount, job.tag)
  {
    NextToSave(Run(s, prefix), a, pid);
    var job := Next(Run(s, prefix), a).handlers[pid].job;
    if PricedIn(Run(s, prefix), job.program, job.amount, job.tag) {
      PricedNow(s, prefix, a, job.program, job.amount, job.tag);
    } else {
      PricedStays(s, prefix, a, job.program, job.amount, job.tag);
    }
  }

  lemma NextPricedRow(s: System, prefix: seq<Action>, a: Action, k: (Uuid, I64))
    requires AllPriced(s, prefix) && k in Next(Run(s, prefix), a).tables.payouts
    requires Grows(Run(s, prefix).tables, Next(Run(s, prefix), a).tables)
    ensures var row := Next(Run(s, prefix), a).tables.payouts[k]; Priced(s, prefix + [a], row.program, row.amount, row.tag)
  {
    var row := Next(Run(s, prefix), a).tables.payouts[k];
    if k !in Run(s, prefix).tables.payouts {
      NewRowIsSaved(Run(s, prefix), a, k);
    }
    PricedStays(s, prefix, a, row.program, row.amount, row.tag);
  }

  /**
   The amount of every payout row is the ratio its program had in some earlier state of the run, one
   in which the row's submission was already logged: one point each, priced after the submission.
   */
  lemma {:induction false} AmountsWereRatios(s: System, actions: seq<Action>)
    requires Initial(s)
    ensures AllPriced(s, actions)
  {
    if actions != [] {
      var prefix, last := actions[..|actions| - 1], actions[|actions| - 1];
      assert actions == prefix + [last];
      AmountsWereRatios(s, prefix);
      InitialHolds(s);
      RunKeepsGInv(s, prefix);
      NextExtends(Run(s, prefix), last);
      var s' := Next(Run(s, prefix), last);
      forall pid | pid in s'.handlers && s'.handlers[pid].pc.SavePayout?
        ensures var job := s'.handlers[pid].job; Priced(s, actions, job.program, job.amount, job.tag)
      {
        NextPricedHandler(s, prefix, last, pid);
      }
      forall k | k in s'.tables.payouts
        ensures var row := s'.tables.payouts[k]; Priced(s, actions, row.program, row.amount, row.tag)
      {
        NextPricedRow(s, prefix, last, k);
      }
    }
  }
}
