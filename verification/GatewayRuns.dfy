/**
 The gateway's invariant over all interleavings, and what it means for deliveries, payouts and tags.
 */
module GatewayRuns {
  import opened GatewayInvariant
  import opened GatewayProtocol
  import opened GatewayTables
  import opened Integers
  import opened RowEncodings

  // ----- Every action keeps the invariant -----

  ghost predicate Extends(s: System, s': System) {
    Consistent(s'.tables) && Grows(s.tables, s'.tables) && s.log <= s'.log
  }

  lemma NextExtends(s: System, a: Action)
    requires Consistent(s.tables) && HandlersOk(s)
    ensures Extends(s, Next(s, a))
  {
    match a
    case Arrive(_, _) =>
    case Step(pid, o) =>
      if pid in s.handlers {
        var h := s.handlers[pid];
        assert HandlerOk(s.tables, s.log, pid, h);
        StatementKeeps(s.tables, h, o);
        WriteKeeps(s.tables, Statement(s.tables, h, o), o.fault);
      }
    case Crash(_) =>
    case Create(id, onChainId, repo, maintainer, ratio, cap) =>
      AdminCreateKeeps(s.tables, id, onChainId, repo, maintainer, ratio, cap);
    case Pause(id) => StatusKeeps(s.tables, id, RowActive, RowPaused);
    case Resume(id) => StatusKeeps(s.tables, id, RowPaused, RowActive);
    case SetRatio(id, ratio) => RatioKeeps(s.tables, id, ratio);
    case Register(id, user, address) => RegisterKeeps(s.tables, id, user, address);
  }

  lemma NextHandlersOk(s: System, a: Action)
    requires Consistent(s.tables) && HandlersOk(s)
    ensures HandlersOk(Next(s, a))
  {
    NextExtends(s, a);
    var s' := Next(s, a);
    forall pid | pid in s'.handlers ensures HandlerOk(s'.tables, s'.log, pid, s'.handlers[pid]) {
      if pid in s.handlers && s'.handlers[pid] == s.handlers[pid] {
        HandlerOkStays(s.tables, s.log, s'.tables, s'.log, pid, s.handlers[pid]);
      } else if a.Step? {
        AdvanceOk(s.tables, s.log, pid, s.handlers[pid], a.oracle);
      } else if a.Crash? {
        EndOk(s.tables, s.log, pid, s.handlers[pid], Crashed);
      }
    }
  }

  lemma StepNoSharing(s: System, pid: nat, o: Oracle, q: nat)
    requires HandlersOk(s) && NoSharing(s) && pid in s.handlers && q in s.handlers && q != pid
    ensures Apart(Next(s, Step(pid, o)).handlers[pid], s.handlers[q])
  {
    var h, g := s.handlers[pid], s.handlers[q];
    var w := Write(s.tables, Statement(s.tables, h, o), o.fault);
    assert HandlerOk(s.tables, s.log, pid, h) && HandlerOk(s.tables, s.log, q, g) && Apart(h, g);
    MarksMove(s.tables, h, o, w);
    JobMoves(s.tables, h, o, w);
    if h.pc.Claim? {
      TakesClaim(s.tables, h, o, w);
    } else if h.pc.SavePayout? {
      TakesRow(s.tables, h, o, w);
    }
  }

  lemma NextNoSharing(s: System, a: Action)
    requires HandlersOk(s) && NoSharing(s)
    ensures NoSharing(Next(s, a))
  {
    if a.Step? && a.pid in s.handlers {
      forall q | q in s.handlers && q != a.pid ensures Apart(Next(s, a).handlers[a.pid], s.handlers[q]) {
        StepNoSharing(s, a.pid, a.oracle, q);
      }
    }
  }

  /** A handler moves by its own steps only, or is crashed. */
  lemma OthersMove(s: System, a: Action, pid: nat)
    requires pid in s.handlers && !(a.Step? && a.pid == pid)
    ensures pid in Next(s, a).handlers
    ensures Next(s, a).handlers[pid] == if a == Crash(pid) then s.handlers[pid].(pc := Crashed) else s.handlers[pid]
  {
  }

  /** Handlers keep their request, and the mark of a submission. */
  lemma NextKeepsMarks(s: System, a: Action, q: nat)
    requires q in s.handlers
    ensures q in Next(s, a).handlers
    ensures var h, h' := s.handlers[q], Next(s, a).handlers[q];
      && h'.request == h.request && (h.marks.submitted ==> h'.marks.submitted)
      && (a.Step? && a.pid == q && h.pc.Submit? ==> h'.marks.submitted)
  {
    if a.Step? && a.pid == q {
      MarksMove(s.tables, s.handlers[q], a.oracle, Write(s.tables, Statement(s.tables, s.handlers[q], a.oracle), a.oracle.fault));
    } else {
      OthersMove(s, a, q);
    }
  }

  /** Only the submitting step of a handler adds to the log, and it adds one entry of its own. */
  lemma NextLog(s: System, a: Action)
    requires HandlersOk(s)
    ensures Next(s, a).log == s.log ||
      (a.Step? && a.pid in s.handlers && s.handlers[a.pid].pc.Submit? && !s.handlers[a.pid].marks.submitted
       && var e := Attestation(a.pid, s.handlers[a.pid], a.oracle.mode);
       Next(s, a).log == s.log + [e] && e.points == 1)
  {
    if a.Step? && a.pid in s.handlers {
      assert HandlerOk(s.tables, s.log, a.pid, s.handlers[a.pid]);
    }
  }

  lemma NextLogOk(s: System, a: Action)
    requires HandlersOk(s) && LogOk(s)
    ensures LogOk(Next(s, a))
  {
    NextLog(s, a);
    forall q | q in s.handlers
      ensures q in Next(s, a).handlers
      ensures var h, h' := s.handlers[q], Next(s, a).handlers[q];
        && h'.request == h.request && (h.marks.submitted ==> h'.marks.submitted)
        && (a.Step? && a.pid == q && h.pc.Submit? ==> h'.marks.submitted)
    {
      NextKeepsMarks(s, a, q);
    }
    LogGrows(s, Next(s, a));
  }

  lemma LogGrows(s: System, s': System)
    requires LogOk(s)
    requires forall q :: q in s.handlers ==>
      && q in s'.handlers && s'.handlers[q].request == s.handlers[q].request
      && (s.handlers[q].marks.submitted ==> s'.handlers[q].marks.submitted)
    requires s'.log == s.log || (|s'.log| == |s.log| + 1 && s.log <= s'.log && var e := s'.log[|s.log|];
      && e.handler in s.handlers && !s.handlers[e.handler].marks.submitted && s'.handlers[e.handler].marks.submitted
      && e.delivery == s.handlers[e.handler].request.delivery && e.points == 1)
    ensures LogOk(s')
  {
    assert forall i :: 0 <= i < |s.log| ==> s'.log[i] == s.log[i];
  }

  /** A row that appears is that of a handler about to save. */
  lemma NewRowIsSaved(s: System, a: Action, k: (Uuid, I64))
    requires k !in s.tables.payouts && k in Next(s, a).tables.payouts
    ensures a.Step? && a.pid in s.handlers && s.handlers[a.pid].pc.SavePayout?
    ensures Statement(s.tables, s.handlers[a.pid], a.oracle).Ok?
    ensures Next(s, a).tables == Statement(s.tables, s.handlers[a.pid], a.oracle).value
    ensures var job, row := s.handlers[a.pid].job, Next(s, a).tables.payouts[k];
      row.program == job.program && row.amount == job.amount && row.tag == job.tag
  {
    var h := s.handlers[a.pid];
    if !h.pc.SavePayout? {
      OnlySavingAddsRows(s.tables, h, a.oracle);
      assert false;
    }
  }

  /** A row that appears was submitted before: its submission is already in the log. */
  lemma NewRowBacked(s: System, a: Action, k: (Uuid, I64))
    requires Consistent(s.tables) && HandlersOk(s)
    requires k !in s.tables.payouts && k in Next(s, a).tables.payouts
    ensures RowBacked(s.tables, s.log, Next(s, a).tables.payouts[k])
  {
    NewRowIsSaved(s, a, k);
    assert HandlerOk(s.tables, s.log, a.pid, s.handlers[a.pid]);
    SavedRowBacked(s.tables, s.log, a.pid, s.handlers[a.pid], a.oracle);
  }

  lemma NextRowsBacked(s: System, a: Action)
    requires GInv(s)
    ensures RowsBacked(Next(s, a))
  {
    NextExtends(s, a);
    var s' := Next(s, a);
    forall k | k in s'.tables.payouts ensures RowBacked(s'.tables, s'.log, s'.tables.payouts[k]) {
      if k !in s.tables.payouts {
        NewRowBacked(s, a, k);
      }
      RowBackedStays(s.tables, s.log, s'.tables, s'.log, s'.tables.payouts[k]);
    }
  }

  lemma NextKeepsGInv(s: System, a: Action)
    requires GInv(s)
    ensures GInv(Next(s, a)) && Extends(s, Next(s, a))
  {
    NextExtends(s, a);
    NextHandlersOk(s, a);
    NextNoSharing(s, a);
    NextLogOk(s, a);
    NextRowsBacked(s, a);
  }

  lemma {:induction false} RunKeepsGInv(s: System, actions: seq<Action>)
    requires GInv(s)
    ensures GInv(Run(s, actions)) && Extends(s, Run(s, actions))
  {
    if actions != [] {
      var prefix, last := actions[..|actions| - 1], actions[|actions| - 1];
      RunKeepsGInv(s, prefix);
      NextKeepsGInv(Run(s, prefix), last);
      GrowsTransitive(s.tables, Run(s, prefix).tables, Run(s, actions).tables);
    }
  }

  lemma InitialHolds(s: System)
    requires Initial(s)
    ensures GInv(s)
  {
  }

  // ----- What it means -----

  /** A log entry names the PR, the user and the program of its handler. */
  lemma LoggedTarget(s: System, i: nat)
    requires GInv(s) && i < |s.log|
    ensures s.log[i].handler in s.handlers
    ensures var h, e := s.handlers[s.log[i].handler], s.log[i];
      && h.marks.submitted && h.job.merge.pr == e.pr && h.job.merge.user == e.user && h.job.onChain == e.onChain
      && h.job.program in s.tables.programs && h.job.onChain == AsU64(s.tables.programs[h.job.program].onChainId)
      && s.tables.programs[h.job.program].repo == h.job.merge.repo
  {
    var pid := s.log[i].handler;
    assert HandlerOk(s.tables, s.log, pid, s.handlers[pid]);
    var k :| 0 <= k < |s.log| && IsSubmissionOf(s.log[k], pid, s.handlers[pid]);
    assert k == i;
  }

  /** Two programs with one on-chain id are one program. */
  lemma SameProgram(t: Tables, p: Uuid, q: Uuid)
    requires Consistent(t) && p in t.programs && q in t.programs
    requires AsU64(t.programs[p].onChainId) == AsU64(t.programs[q].onChainId)
    ensures p == q
  {
    AsU64Injective(t.programs[p].onChainId, t.programs[q].onChainId);
  }

  /**
   However many handlers run concurrently and wherever they crash, a GitHub delivery id leads to
   at most one submitted attestation.
   */
  lemma OneSubmissionPerDelivery(s: System, actions: seq<Action>, i: nat, j: nat)
    requires Initial(s)
    requires var log := Run(s, actions).log; i < |log| && j < |log| && log[i].delivery.Some? && log[i].delivery == log[j].delivery
    ensures i == j
  {
    InitialHolds(s);
    RunKeepsGInv(s, actions);
    var s' := Run(s, actions);
    var p, q := s'.log[i].handler, s'.log[j].handler;
    assert HandlerOk(s'.tables, s'.log, p, s'.handlers[p]) && HandlerOk(s'.tables, s'.log, q, s'.handlers[q]);
    assert p == q || Apart(s'.handlers[p], s'.handlers[q]);
  }

  /**
   Every payout row of a reachable state has a logged submission with the on-chain id of its
   program, its PR, user, points and tag, and its address is the contributor's table entry.
   */
  lemma RowsAreBacked(s: System, actions: seq<Action>, k: (Uuid, I64))
    requires Initial(s) && k in Run(s, actions).tables.payouts
    ensures var s' := Run(s, actions); RowBacked(s'.tables, s'.log, s'.tables.payouts[k])
  {
    InitialHolds(s);
    RunKeepsGInv(s, actions);
  }

  /** No two payout rows share a transaction tag. */
  lemma TagsAreUnique(s: System, actions: seq<Action>, k: (Uuid, I64), l: (Uuid, I64))
    requires Initial(s)
    requires var rows := Run(s, actions).tables.payouts; k in rows && l in rows && rows[k].tag == rows[l].tag
    ensures k == l
  {
    InitialHolds(s);
    RunKeepsGInv(s, actions);
    var s' := Run(s, actions);
    var rows := s'.tables.payouts;
    assert RowBacked(s'.tables, s'.log, rows[k]) && RowBacked(s'.tables, s'.log, rows[l]);
    TagsApart(s'.tables, s'.log, rows[k], rows[l]);
  }

  /**
   Saving the payout fails, faults aside, only for a PR number above `i64::MAX`, for a PR
   already paid, or for a reused row id; the amount always fits.
   */
  lemma SaveFailsOnlyFor(t: Tables, log: seq<Submission>, pid: nat, h: Handler, o: Oracle)
    requires HandlerOk(t, log, pid, h) && h.pc.SavePayout?
    ensures Statement(t, h, o) == Err(Internal) <==> h.job.merge.pr > I64_MAX
    ensures Statement(t, h, o) == Err(Conflict) <==>
      h.job.merge.pr <= I64_MAX && ((h.job.program, h.job.merge.pr) in t.payouts || IdTaken(t, o.uuid))
    ensures Statement(t, h, o).Err? ==> Statement(t, h, o).error in {Internal, Conflict}
  {
  }
}
