/**
 What each step of a handler leads to, failures included, and what a delivery is answered that is
 recorded already, refused, or without a registered contributor.
 */
module GatewayAnswers {
  import opened Containers
  import opened GatewayDeliveries
  import opened GatewayInvariant
  import opened GatewayJourneys
  import opened GatewayProgress
  import opened GatewayProtocol
  import opened GatewayRuns
  import opened GatewayStatements
  import opened GatewayTables
  import opened Integers
  import opened RowEncodings
  import opened Slugs

  /** A handler after one step of its own. */
  ghost function After(t: Tables, h: Handler, o: Oracle): Handler {
    Continue(t, h, o, Write(t, Statement(t, h, o), o.fault))
  }

  /** The handler goes on to record a failure, and keeps all it knows. */
  predicate Fails(h: Handler, h': Handler, e: ServiceError) {
    h'.pc == Audit(FailedReply(e), Failed) && h'.request == h.request && h'.marks.submitted == h.marks.submitted
  }

  // ----- Intake -----

  /** The duplicate check, even if its read is lost, lets a delivery go on unless it has found its id recorded. */
  lemma SeenCheckDecides(t: Tables, h: Handler, o: Oracle)
    requires h.pc.SeenCheck?
    ensures var recorded := !Unrecorded(t, h.request.delivery);
      && (After(t, h, o) == h.(pc := Done(Duplicate)) <==> recorded && o.fault.NoFault?)
      && (After(t, h, o) == h.(pc := Claim) <==> !(recorded && o.fault.NoFault?))
  {
  }

  lemma ClaimDecides(t: Tables, h: Handler, o: Oracle)
    requires h.pc.Claim? && h.request.delivery.Some?
    ensures var recorded, h' := !Unrecorded(t, h.request.delivery), After(t, h, o);
      && (h'.pc == Decode <==> !recorded && o.fault.NoFault?)
      && (h'.pc == Done(FailedReply(Conflict)) <==> recorded && o.fault.NoFault?)
      && (h'.pc == Done(FailedReply(DatabaseError)) <==> !o.fault.NoFault?)
      && h'.marks.claimed == (!recorded && !o.fault.LostBefore?)
  {
  }

  // ----- Reads of `process_merge` -----

  /** A lost read of `process_merge` is a database error, whichever it is. */
  lemma LostReadFails(t: Tables, h: Handler, o: Oracle)
    requires !o.fault.NoFault?
    requires h.pc.Resolve? || h.pc.CheckStatus? || h.pc.CheckExists? || h.pc.FetchId? || h.pc.FindContributor? || h.pc.LoadRatio?
    ensures Fails(h, After(t, h, o), DatabaseError)
  {
  }

  lemma ResolveDecides(t: Tables, h: Handler, o: Oracle)
    requires h.pc.Resolve? && o.fault.NoFault?
    ensures var active := exists id :: ActiveFor(t, h.job.merge.repo, id);
      && (After(t, h, o).pc == CheckStatus <==> active)
      && (active ==> ActiveFor(t, h.job.merge.repo, After(t, h, o).job.program)
                     && After(t, h, o).job.onChain == AsU64(t.programs[After(t, h, o).job.program].onChainId))
      && (!active ==> Fails(h, After(t, h, o), NotFound))
  {
  }

  /** A program paused since it was resolved is ignored; programs are never removed in between. */
  lemma StatusDecides(t: Tables, h: Handler, o: Oracle)
    requires h.pc.CheckStatus? && o.fault.NoFault? && h.job.program in t.programs
    ensures var paused := t.programs[h.job.program].status == RowPaused;
      After(t, h, o) == h.(pc := if paused then Audit(IgnoredReply, Ignored) else CheckExists)
  {
  }

  lemma ContributorDecides(t: Tables, h: Handler, o: Oracle)
    requires h.pc.FindContributor? && o.fault.NoFault?
    ensures Registered(t, h) ==>
      After(t, h, o) == h.(pc := Submit, job := h.job.(address := t.contributors[(h.job.program, h.job.merge.user)]))
    ensures !Registered(t, h) ==> Fails(h, After(t, h, o), NotFound)
  {
  }

  // ----- Writes -----

  /** What saving the row leads to: each failure of the statement is the handler's failure. */
  lemma SaveDecides(t: Tables, h: Handler, o: Oracle)
    requires h.pc.SavePayout?
    ensures var r, h' := PersistPayout(t, o.uuid, h.job.program, h.job.merge, h.job.address, h.job.amount, h.job.tag), After(t, h, o);
      && (h'.pc == Increment <==> r.Ok? && o.fault.NoFault?)
      && (r.Err? && (o.fault.NoFault? || r.error == Internal) ==> Fails(h, h', r.error))
      && (!o.fault.NoFault? && r != Err(Internal) ==> Fails(h, h', DatabaseError))
      && h'.job.payoutId == o.uuid && h'.marks.saved == (r.Ok? && !o.fault.LostBefore?)
  {
    PayoutIsSaved(t, o.uuid, h.job.program, h.job.merge, h.job.address, h.job.amount, h.job.tag);
  }

  lemma IncrementDecides(t: Tables, h: Handler, o: Oracle)
    requires h.pc.Increment? && h.job.program in t.programs && FitsI64(h.job.amount)
    ensures var p, h' := t.programs[h.job.program], After(t, h, o);
      var room := FitsI64(p.spent + h.job.amount) && FitsI64(p.escrow - h.job.amount);
      && (h'.pc == RecordProcessed <==> room && o.fault.NoFault?)
      && (!(room && o.fault.NoFault?) ==> Fails(h, h', DatabaseError))
      && h'.marks.counted == (room && !o.fault.LostBefore?)
  {
  }

  /** What an audit insert leaves: its row, unless the delivery id is recorded already or the insert is lost before. */
  predicate Audited(t: Tables, h: Handler, o: Oracle, status: EventStatus) {
    Write(t, Statement(t, h, o), o.fault).tables ==
      if Unrecorded(t, h.request.delivery) && !o.fault.LostBefore?
      then Tables(t.programs, t.contributors, t.payouts, t.events + [EventRow(h.request.delivery, status)]) else t
  }

  /** A request whose signature does not verify is refused, and leaves a `rejected` row. */
  lemma RefusalIsAudited(t: Tables, h: Handler, o: Oracle)
    requires h.pc.Start? && !h.request.signed
    ensures Audited(t, h, o, Rejected) && After(t, h, o) == h.(pc := Done(Refused))
  {
    EventIsInserted(t, EventRow(h.request.delivery, Rejected));
  }

  /** An answer stands whatever becomes of its audit row, which has the status of the answer. */
  lemma AuditAnswers(t: Tables, h: Handler, o: Oracle)
    requires h.pc.Audit?
    ensures Audited(t, h, o, h.pc.status) && After(t, h, o) == h.(pc := Done(h.pc.reply))
  {
    EventIsInserted(t, EventRow(h.request.delivery, h.pc.status));
  }

  // ----- Answers stand -----

  /** About to give this answer, or having given it, or crashed on the way; and not submitted. */
  predicate Ends(h: Handler, reply: Reply) {
    !h.marks.submitted &&
    match h.pc
    case Audit(r, _) => r == reply
    case Done(answer) => answer == reply
    case Crashed => true
    case _ => false
  }

  lemma NextEnds(s: System, a: Action, pid: nat, reply: Reply)
    requires pid in s.handlers && Ends(s.handlers[pid], reply)
    ensures pid in Next(s, a).handlers && Ends(Next(s, a).handlers[pid], reply)
  {
    if a.Step? && a.pid == pid {
      var h := s.handlers[pid];
      MarksMove(s.tables, h, a.oracle, Write(s.tables, Statement(s.tables, h, a.oracle), a.oracle.fault));
    } else {
      OthersMove(s, a, pid);
    }
  }

  lemma {:induction false} RunEnds(s: System, actions: seq<Action>, pid: nat, reply: Reply)
    requires pid in s.handlers && Ends(s.handlers[pid], reply)
    ensures pid in Run(s, actions).handlers && Ends(Run(s, actions).handlers[pid], reply)
  {
    if actions != [] {
      RunEnds(s, actions[..|actions| - 1], pid, reply);
      NextEnds(Run(s, actions[..|actions| - 1]), actions[|actions| - 1], pid, reply);
    }
  }

  predicate NotLogged(log: seq<Submission>, pid: nat) {
    forall i :: 0 <= i < |log| ==> log[i].handler != pid
  }

  /** A handler that ends has nothing in the log, and never will. */
  lemma EndsUnlogged(s: System, actions: seq<Action>, pid: nat, reply: Reply)
    requires GInv(s) && pid in s.handlers && Ends(s.handlers[pid], reply)
    ensures var s' := Run(s, actions);
      pid in s'.handlers && Ends(s'.handlers[pid], reply) && NotLogged(s'.log, pid)
  {
    RunEnds(s, actions, pid, reply);
    assert LogOk(Run(s, actions)) by { RunKeepsGInv(s, actions); }
  }

  /** After its last step, a handler that does not crash has given its answer. */
  lemma EndsAnswered(s: System, actions: seq<Action>, pid: nat, reply: Reply)
    requires pid in s.handlers && Ends(s.handlers[pid], reply) && StepsOf(actions, pid) >= 14
    ensures pid in Run(s, actions).handlers
    ensures Run(s, actions).handlers[pid].pc == Done(reply) || Run(s, actions).handlers[pid].pc.Crashed?
  {
    RunEnds(s, actions, pid, reply);
    HandlersEnd(s, actions, pid);
  }

  /**
   A delivery whose contributor is not registered when that is read is answered with a NotFound
   failure, and nothing is submitted for it, then or later.
   */
  lemma UnregisteredIsNotFound(s: System, pid: nat, o: Oracle, later: seq<Action>)
    requires GInv(s) && pid in s.handlers && s.handlers[pid].pc.FindContributor? && o.fault.NoFault?
    requires !Registered(s.tables, s.handlers[pid])
    ensures var s' := Run(Next(s, Step(pid, o)), later);
      && pid in s'.handlers && Ends(s'.handlers[pid], FailedReply(NotFound)) && NotLogged(s'.log, pid)
      && Next(s, Step(pid, o)).tables == s.tables
  {
    assert HandlerOk(s.tables, s.log, pid, s.handlers[pid]);
    ContributorDecides(s.tables, s.handlers[pid], o);
    NextKeepsGInv(s, Step(pid, o));
    EndsUnlogged(Next(s, Step(pid, o)), later, pid, FailedReply(NotFound));
  }

  /** Nor is one submitted whose repository has no active program when that is read. */
  lemma UnknownRepoIsNotFound(s: System, pid: nat, o: Oracle, later: seq<Action>)
    requires GInv(s) && pid in s.handlers && s.handlers[pid].pc.Resolve? && o.fault.NoFault?
    requires forall id :: !ActiveFor(s.tables, s.handlers[pid].job.merge.repo, id)
    ensures var s' := Run(Next(s, Step(pid, o)), later);
      pid in s'.handlers && Ends(s'.handlers[pid], FailedReply(NotFound)) && NotLogged(s'.log, pid)
  {
    assert HandlerOk(s.tables, s.log, pid, s.handlers[pid]);
    ResolveDecides(s.tables, s.handlers[pid], o);
    NextKeepsGInv(s, Step(pid, o));
    EndsUnlogged(Next(s, Step(pid, o)), later, pid, FailedReply(NotFound));
  }

  // ----- Redeliveries -----

  /** A delivery of a recorded id: at its intake, answered as a duplicate or a conflict, or failed on a lost statement. */
  predicate Redelivered(h: Handler, delivery: Text) {
    && h.request.signed && h.request.delivery == Some(delivery) && !h.marks.claimed && !h.marks.submitted
    && match h.pc
       case Start => true
       case SeenCheck => true
       case Claim => true
       case Done(answer) => answer in {Duplicate, FailedReply(Conflict), FailedReply(DatabaseError)}
       case Crashed => true
       case _ => false
  }

  lemma StepRedelivered(t: Tables, h: Handler, o: Oracle, delivery: Text)
    requires DeliverySeen(t, delivery) && Redelivered(h, delivery)
    ensures Redelivered(After(t, h, o), delivery)
    ensures Write(t, Statement(t, h, o), o.fault).tables == t
  {
    match h.pc
    case Start =>
    case SeenCheck => SeenCheckDecides(t, h, o);
    case Claim => ClaimDecides(t, h, o);
    case Done(_) =>
    case Crashed =>
  }

  lemma NextRedelivered(s: System, a: Action, pid: nat, delivery: Text)
    requires DeliverySeen(s.tables, delivery) && pid in s.handlers && Redelivered(s.handlers[pid], delivery)
    ensures pid in Next(s, a).handlers && Redelivered(Next(s, a).handlers[pid], delivery)
    ensures a.Step? && a.pid == pid ==> Next(s, a).tables == s.tables && Next(s, a).log == s.log
  {
    if a.Step? && a.pid == pid {
      StepRedelivered(s.tables, s.handlers[pid], a.oracle, delivery);
    } else {
      OthersMove(s, a, pid);
    }
  }

  /** Whatever is lost and whatever others do, a redelivery of a recorded id changes no table and submits nothing. */
  lemma {:induction false} RedeliveryIsHarmless(s: System, actions: seq<Action>, pid: nat, delivery: Text)
    requires GInv(s) && DeliverySeen(s.tables, delivery) && pid in s.handlers && Redelivered(s.handlers[pid], delivery)
    ensures var s' := Run(s, actions);
      && DeliverySeen(s'.tables, delivery) && pid in s'.handlers && Redelivered(s'.handlers[pid], delivery)
      && forall o :: Next(s', Step(pid, o)).tables == s'.tables && Next(s', Step(pid, o)).log == s'.log
  {
    if actions != [] {
      var prefix, last := actions[..|actions| - 1], actions[|actions| - 1];
      RedeliveryIsHarmless(s, prefix, pid, delivery);
      NextRedelivered(Run(s, prefix), last, pid, delivery);
      assert GInv(Run(s, prefix)) by { RunKeepsGInv(s, prefix); }
      NextExtends(Run(s, prefix), last);
      SeenStays(Run(s, prefix).tables, Run(s, actions).tables, delivery);
    }
    forall o ensures Next(Run(s, actions), Step(pid, o)).tables == Run(s, actions).tables
                  && Next(Run(s, actions), Step(pid, o)).log == Run(s, actions).log {
      NextRedelivered(Run(s, actions), Step(pid, o), pid, delivery);
    }
  }

  /** Where an undisturbed redelivery is after a number of its own steps. */
  predicate Repeating(t: Tables, h: Handler, delivery: Text, n: nat) {
    && DeliverySeen(t, delivery) && Redelivered(h, delivery)
    && h.pc == if n == 0 then Start else if n == 1 then SeenCheck else Done(Duplicate)
  }

  ghost function Repeats(delivery: Text): Place {
    (t: Tables, h: Handler, n: nat) => Repeating(t, h, delivery, n)
  }

  lemma RepeatingStays(t: Tables, t': Tables, h: Handler, delivery: Text, n: nat)
    requires Repeating(t, h, delivery, n) && Grows(t, t')
    ensures Repeating(t', h, delivery, n)
  {
    SeenStays(t, t', delivery);
  }

  lemma StepRepeating(t: Tables, h: Handler, o: Oracle, delivery: Text, n: nat)
    requires Repeating(t, h, delivery, n) && o.fault.NoFault?
    ensures Repeating(Write(t, Statement(t, h, o), o.fault).tables, After(t, h, o), delivery, n + 1)
  {
    StepRedelivered(t, h, o, delivery);
  }

  lemma RepeatsFollow(delivery: Text)
    ensures Follows(Repeats(delivery), Always())
  {
    var place, fine := Repeats(delivery), Always();
    forall t, t', h, n ensures KeptAt(place, t, t', h, n) {
      if Repeating(t, h, delivery, n) && Grows(t, t') {
        RepeatingStays(t, t', h, delivery, n);
      }
    }
    forall t, log, pid, h, o, n ensures MovedAt(place, fine, t, log, pid, h, o, n) {
      if Repeating(t, h, delivery, n) && o.fault.NoFault? {
        StepRepeating(t, h, o, delivery, n);
      }
    }
  }

  /** A signed redelivery of a recorded id that loses nothing is answered as a duplicate at its second step. */
  lemma RedeliveryIsDuplicate(s: System, actions: seq<Action>, pid: nat, r: Request, n: nat)
    requires GInv(s) && pid in s.handlers && s.handlers[pid] == NewHandler(r)
    requires r.signed && r.delivery.Some? && DeliverySeen(s.tables, r.delivery.value)
    requires Undisturbed(s, actions, pid, Always()) && n == StepsOf(actions, pid)
    ensures At(Repeats(r.delivery.value), Run(s, actions), pid, n)
  {
    RepeatsFollow(r.delivery.value);
    assert At(Repeats(r.delivery.value), s, pid, 0);
    RunFollows(Repeats(r.delivery.value), Always(), s, actions, pid, 0, n);
  }
}
