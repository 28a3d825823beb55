/**
 What becomes of a delivery id: its audit rows, its answer, and when it can never be submitted again.
 */
module GatewayDeliveries {
  import opened Containers
  import opened GatewayInvariant
  import opened GatewayProtocol
  import opened GatewayRuns
  import opened GatewayTables
  import opened Slugs

  // ----- The last audit row -----

  /**
   The audit row after a completed payout is accepted iff the delivery carries no id: a handler's
   own claim already holds its id. The handler then answers `processed`; otherwise it reports a
   database error, the tables stay as they are, and the payout remains.
   */
  lemma ProcessedIffNoId(t: Tables, log: seq<Submission>, pid: nat, h: Handler, o: Oracle)
    requires HandlerOk(t, log, pid, h) && h.pc.RecordProcessed?
    ensures Statement(t, h, o).Ok? <==> h.request.delivery.None?
    ensures var w := Write(t, Statement(t, h, o), o.fault);
      && (Continue(t, h, o, w).pc == Done(ProcessedReply(h.job.payoutId)) <==> h.request.delivery.None? && o.fault.NoFault?)
      && (h.request.delivery.Some? ==> w.tables == t && Continue(t, h, o, w).pc == Audit(FailedReply(DatabaseError), Failed))
      && (w.tables.events == t.events + [EventRow(None, Processed)] <==> h.request.delivery.None? && !o.fault.LostBefore?)
  {
    assert |t.events + [EventRow(None, Processed)]| == |t.events| + 1;
  }

  /** No audit row with a delivery id has this status. */
  predicate NoneRecorded(events: seq<EventRow>, status: EventStatus) {
    forall e :: e in events && e.status == status ==> e.delivery.None?
  }

  /** A handler about to write an audit row holds the claim of its delivery id, if it has one. */
  predicate AuditHolds(h: Handler) {
    h.pc.Audit? ==> !h.pc.reply.ProcessedReply? && (h.request.delivery.Some? ==> h.marks.claimed)
  }

  predicate AnswersProcessed(h: Handler) {
    h.pc.Done? && h.pc.answer.ProcessedReply?
  }

  /**
   Every audit row after the claim, of an ignored or a failed delivery as well, is accepted iff the
   delivery carries no id.
   */
  lemma AuditedIffNoId(t: Tables, log: seq<Submission>, pid: nat, h: Handler, o: Oracle)
    requires HandlerOk(t, log, pid, h) && AuditHolds(h) && (h.pc.Audit? || h.pc.RecordProcessed?)
    ensures Statement(t, h, o).Ok? <==> h.request.delivery.None?
  {
  }

  predicate NoIdAudited(s: System, status: EventStatus) {
    && NoneRecorded(s.tables.events, status)
    && forall pid :: pid in s.handlers ==>
         var h := s.handlers[pid]; AuditHolds(h) && (AnswersProcessed(h) ==> h.request.delivery.None?)
  }

  lemma StepHolds(t: Tables, log: seq<Submission>, pid: nat, h: Handler, o: Oracle, w: Written)
    requires HandlerOk(t, log, pid, h) && AuditHolds(h) && w == Write(t, Statement(t, h, o), o.fault)
    requires AnswersProcessed(h) ==> h.request.delivery.None?
    ensures AuditHolds(Continue(t, h, o, w))
    ensures AnswersProcessed(Continue(t, h, o, w)) ==> h.request.delivery.None?
  {
    if h.pc.RecordProcessed? {
      ProcessedIffNoId(t, log, pid, h, o);
    }
  }

  lemma StepRecordsNone(t: Tables, log: seq<Submission>, pid: nat, h: Handler, o: Oracle, w: Written, status: EventStatus)
    requires HandlerOk(t, log, pid, h) && AuditHolds(h) && w == Write(t, Statement(t, h, o), o.fault)
    requires NoneRecorded(t.events, status) && status != Processing && status != Rejected
    ensures NoneRecorded(w.tables.events, status)
  {
    if h.pc.RecordProcessed? || h.pc.Audit? {
      AuditedIffNoId(t, log, pid, h, o);
    }
  }

  lemma NextNoIdAudited(s: System, a: Action, status: EventStatus)
    requires HandlersOk(s) && NoIdAudited(s, status) && status != Processing && status != Rejected
    ensures NoIdAudited(Next(s, a), status)
  {
    if a.Step? && a.pid in s.handlers {
      var h := s.handlers[a.pid];
      assert HandlerOk(s.tables, s.log, a.pid, h);
      var w := Write(s.tables, Statement(s.tables, h, a.oracle), a.oracle.fault);
      StepHolds(s.tables, s.log, a.pid, h, a.oracle, w);
      StepRecordsNone(s.tables, s.log, a.pid, h, a.oracle, w, status);
    }
  }

  lemma {:induction false} NeverAudited(s: System, actions: seq<Action>, status: EventStatus)
    requires Initial(s) && NoneRecorded(s.tables.events, status) && status != Processing && status != Rejected
    ensures NoIdAudited(Run(s, actions), status)
  {
    if actions != [] {
      var prefix := actions[..|actions| - 1];
      NeverAudited(s, prefix, status);
      InitialHolds(s);
      assert GInv(Run(s, prefix)) by { RunKeepsGInv(s, prefix); }
      NextNoIdAudited(Run(s, prefix), actions[|actions| - 1], status);
    }
  }

  /** The audit rows with a delivery id are those of claims and of refused requests. */
  predicate OnlyClaimsAndRefusals(events: seq<EventRow>) {
    forall e :: e in events && e.delivery.Some? ==> e.status == Processing || e.status == Rejected
  }

  /**
   In every reachable state, an audit row with a delivery id is that of a claim or of a refused
   request: no payout, no ignored and no failed delivery with an id leaves a row of its own, and no
   handler answers `processed` to one.
   */
  lemma IdsOnlyClaimedOrRefused(s: System, actions: seq<Action>)
    requires Initial(s) && OnlyClaimsAndRefusals(s.tables.events)
    ensures var s' := Run(s, actions);
      && OnlyClaimsAndRefusals(s'.tables.events)
      && forall pid :: pid in s'.handlers && AnswersProcessed(s'.handlers[pid]) ==> s'.handlers[pid].request.delivery.None?
  {
    NeverAudited(s, actions, Processed);
    NeverAudited(s, actions, Ignored);
    NeverAudited(s, actions, Failed);
    StatusesLeft(Run(s, actions).tables.events);
  }

  lemma StatusesLeft(events: seq<EventRow>)
    requires NoneRecorded(events, Processed) && NoneRecorded(events, Ignored) && NoneRecorded(events, Failed)
    ensures OnlyClaimsAndRefusals(events)
  {
  }

  // ----- Ids that can no longer be submitted -----

  /** A handler of the delivery that has not come past its claim, or has stopped. */
  predicate Barred(h: Handler, delivery: Text) {
    h.request.delivery == Some(delivery) ==>
      h.pc.Start? || h.pc.SeenCheck? || h.pc.Claim? || h.pc.Audit? || h.pc.Done? || h.pc.Crashed?
  }

  /** The id is recorded, and no handler is on its way with it. */
  predicate Spent(s: System, delivery: Text) {
    DeliverySeen(s.tables, delivery) && forall pid :: pid in s.handlers ==> Barred(s.handlers[pid], delivery)
  }

  lemma StepBarred(t: Tables, h: Handler, o: Oracle, w: Written, delivery: Text)
    requires DeliverySeen(t, delivery) && Barred(h, delivery) && w == Write(t, Statement(t, h, o), o.fault)
    ensures Barred(Continue(t, h, o, w), delivery)
  {
    if h.request.delivery == Some(delivery) {
      match h.pc
      case Start =>
      case SeenCheck =>
      case Claim =>
      case Audit(_, _) =>
      case Done(_) =>
      case Crashed =>
    } else {
      MarksMove(t, h, o, w);
    }
  }

  lemma SeenStays(t: Tables, t': Tables, delivery: Text)
    requires DeliverySeen(t, delivery) && Grows(t, t')
    ensures DeliverySeen(t', delivery)
  {
    var e :| e in t.events && e.delivery == Some(delivery);
    assert e in t'.events;
  }

  lemma NextSpent(s: System, a: Action, delivery: Text)
    requires Spent(s, delivery) && Grows(s.tables, Next(s, a).tables)
    ensures Spent(Next(s, a), delivery)
    ensures forall i :: |s.log| <= i < |Next(s, a).log| ==> Next(s, a).log[i].delivery != Some(delivery)
  {
    SeenStays(s.tables, Next(s, a).tables, delivery);
    if a.Step? && a.pid in s.handlers {
      var h := s.handlers[a.pid];
      StepBarred(s.tables, h, a.oracle, Write(s.tables, Statement(s.tables, h, a.oracle), a.oracle.fault), delivery);
    }
  }

  /** A delivery id that is recorded while no handler is on its way with it is never submitted again. */
  lemma {:induction false} SpentForGood(s: System, actions: seq<Action>, delivery: Text)
    requires GInv(s) && Spent(s, delivery)
    ensures Spent(Run(s, actions), delivery)
    ensures forall i :: |s.log| <= i < |Run(s, actions).log| ==> Run(s, actions).log[i].delivery != Some(delivery)
  {
    if actions != [] {
      var prefix, last := actions[..|actions| - 1], actions[|actions| - 1];
      RunKeepsGInv(s, prefix);
      SpentForGood(s, prefix, delivery);
      NextExtends(Run(s, prefix), last);
      NextSpent(Run(s, prefix), last, delivery);
    }
  }

  predicate Unsubmitted(log: seq<Submission>, delivery: Text) {
    forall i :: 0 <= i < |log| ==> log[i].delivery != Some(delivery)
  }

  lemma SpentUnsubmitted(s: System, actions: seq<Action>, delivery: Text)
    requires GInv(s) && Spent(s, delivery) && Unsubmitted(s.log, delivery)
    ensures Unsubmitted(Run(s, actions).log, delivery)
  {
    SpentForGood(s, actions, delivery);
    RunKeepsGInv(s, actions);
    assert s.log <= Run(s, actions).log;
  }

  /** A handler that has not claimed its id is not past its claim and has not submitted. */
  lemma UnclaimedIsBarred(s: System, pid: nat, delivery: Text)
    requires HandlersOk(s) && pid in s.handlers && s.handlers[pid].request.delivery == Some(delivery)
    requires s.handlers[pid].marks.claimed ==> !DeliverySeen(s.tables, delivery)
    ensures Barred(s.handlers[pid], delivery) && !s.handlers[pid].marks.submitted
  {
    assert HandlerOk(s.tables, s.log, pid, s.handlers[pid]);
  }

  /** If no handler of an id has submitted, the log does not hold it. */
  lemma UnsubmittedByAll(s: System, delivery: Text)
    requires LogOk(s)
    requires forall q :: q in s.handlers && s.handlers[q].request.delivery == Some(delivery) ==> !s.handlers[q].marks.submitted
    ensures Unsubmitted(s.log, delivery)
  {
    forall i | 0 <= i < |s.log| ensures s.log[i].delivery != Some(delivery) {
      assert s.log[i].handler in s.handlers;
    }
  }

  /** Refusing a request records its id. */
  lemma RefusalRecords(s: System, pid: nat, o: Oracle)
    requires pid in s.handlers && !o.fault.LostBefore?
    requires var h := s.handlers[pid]; h.pc.Start? && !h.request.signed && h.request.delivery.Some?
    ensures DeliverySeen(Next(s, Step(pid, o)).tables, s.handlers[pid].request.delivery.value)
    ensures Next(s, Step(pid, o)).handlers == s.handlers[pid := s.handlers[pid].(pc := Done(Refused))]
    ensures Next(s, Step(pid, o)).log == s.log
  {
    var d := s.handlers[pid].request.delivery;
    if !DeliverySeen(s.tables, d.value) {
      assert EventRow(d, Rejected) in Next(s, Step(pid, o)).tables.events;
    }
  }

  lemma UnseenIsBarred(s: System, delivery: Text)
    requires HandlersOk(s) && LogOk(s) && !DeliverySeen(s.tables, delivery)
    ensures forall q :: q in s.handlers ==> Barred(s.handlers[q], delivery)
    ensures Unsubmitted(s.log, delivery)
  {
    forall q | q in s.handlers && s.handlers[q].request.delivery == Some(delivery)
      ensures Barred(s.handlers[q], delivery) && !s.handlers[q].marks.submitted
    {
      assert HandlerOk(s.tables, s.log, q, s.handlers[q]);
      UnclaimedIsBarred(s, q, delivery);
    }
    UnsubmittedByAll(s, delivery);
  }

  /**
   A request whose signature does not verify uses up the delivery id it names: if that id was new,
   no run afterwards submits anything for it, a genuine delivery under the same id included.
   */
  lemma RefusalUsesUpId(s: System, pid: nat, o: Oracle, delivery: Text, actions: seq<Action>)
    requires GInv(s) && pid in s.handlers && !o.fault.LostBefore? && !DeliverySeen(s.tables, delivery)
    requires var h := s.handlers[pid]; h.pc.Start? && !h.request.signed && h.request.delivery == Some(delivery)
    ensures Unsubmitted(Run(Next(s, Step(pid, o)), actions).log, delivery)
  {
    RefusalRecords(s, pid, o);
    UnseenIsBarred(s, delivery);
    NextKeepsGInv(s, Step(pid, o));
    SpentUnsubmitted(Next(s, Step(pid, o)), actions, delivery);
  }

  /** The holder of a claim keeps all others from coming past theirs. */
  lemma OthersAreBarred(s: System, pid: nat, delivery: Text)
    requires HandlersOk(s) && NoSharing(s) && pid in s.handlers
    requires s.handlers[pid].request.delivery == Some(delivery) && s.handlers[pid].marks.claimed
    ensures forall q :: q in s.handlers && q != pid ==> Barred(s.handlers[q], delivery)
    ensures forall q :: q in s.handlers && q != pid && s.handlers[q].request.delivery == Some(delivery) ==>
      !s.handlers[q].marks.submitted
  {
    forall q | q in s.handlers && q != pid && s.handlers[q].request.delivery == Some(delivery)
      ensures Barred(s.handlers[q], delivery) && !s.handlers[q].marks.submitted
    {
      assert Apart(s.handlers[q], s.handlers[pid]);
      UnclaimedIsBarred(s, q, delivery);
    }
  }

  /** A handler that crashes between its claim and its submission takes its delivery id with it. */
  lemma CrashUsesUpId(s: System, pid: nat, delivery: Text, actions: seq<Action>)
    requires GInv(s) && pid in s.handlers
    requires var h := s.handlers[pid]; h.request.delivery == Some(delivery) && h.marks.claimed && !h.marks.submitted
    ensures Unsubmitted(Run(Next(s, Crash(pid)), actions).log, delivery)
  {
    OthersAreBarred(s, pid, delivery);
    UnsubmittedByAll(s, delivery);
    assert HandlerOk(s.tables, s.log, pid, s.handlers[pid]);
    NextKeepsGInv(s, Crash(pid));
    SpentUnsubmitted(Next(s, Crash(pid)), actions, delivery);
  }
}
