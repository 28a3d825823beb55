/**
 What every reachable state of the gateway satisfies, whatever the interleaving, the crashes
 and the lost statements.
 */
module GatewayInvariant {
  import opened Containers
  import opened GatewayProtocol
  import opened GatewayTables
  import opened Integers
  import opened RowEncodings
  import opened Slugs
  import opened Tags

  // ----- Where a handler is -----

  /** Past the claim, if there is an id to claim. */
  predicate PastClaim(pc: Pc) {
    pc.Decode? || InMerge(pc)
  }

  predicate InMerge(pc: Pc) {
    pc.Resolve? || Resolved(pc)
  }

  predicate Resolved(pc: Pc) {
    pc.CheckStatus? || pc.CheckExists? || pc.FetchId? || pc.FindContributor? || Addressed(pc)
  }

  predicate Addressed(pc: Pc) {
    pc.Submit? || AfterSubmit(pc)
  }

  predicate AfterSubmit(pc: Pc) {
    pc.LoadRatio? || pc.SavePayout? || pc.Increment? || pc.RecordProcessed?
  }

  predicate BeforeSubmit(pc: Pc) {
    pc.Start? || pc.SeenCheck? || pc.Claim? || pc.Decode? || (InMerge(pc) && !AfterSubmit(pc))
  }

  // ----- What holds of one handler -----

  /** The log holds the submission this handler made. */
  predicate Logged(log: seq<Submission>, pid: nat, h: Handler) {
    exists i :: 0 <= i < |log| && IsSubmissionOf(log[i], pid, h)
  }

  predicate IsSubmissionOf(e: Submission, pid: nat, h: Handler) {
    && e.handler == pid && e.delivery == h.request.delivery
    && e.onChain == h.job.onChain && e.user == h.job.merge.user && e.pr == h.job.merge.pr && e.points == h.job.merge.points
    && e.tag == h.job.tag == Tag(e.mode, e.onChain, e.pr)
  }

  /** The payout row a handler has written, and wrote itself. */
  predicate OwnsRow(t: Tables, h: Handler) {
    var key := (h.job.program, ClampU64(h.job.merge.pr));
    key in t.payouts && t.payouts[key].id == h.job.payoutId && t.payouts[key].amount == h.job.amount
  }

  predicate HandlerOk(t: Tables, log: seq<Submission>, pid: nat, h: Handler) {
    && (h.marks.claimed ==> h.request.delivery.Some? && DeliverySeen(t, h.request.delivery.value))
    && (PastClaim(h.pc) || h.marks.submitted ==> h.request.delivery.None? || h.marks.claimed)
    && (h.pc.SeenCheck? || h.pc.Claim? || h.pc.Start? ==> !h.marks.claimed)
    && (BeforeSubmit(h.pc) ==> !h.marks.submitted)
    && (!AfterSubmit(h.pc) && !h.pc.Audit? && !h.pc.Done? && !h.pc.Crashed? ==> !h.marks.saved)
    && (h.pc.LoadRatio? || h.pc.SavePayout? ==> !h.marks.saved)
    && (InMerge(h.pc) ==> h.job.merge.points == 1)
    && (Resolved(h.pc) || h.marks.submitted ==>
         && h.job.program in t.programs
         && h.job.onChain == AsU64(t.programs[h.job.program].onChainId)
         && t.programs[h.job.program].repo == h.job.merge.repo)
    && (Addressed(h.pc) ==>
         (h.job.program, h.job.merge.user) in t.contributors && t.contributors[(h.job.program, h.job.merge.user)] == h.job.address)
    && (AfterSubmit(h.pc) ==> h.marks.submitted)
    && (h.marks.submitted ==> Logged(log, pid, h))
    && (h.pc.SavePayout? || h.pc.Increment? ==> 0 < h.job.amount <= I64_MAX)
    && (h.marks.saved ==> h.marks.submitted && OwnsRow(t, h))
    && (h.marks.counted ==> h.marks.saved)
    && (h.pc.Increment? ==> h.marks.saved && !h.marks.counted)
    && (h.pc.RecordProcessed? ==> h.marks.saved && h.marks.counted)
  }

  predicate HandlersOk(s: System) {
    forall pid :: pid in s.handlers ==> HandlerOk(s.tables, s.log, pid, s.handlers[pid])
  }

  // ----- What holds between handlers, log and rows -----

  /** A delivery id is claimed by one handler, and a payout row is written by one handler. */
  predicate NoSharing(s: System) {
    forall p, q :: p in s.handlers && q in s.handlers && p != q ==> Apart(s.handlers[p], s.handlers[q])
  }

  predicate Apart(g: Handler, h: Handler) {
    && (g.marks.claimed && h.marks.claimed ==> g.request.delivery != h.request.delivery)
    && (g.marks.saved && h.marks.saved ==> (g.job.program, ClampU64(g.job.merge.pr)) != (h.job.program, ClampU64(h.job.merge.pr)))
  }

  /** Each submission belongs to a handler that knows it has submitted, and no two to the same. */
  predicate LogOk(s: System) {
    && (forall i :: 0 <= i < |s.log| ==>
         && s.log[i].handler in s.handlers
         && s.handlers[s.log[i].handler].marks.submitted
         && s.handlers[s.log[i].handler].request.delivery == s.log[i].delivery
         && s.log[i].points == 1)
    && (forall i, j :: 0 <= i < j < |s.log| ==> s.log[i].handler != s.log[j].handler)
  }

  predicate Backs(t: Tables, e: Submission, row: PayoutRow) {
    && row.program in t.programs
    && e.onChain == AsU64(t.programs[row.program].onChainId)
    && e.pr == row.pr && e.user == row.user && e.points == AsU32(row.points)
    && row.tag == e.tag == Tag(e.mode, e.onChain, e.pr)
  }

  predicate RowBacked(t: Tables, log: seq<Submission>, row: PayoutRow) {
    && (exists i :: 0 <= i < |log| && Backs(t, log[i], row))
    && (row.program, row.user) in t.contributors
    && t.contributors[(row.program, row.user)] == row.address
  }

  predicate RowsBacked(s: System) {
    forall k :: k in s.tables.payouts ==> RowBacked(s.tables, s.log, s.tables.payouts[k])
  }

  ghost predicate GInv(s: System) {
    Consistent(s.tables) && HandlersOk(s) && NoSharing(s) && LogOk(s) && RowsBacked(s)
  }

  // ----- Growth keeps what was true -----

  lemma HandlerOkStays(t: Tables, log: seq<Submission>, t': Tables, log': seq<Submission>, pid: nat, h: Handler)
    requires HandlerOk(t, log, pid, h) && Grows(t, t') && log <= log'
    ensures HandlerOk(t', log', pid, h)
  {
    if h.marks.claimed {
      var e :| e in t.events && e.delivery == h.request.delivery;
      assert e in t'.events;
    }
    if h.marks.submitted {
      var i :| 0 <= i < |log| && IsSubmissionOf(log[i], pid, h);
      assert log'[i] == log[i];
    }
  }

  lemma RowBackedStays(t: Tables, log: seq<Submission>, t': Tables, log': seq<Submission>, row: PayoutRow)
    requires RowBacked(t, log, row) && Grows(t, t') && log <= log'
    ensures RowBacked(t', log', row)
  {
    var i :| 0 <= i < |log| && Backs(t, log[i], row);
    assert Backs(t', log'[i], row);
  }

  // ----- One handler step -----

  /** Every statement keeps the constraints and only adds. */
  lemma StatementKeeps(t: Tables, h: Handler, o: Oracle)
    requires Consistent(t) && (h.pc.Increment? ==> h.job.amount >= 0)
    ensures Keeps(t, Statement(t, h, o))
  {
    match h.pc
    case Start => InsertEventKeeps(t, EventRow(h.request.delivery, Rejected));
    case Claim => InsertEventKeeps(t, EventRow(h.request.delivery, Processing));
    case SavePayout => PersistPayoutKeeps(t, o.uuid, h.job.program, h.job.merge, h.job.address, h.job.amount, h.job.tag);
    case Increment => IncrementKeeps(t, h.job.program, h.job.amount);
    case RecordProcessed => InsertEventKeeps(t, EventRow(h.request.delivery, Processed));
    case Audit(_, status) => InsertEventKeeps(t, EventRow(h.request.delivery, status));
    case _ =>
  }

  lemma WriteKeeps(t: Tables, statement: Result<Tables>, fault: Fault)
    requires Consistent(t) && Keeps(t, statement)
    ensures Consistent(Write(t, statement, fault).tables) && Grows(t, Write(t, statement, fault).tables)
  {
  }

  /** Ending is always in order. */
  lemma EndOk(t: Tables, log: seq<Submission>, pid: nat, h: Handler, pc: Pc)
    requires HandlerOk(t, log, pid, h) && (pc.Audit? || pc.Done? || pc.Crashed?)
    ensures HandlerOk(t, log, pid, h.(pc := pc))
  {
  }

  lemma ArrivingOk(t: Tables, log: seq<Submission>, pid: nat, h: Handler, o: Oracle, w: Written)
    requires Consistent(t) && HandlerOk(t, log, pid, h)
    requires h.pc.SeenCheck? || (h.pc.Start? && h.request.signed) || (h.pc.Claim? && h.request.delivery.None?)
    ensures HandlerOk(t, log, pid, Continue(t, h, o, w))
  {
    var h' := Continue(t, h, o, w);
    if h'.pc.Audit? || h'.pc.Done? {
      EndOk(t, log, pid, h, h'.pc);
    }
  }

  lemma DecodingOk(t: Tables, log: seq<Submission>, pid: nat, h: Handler, o: Oracle, w: Written)
    requires Consistent(t) && HandlerOk(t, log, pid, h) && h.pc.Decode?
    ensures HandlerOk(t, log, pid, Continue(t, h, o, w))
  {
    var h' := Continue(t, h, o, w);
    if h'.pc.Audit? || h'.pc.Done? {
      EndOk(t, log, pid, h, h'.pc);
    }
  }

  lemma ResolvingOk(t: Tables, log: seq<Submission>, pid: nat, h: Handler, o: Oracle, w: Written)
    requires Consistent(t) && HandlerOk(t, log, pid, h) && h.pc.Resolve?
    ensures HandlerOk(t, log, pid, Continue(t, h, o, w))
  {
    var h' := Continue(t, h, o, w);
    if h'.pc.Audit? || h'.pc.Done? {
      EndOk(t, log, pid, h, h'.pc);
    }
  }

  lemma CheckingOk(t: Tables, log: seq<Submission>, pid: nat, h: Handler, o: Oracle, w: Written)
    requires Consistent(t) && HandlerOk(t, log, pid, h) && (h.pc.CheckStatus? || h.pc.CheckExists?)
    ensures HandlerOk(t, log, pid, Continue(t, h, o, w))
  {
    var h' := Continue(t, h, o, w);
    if h'.pc.Audit? || h'.pc.Done? {
      EndOk(t, log, pid, h, h'.pc);
    }
  }

  lemma FindingOk(t: Tables, log: seq<Submission>, pid: nat, h: Handler, o: Oracle, w: Written)
    requires Consistent(t) && HandlerOk(t, log, pid, h) && h.pc.FindContributor?
    ensures HandlerOk(t, log, pid, Continue(t, h, o, w))
  {
    var h' := Continue(t, h, o, w);
    if h'.pc.Audit? || h'.pc.Done? {
      EndOk(t, log, pid, h, h'.pc);
    }
  }

  lemma LoadingOk(t: Tables, log: seq<Submission>, pid: nat, h: Handler, o: Oracle, w: Written)
    requires Consistent(t) && HandlerOk(t, log, pid, h) && h.pc.LoadRatio?
    ensures HandlerOk(t, log, pid, Continue(t, h, o, w))
  {
    var h' := Continue(t, h, o, w);
    if h'.pc.Audit? || h'.pc.Done? {
      EndOk(t, log, pid, h, h'.pc);
    } else {
      RewardFits(h.job.merge.points, t.programs[h.job.program].ratio);
    }
  }

  /** A handler that has just claimed its delivery. */
  lemma ClaimingOk(t: Tables, log: seq<Submission>, pid: nat, h: Handler, claimed: bool, pc: Pc)
    requires HandlerOk(t, log, pid, h) && h.pc.Claim? && h.request.delivery.Some?
    requires claimed ==> DeliverySeen(t, h.request.delivery.value)
    requires (pc.Decode? && claimed) || pc.Done?
    ensures HandlerOk(t, log, pid, h.(pc := pc, marks := h.marks.(claimed := claimed)))
  {
  }

  lemma SubmittingOk(t: Tables, log: seq<Submission>, pid: nat, h: Handler, mode: Mode)
    requires HandlerOk(t, log, pid, h) && h.pc.Submit?
    ensures HandlerOk(t, log + [Attestation(pid, h, mode)], pid,
                      Submitted(h, mode))
  {
    var e := Attestation(pid, h, mode);
    assert (log + [e])[|log|] == e;
    assert IsSubmissionOf(e, pid, Submitted(h, mode));
  }

  /** A handler whose row is now in the table, or is not. */
  lemma SavingOk(t: Tables, log: seq<Submission>, pid: nat, h: Handler, id: Uuid, saved: bool, pc: Pc)
    requires HandlerOk(t, log, pid, h) && h.pc.SavePayout? && (saved ==> OwnsRow(t, Saved(h, id, true)))
    requires (pc.Increment? && saved) || pc.Audit?
    ensures HandlerOk(t, log, pid, Saved(h, id, saved).(pc := pc))
  {
  }

  lemma CountingOk(t: Tables, log: seq<Submission>, pid: nat, h: Handler, counted: bool, pc: Pc)
    requires HandlerOk(t, log, pid, h) && h.pc.Increment?
    requires (pc.RecordProcessed? && counted) || pc.Audit?
    ensures HandlerOk(t, log, pid, h.(pc := pc, marks := h.marks.(counted := counted)))
  {
  }

  /** What an accepted claim and an accepted payout leave in the tables. */
  lemma ClaimIsSeen(t: Tables, delivery: Text)
    requires ClaimDelivery(t, delivery).Ok?
    ensures DeliverySeen(ClaimDelivery(t, delivery).value, delivery)
  {
    assert EventRow(Some(delivery), Processing) in ClaimDelivery(t, delivery).value.events;
  }

  lemma PayoutIsOwned(t: Tables, h: Handler, o: Oracle)
    requires h.pc.SavePayout? && Statement(t, h, o).Ok?
    ensures OwnsRow(Statement(t, h, o).value, Saved(h, o.uuid, true))
  {
  }

  lemma ClaimStepOk(t: Tables, log: seq<Submission>, pid: nat, h: Handler, o: Oracle, w: Written)
    requires w == Write(t, Statement(t, h, o), o.fault) && HandlerOk(w.tables, log, pid, h) && h.pc.Claim? && h.request.delivery.Some?
    ensures HandlerOk(w.tables, log, pid, Continue(t, h, o, w))
  {
    if w.took {
      ClaimIsSeen(t, h.request.delivery.value);
    }
    ClaimingOk(w.tables, log, pid, h, w.took, Continue(t, h, o, w).pc);
  }

  lemma SaveStepOk(t: Tables, log: seq<Submission>, pid: nat, h: Handler, o: Oracle, w: Written)
    requires w == Write(t, Statement(t, h, o), o.fault) && HandlerOk(w.tables, log, pid, h) && h.pc.SavePayout?
    ensures HandlerOk(w.tables, log, pid, Continue(t, h, o, w))
  {
    if w.took {
      PayoutIsOwned(t, h, o);
    }
    SavingOk(w.tables, log, pid, h, o.uuid, w.took, Continue(t, h, o, w).pc);
  }

  lemma CountStepOk(t: Tables, log: seq<Submission>, pid: nat, h: Handler, o: Oracle, w: Written)
    requires w == Write(t, Statement(t, h, o), o.fault) && HandlerOk(w.tables, log, pid, h) && h.pc.Increment?
    ensures HandlerOk(w.tables, log, pid, Continue(t, h, o, w))
  {
    CountingOk(w.tables, log, pid, h, w.took, Continue(t, h, o, w).pc);
  }

  lemma EndStepOk(t: Tables, log: seq<Submission>, pid: nat, h: Handler, o: Oracle, w: Written)
    requires HandlerOk(w.tables, log, pid, h)
    requires h.pc.FetchId? || h.pc.RecordProcessed? || h.pc.Audit? || h.pc.Done? || h.pc.Crashed? || (h.pc.Start? && !h.request.signed)
    ensures HandlerOk(w.tables, log, pid, Continue(t, h, o, w))
  {
    EndOk(w.tables, log, pid, h, Continue(t, h, o, w).pc);
  }

  /** Steps that read the tables but leave them. */
  lemma ReadStepOk(t: Tables, log: seq<Submission>, pid: nat, h: Handler, o: Oracle, w: Written)
    requires Consistent(t) && HandlerOk(t, log, pid, h)
    requires h.pc.SeenCheck? || h.pc.Decode? || h.pc.Resolve? || h.pc.CheckStatus? || h.pc.CheckExists?
      || h.pc.FindContributor? || h.pc.LoadRatio? || (h.pc.Start? && h.request.signed) || (h.pc.Claim? && h.request.delivery.None?)
    ensures HandlerOk(t, log, pid, Continue(t, h, o, w))
  {
    match h.pc
    case Start => ArrivingOk(t, log, pid, h, o, w);
    case SeenCheck => ArrivingOk(t, log, pid, h, o, w);
    case Claim => ArrivingOk(t, log, pid, h, o, w);
    case Decode => DecodingOk(t, log, pid, h, o, w);
    case Resolve => ResolvingOk(t, log, pid, h, o, w);
    case CheckStatus => CheckingOk(t, log, pid, h, o, w);
    case CheckExists => CheckingOk(t, log, pid, h, o, w);
    case FindContributor => FindingOk(t, log, pid, h, o, w);
    case LoadRatio => LoadingOk(t, log, pid, h, o, w);
  }

  /** The moving handler stays in order; `h` is already in order for the tables it leaves behind. */
  lemma MovingOk(t: Tables, log: seq<Submission>, pid: nat, h: Handler, o: Oracle, w: Written)
    requires Consistent(t) && HandlerOk(t, log, pid, h) && !h.pc.Submit?
    requires w == Write(t, Statement(t, h, o), o.fault) && HandlerOk(w.tables, log, pid, h)
    ensures HandlerOk(w.tables, log, pid, Continue(t, h, o, w))
  {
    if h.pc.SavePayout? {
      SaveStepOk(t, log, pid, h, o, w);
    } else if h.pc.Increment? {
      CountStepOk(t, log, pid, h, o, w);
    } else if h.pc.Claim? && h.request.delivery.Some? {
      ClaimStepOk(t, log, pid, h, o, w);
    } else if h.pc.FetchId? || h.pc.RecordProcessed? || h.pc.Audit? || h.pc.Done? || h.pc.Crashed?
              || (h.pc.Start? && !h.request.signed) {
      EndStepOk(t, log, pid, h, o, w);
    } else {
      ReadStepOk(t, log, pid, h, o, w);
    }
  }

  /** One step of a handler, from a state in order to a state in order. */
  lemma AdvanceOk(t: Tables, log: seq<Submission>, pid: nat, h: Handler, o: Oracle)
    requires Consistent(t) && HandlerOk(t, log, pid, h)
    ensures var w := Write(t, Statement(t, h, o), o.fault);
      HandlerOk(w.tables, if h.pc.Submit? then log + [Attestation(pid, h, o.mode)] else log, pid, Continue(t, h, o, w))
  {
    var w := Write(t, Statement(t, h, o), o.fault);
    if h.pc.Submit? {
      SubmittingOk(t, log, pid, h, o.mode);
    } else {
      StatementKeeps(t, h, o);
      WriteKeeps(t, Statement(t, h, o), o.fault);
      HandlerOkStays(t, log, w.tables, log, pid, h);
      MovingOk(t, log, pid, h, o, w);
    }
  }

  // ----- What a step takes -----

  /** Only particular statements leave a mark. */
  lemma MarksMove(t: Tables, h: Handler, o: Oracle, w: Written)
    ensures var h' := Continue(t, h, o, w);
      && h'.request == h.request
      && (h'.marks.submitted == (h.marks.submitted || h.pc.Submit?))
      && (!h.pc.Claim? ==> h'.marks.claimed == h.marks.claimed)
      && (!h.pc.SavePayout? ==> h'.marks.saved == h.marks.saved)
  {
  }

  lemma JobMoves(t: Tables, h: Handler, o: Oracle, w: Written)
    ensures var h' := Continue(t, h, o, w);
      && (!h.pc.Decode? ==> h'.job.merge == h.job.merge)
      && (!h.pc.Resolve? ==> h'.job.program == h.job.program && h'.job.onChain == h.job.onChain)
  {
  }

  /** A claim is taken only while nobody has the id. */
  lemma TakesClaim(t: Tables, h: Handler, o: Oracle, w: Written)
    requires w == Write(t, Statement(t, h, o), o.fault) && h.pc.Claim?
    ensures Continue(t, h, o, w).marks.claimed && !h.marks.claimed ==>
      h.request.delivery.Some? && !DeliverySeen(t, h.request.delivery.value)
  {
  }

  /** A row is written only where there is none. */
  lemma TakesRow(t: Tables, h: Handler, o: Oracle, w: Written)
    requires w == Write(t, Statement(t, h, o), o.fault) && h.pc.SavePayout?
    ensures Continue(t, h, o, w).marks.saved ==> (h.job.program, ClampU64(h.job.merge.pr)) !in t.payouts
  {
  }

  /** Only the payout statement adds a payout row. */
  lemma OnlySavingAddsRows(t: Tables, h: Handler, o: Oracle)
    requires !h.pc.SavePayout? && Statement(t, h, o).Ok?
    ensures Statement(t, h, o).value.payouts == t.payouts
  {
  }

  /** The row a handler saves was submitted before, to the address registered then. */
  lemma SavedRowBacked(t: Tables, log: seq<Submission>, pid: nat, h: Handler, o: Oracle)
    requires HandlerOk(t, log, pid, h) && h.pc.SavePayout? && Statement(t, h, o).Ok?
    ensures h.job.merge.pr <= I64_MAX
    ensures var key := (h.job.program, ClampU64(h.job.merge.pr));
      && Statement(t, h, o).value.payouts.Keys == t.payouts.Keys + {key}
      && RowBacked(t, log, Statement(t, h, o).value.payouts[key])
  {
    var row := Statement(t, h, o).value.payouts[(h.job.program, ClampU64(h.job.merge.pr))];
    var i :| 0 <= i < |log| && IsSubmissionOf(log[i], pid, h);
    assert Backs(t, log[i], row);
  }

  /** Backed rows with one tag are one row. */
  lemma TagsApart(t: Tables, log: seq<Submission>, r1: PayoutRow, r2: PayoutRow)
    requires Consistent(t) && RowBacked(t, log, r1) && RowBacked(t, log, r2) && r1.tag == r2.tag
    ensures (r1.program, r1.pr) == (r2.program, r2.pr)
  {
    var i :| 0 <= i < |log| && Backs(t, log[i], r1);
    var j :| 0 <= j < |log| && Backs(t, log[j], r2);
    TagInjective(log[i].mode, log[i].onChain, log[i].pr, log[j].mode, log[j].onChain, log[j].pr);
    AsU64Injective(t.programs[r1.program].onChainId, t.programs[r2.program].onChainId);
  }
}
