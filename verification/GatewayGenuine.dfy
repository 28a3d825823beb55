/**
 A genuine delivery among all others: what its handler needs of the tables at each of its own steps,
 and that this is enough, whatever other handlers and admin calls do in between.
 */
module GatewayGenuine {
  import opened GatewayDeliveries
  import opened GatewayInvariant
  import opened GatewayJourneys
  import opened GatewayProgress
  import opened GatewayProtocol
  import opened GatewayRequests
  import opened GatewayRuns
  import opened GatewayTables
  import opened Integers

  /**
   What the next step of a handler needs: its id is new until it is claimed, its program is active when
   it is read, the PR has no row when that is checked and when it is saved, its contributor is
   registered, and PR number, row id and the program's total leave room for the row.
   */
  predicate HelpedBy(t: Tables, h: Handler, o: Oracle, program: Uuid) {
    match h.pc
    case SeenCheck => IsNew(t, h.request)
    case Claim => IsNew(t, h.request)
    case Resolve => ActiveFor(t, h.job.merge.repo, program)
    case CheckStatus => program in t.programs && t.programs[program].status == RowActive
    case CheckExists => FetchPayoutId(t, program, h.job.merge.pr).None?
    case FindContributor => Registered(t, h)
    case SavePayout => h.job.merge.pr <= I64_MAX && (program, h.job.merge.pr) !in t.payouts && !IdTaken(t, o.uuid)
    case Increment => program in t.programs && FitsI64(t.programs[program].spent + h.job.amount)
    case _ => true
  }

  ghost function Helped(program: Uuid): Condition {
    (t: Tables, h: Handler, o: Oracle) => HelpedBy(t, h, o, program)
  }

  /** The handler has written its row, with everything it knows, and the row is there. */
  predicate RowSaved(t: Tables, h: Handler) {
    && h.marks.submitted && h.marks.saved && h.job.merge.pr <= I64_MAX
    && var key := (h.job.program, h.job.merge.pr);
    && key in t.payouts
    && var row := t.payouts[key];
    && row.id == h.job.payoutId && row.user == h.job.merge.user && row.address == h.job.address && row.points == 1
    && row.amount == h.job.amount && row.tag == h.job.tag
  }

  predicate Counted(t: Tables, h: Handler) {
    RowSaved(t, h) && h.marks.counted
  }

  /** What a paid delivery is answered in the end. */
  function FinalAnswer(h: Handler): Reply {
    if h.request.delivery.None? then ProcessedReply(h.job.payoutId) else FailedReply(DatabaseError)
  }

  predicate OnTarget(h: Handler, r: Request, program: Uuid)
    requires IsMerge(r)
  {
    h.job.merge == MergeOf(r) && h.job.program == program
  }

  /** A handler of a genuine delivery that has met with no obstacle. */
  predicate OnItsWay(t: Tables, h: Handler, r: Request, program: Uuid)
    requires IsMerge(r)
  {
    && h.request == r
    && match h.pc
       case Start => true
       case SeenCheck => r.delivery.Some?
       case Claim => r.delivery.Some?
       case Decode => r.delivery.Some? ==> h.marks.claimed
       case Resolve => h.job.merge == MergeOf(r) && (r.delivery.Some? ==> h.marks.claimed)
       case FetchId => false
       case Increment => OnTarget(h, r, program) && RowSaved(t, h)
       case RecordProcessed => OnTarget(h, r, program) && Counted(t, h)
       case Audit(reply, status) =>
         && OnTarget(h, r, program) && Counted(t, h) && h.marks.claimed && r.delivery.Some?
         && reply == FailedReply(DatabaseError) && status == Failed
       case Done(answer) => OnTarget(h, r, program) && Counted(t, h) && answer == FinalAnswer(h)
       case Crashed => false
       case _ => OnTarget(h, r, program)
  }

  /** How many own steps are left after the first `n`; without an id there is no check, no claim and no failed audit. */
  function Left(r: Request, n: nat): nat {
    if r.delivery.Some? then (if n < 14 then 14 - n else 0)
    else if n == 0 then 14
    else if n < 11 then 12 - n
    else 0
  }

  predicate Travelling(t: Tables, h: Handler, r: Request, program: Uuid, n: nat)
    requires IsMerge(r)
  {
    OnItsWay(t, h, r, program) && StepsLeft(h.pc) == Left(r, n)
  }

  ghost function Travels(r: Request, program: Uuid): Place
    requires IsMerge(r)
  {
    (t: Tables, h: Handler, n: nat) => Travelling(t, h, r, program, n)
  }

  // ----- One step -----

  lemma IntakeStep(t: Tables, h: Handler, o: Oracle, w: Written, r: Request, program: Uuid, n: nat)
    requires IsMerge(r) && Travelling(t, h, r, program, n) && HelpedBy(t, h, o, program) && o.fault.NoFault?
    requires w == Write(t, Statement(t, h, o), o.fault)
    requires h.pc.Start? || h.pc.SeenCheck? || h.pc.Claim? || h.pc.Decode?
    ensures Travelling(w.tables, Continue(t, h, o, w), r, program, n + 1)
  {
  }

  lemma ReadingStep(t: Tables, h: Handler, o: Oracle, w: Written, r: Request, program: Uuid, n: nat)
    requires IsMerge(r) && Travelling(t, h, r, program, n) && HelpedBy(t, h, o, program) && o.fault.NoFault?
    requires w == Write(t, Statement(t, h, o), o.fault)
    requires h.pc.CheckStatus? || h.pc.CheckExists? || h.pc.FindContributor? || h.pc.Submit?
    ensures Travelling(w.tables, Continue(t, h, o, w), r, program, n + 1)
  {
  }

  lemma ResolvingStep(t: Tables, h: Handler, o: Oracle, w: Written, r: Request, program: Uuid, n: nat)
    requires IsMerge(r) && Travelling(t, h, r, program, n) && HelpedBy(t, h, o, program) && o.fault.NoFault?
    requires w == Write(t, Statement(t, h, o), o.fault) && h.pc.Resolve? && Consistent(t)
    ensures Travelling(w.tables, Continue(t, h, o, w), r, program, n + 1)
  {
    assert ResolveProgram(t, h.job.merge.repo) == Result.Ok(program);
  }

  lemma LoadingStep(t: Tables, log: seq<Submission>, pid: nat, h: Handler, o: Oracle, w: Written,
                    r: Request, program: Uuid, n: nat)
    requires IsMerge(r) && Travelling(t, h, r, program, n) && o.fault.NoFault? && HandlerOk(t, log, pid, h)
    requires w == Write(t, Statement(t, h, o), o.fault) && h.pc.LoadRatio?
    ensures Travelling(w.tables, Continue(t, h, o, w), r, program, n + 1)
  {
  }

  lemma SavingStep(t: Tables, log: seq<Submission>, pid: nat, h: Handler, o: Oracle, w: Written,
                   r: Request, program: Uuid, n: nat)
    requires IsMerge(r) && Travelling(t, h, r, program, n) && HelpedBy(t, h, o, program) && o.fault.NoFault?
    requires w == Write(t, Statement(t, h, o), o.fault) && h.pc.SavePayout? && HandlerOk(t, log, pid, h)
    ensures Travelling(w.tables, Continue(t, h, o, w), r, program, n + 1)
  {
    var row := PayoutRow(o.uuid, program, h.job.merge.pr, h.job.merge.user, h.job.address, 1, h.job.amount, h.job.tag);
    assert PayoutRowFor(o.uuid, program, h.job.merge, h.job.address, h.job.amount, h.job.tag) == Result.Ok(row);
    assert PayoutAllowed(t, row);
  }

  lemma CountingStep(t: Tables, log: seq<Submission>, pid: nat, h: Handler, o: Oracle, w: Written,
                     r: Request, program: Uuid, n: nat)
    requires IsMerge(r) && Travelling(t, h, r, program, n) && HelpedBy(t, h, o, program) && o.fault.NoFault?
    requires w == Write(t, Statement(t, h, o), o.fault) && h.pc.Increment? && HandlerOk(t, log, pid, h) && Consistent(t)
    ensures Travelling(w.tables, Continue(t, h, o, w), r, program, n + 1)
  {
    assert 0 <= t.programs[program].escrow;
  }

  lemma RecordingStep(t: Tables, log: seq<Submission>, pid: nat, h: Handler, o: Oracle, w: Written,
                      r: Request, program: Uuid, n: nat)
    requires IsMerge(r) && Travelling(t, h, r, program, n) && o.fault.NoFault? && HandlerOk(t, log, pid, h)
    requires w == Write(t, Statement(t, h, o), o.fault) && h.pc.RecordProcessed?
    ensures Travelling(w.tables, Continue(t, h, o, w), r, program, n + 1)
  {
    ProcessedIffNoId(t, log, pid, h, o);
  }

  lemma EndingStep(t: Tables, log: seq<Submission>, pid: nat, h: Handler, o: Oracle, w: Written,
                   r: Request, program: Uuid, n: nat)
    requires IsMerge(r) && Travelling(t, h, r, program, n) && o.fault.NoFault? && HandlerOk(t, log, pid, h)
    requires w == Write(t, Statement(t, h, o), o.fault) && (h.pc.Audit? || h.pc.Done?)
    ensures Travelling(w.tables, Continue(t, h, o, w), r, program, n + 1)
  {
  }

  lemma StepTravels(t: Tables, log: seq<Submission>, pid: nat, h: Handler, o: Oracle, w: Written,
                    r: Request, program: Uuid, n: nat)
    requires IsMerge(r) && Travelling(t, h, r, program, n) && HelpedBy(t, h, o, program) && o.fault.NoFault?
    requires w == Write(t, Statement(t, h, o), o.fault) && HandlerOk(t, log, pid, h) && Consistent(t)
    ensures Travelling(w.tables, Continue(t, h, o, w), r, program, n + 1)
  {
    match h.pc
    case Resolve => ResolvingStep(t, h, o, w, r, program, n);
    case CheckStatus => ReadingStep(t, h, o, w, r, program, n);
    case CheckExists => ReadingStep(t, h, o, w, r, program, n);
    case FindContributor => ReadingStep(t, h, o, w, r, program, n);
    case Submit => ReadingStep(t, h, o, w, r, program, n);
    case LoadRatio => LoadingStep(t, log, pid, h, o, w, r, program, n);
    case SavePayout => SavingStep(t, log, pid, h, o, w, r, program, n);
    case Increment => CountingStep(t, log, pid, h, o, w, r, program, n);
    case RecordProcessed => RecordingStep(t, log, pid, h, o, w, r, program, n);
    case Audit(_, _) => EndingStep(t, log, pid, h, o, w, r, program, n);
    case Done(_) => EndingStep(t, log, pid, h, o, w, r, program, n);
    case _ => IntakeStep(t, h, o, w, r, program, n);
  }

  // ----- Whole runs -----

  lemma TravelsFollow(r: Request, program: Uuid)
    requires IsMerge(r)
    ensures Follows(Travels(r, program), Helped(program))
  {
    var place, fine := Travels(r, program), Helped(program);
    forall t, t', h, n ensures KeptAt(place, t, t', h, n) {
    }
    forall t, log, pid, h, o, n ensures MovedAt(place, fine, t, log, pid, h, o, n) {
      if Consistent(t) && HandlerOk(t, log, pid, h) && Travelling(t, h, r, program, n)
         && HelpedBy(t, h, o, program) && o.fault.NoFault? {
        StepTravels(t, log, pid, h, o, Write(t, Statement(t, h, o), o.fault), r, program, n);
      }
    }
  }

  /**
   A genuine delivery makes its way: as long as its handler loses nothing and finds at each of its own
   steps what that step needs, it is after any number of them exactly as far as the code puts it. Between
   its steps anything may happen.
   */
  lemma GenuineDelivery(s: System, actions: seq<Action>, pid: nat, r: Request, program: Uuid)
    requires GInv(s) && IsMerge(r) && pid in s.handlers && s.handlers[pid] == NewHandler(r)
    requires Undisturbed(s, actions, pid, Helped(program))
    ensures At(Travels(r, program), Run(s, actions), pid, StepsOf(actions, pid))
  {
    TravelsFollow(r, program);
    assert At(Travels(r, program), s, pid, 0);
    RunFollows(Travels(r, program), Helped(program), s, actions, pid, 0, StepsOf(actions, pid));
  }

  /** A delivery that has been submitted, saved and counted, and what it was answered. */
  ghost predicate Paid(s: System, pid: nat, r: Request, program: Uuid)
    requires IsMerge(r)
  {
    var m := MergeOf(r);
    && pid in s.handlers && m.pr <= I64_MAX && (program, m.pr) in s.tables.payouts
    && (program, m.user) in s.tables.contributors
    && var h, row := s.handlers[pid], s.tables.payouts[(program, m.pr)];
    && h.pc == Done(if r.delivery.None? then ProcessedReply(row.id) else FailedReply(DatabaseError))
    && h.marks.counted
    && row.user == m.user && row.points == 1 && row.address == s.tables.contributors[(program, m.user)]
    && exists i :: 0 <= i < |s.log| && s.log[i].handler == pid && s.log[i].delivery == r.delivery
         && s.log[i].pr == m.pr && s.log[i].user == m.user && s.log[i].tag == row.tag
  }

  lemma ArrivedIsPaid(s: System, pid: nat, r: Request, program: Uuid, n: nat)
    requires GInv(s) && IsMerge(r) && At(Travels(r, program), s, pid, n) && n >= 14
    ensures Paid(s, pid, r, program)
  {
    var h := s.handlers[pid];
    StepsLeftBounds(h.pc);
    assert HandlerOk(s.tables, s.log, pid, h);
    var row := s.tables.payouts[(program, MergeOf(r).pr)];
    assert RowBacked(s.tables, s.log, row);
    var i :| 0 <= i < |s.log| && IsSubmissionOf(s.log[i], pid, h);
  }

  /**
   After fourteen of its own steps it is paid: its attestation is logged, its row is saved for the
   registered address under the attestation's tag, and counted. Its answer is `processed` iff it
   carries no id; with an id it is a database error.
   */
  lemma GenuineAnswer(s: System, actions: seq<Action>, pid: nat, r: Request, program: Uuid)
    requires GInv(s) && IsMerge(r) && pid in s.handlers && s.handlers[pid] == NewHandler(r)
    requires Undisturbed(s, actions, pid, Helped(program)) && StepsOf(actions, pid) >= 14
    ensures Paid(Run(s, actions), pid, r, program)
  {
    GenuineDelivery(s, actions, pid, r, program);
    assert GInv(Run(s, actions)) by { RunKeepsGInv(s, actions); }
    ArrivedIsPaid(Run(s, actions), pid, r, program, StepsOf(actions, pid));
  }
}
