/**
 What handlers answer: replays of a paid PR, and deliveries that carry an id.
 */
module GatewayReplies {
  import opened Containers
  import opened GatewayInvariant
  import opened GatewayProgress
  import opened GatewayProtocol
  import opened GatewayRuns
  import opened GatewayTables
  import opened Integers
  import opened RowEncodings
  import opened Slugs

  // ----- Replays -----

  predicate HasRow(t: Tables, key: (Uuid, I64), id: Uuid) {
    key in t.payouts && t.payouts[key].id == id
  }

  predicate For(h: Handler, key: (Uuid, I64)) {
    (h.job.program, ClampU64(h.job.merge.pr)) == key
  }

  predicate NamesRow(pc: Pc, id: Uuid) {
    match pc
    case Done(AlreadyProcessed(existing)) => existing == Some(id)
    case Done(ProcessedReply(_)) => false
    case Audit(AlreadyProcessed(_), _) => false
    case Audit(ProcessedReply(_), _) => false
    case _ => true
  }

  /** A handler of a paid PR submits nothing, is not answered `processed`, and `already_processed` names the paid row. */
  predicate Replays(h: Handler, key: (Uuid, I64), id: Uuid) {
    For(h, key) ==> !h.marks.submitted && !h.pc.FindContributor? && !Addressed(h.pc) && NamesRow(h.pc, id)
  }

  lemma StepReplays(t: Tables, log: seq<Submission>, pid: nat, h: Handler, o: Oracle, w: Written, key: (Uuid, I64), id: Uuid)
    requires HandlerOk(t, log, pid, h) && HasRow(t, key, id) && Replays(h, key, id)
    requires w == Write(t, Statement(t, h, o), o.fault)
    ensures Replays(Continue(t, h, o, w), key, id)
  {
    MarksMove(t, h, o, w);
    JobMoves(t, h, o, w);
    var h' := Continue(t, h, o, w);
    if For(h', key) && !h.pc.Decode? && !h.pc.Resolve? {
      assert For(h, key);
      ReplayContinues(t, h, o, w, key, id);
    }
  }

  lemma ReplayContinues(t: Tables, h: Handler, o: Oracle, w: Written, key: (Uuid, I64), id: Uuid)
    requires HasRow(t, key, id) && Replays(h, key, id) && For(h, key) && !h.pc.Decode? && !h.pc.Resolve?
    ensures var h' := Continue(t, h, o, w);
      !h'.pc.FindContributor? && !Addressed(h'.pc) && NamesRow(h'.pc, id)
  {
    match h.pc
    case Start =>
    case SeenCheck =>
    case Claim =>
    case CheckStatus =>
    case CheckExists =>
    case FetchId =>
    case Audit(_, _) =>
    case Done(_) =>
    case Crashed =>
  }

  lemma NextReplays(s: System, a: Action, pid: nat, key: (Uuid, I64), id: Uuid)
    requires Consistent(s.tables) && HandlersOk(s) && HasRow(s.tables, key, id)
    requires pid in s.handlers ==> Replays(s.handlers[pid], key, id)
    ensures pid in Next(s, a).handlers ==> Replays(Next(s, a).handlers[pid], key, id)
  {
    if a.Step? && a.pid == pid && pid in s.handlers {
      var h := s.handlers[pid];
      assert HandlerOk(s.tables, s.log, pid, h);
      StepReplays(s.tables, s.log, pid, h, a.oracle, Write(s.tables, Statement(s.tables, h, a.oracle), a.oracle.fault), key, id);
    }
  }

  /**
   Once a payout row exists, every handler that starts later, or has not yet passed the existence
   check, submits nothing for that program and PR, and if it answers `already_processed` it names
   that row: existence and id are two reads, but the row can neither vanish nor change.
   */
  lemma {:induction false} ReplaysAreStable(s: System, actions: seq<Action>, pid: nat, key: (Uuid, I64), id: Uuid)
    requires GInv(s) && HasRow(s.tables, key, id)
    requires pid in s.handlers ==> Replays(s.handlers[pid], key, id)
    ensures HasRow(Run(s, actions).tables, key, id)
    ensures pid in Run(s, actions).handlers ==> Replays(Run(s, actions).handlers[pid], key, id)
  {
    if actions != [] {
      var prefix, last := actions[..|actions| - 1], actions[|actions| - 1];
      RunKeepsGInv(s, prefix);
      ReplaysAreStable(s, prefix, pid, key, id);
      NextExtends(Run(s, prefix), last);
      NextReplays(Run(s, prefix), last, pid, key, id);
    }
  }

  // ----- What a replay is answered -----

  /** From the existence check on: reading, answered with the paid row's id, lost a statement, or crashed. */
  predicate Answering(h: Handler, key: (Uuid, I64), id: Uuid) {
    !h.marks.submitted &&
    match h.pc
    case CheckExists => For(h, key)
    case FetchId => For(h, key)
    case Audit(reply, _) => reply == FailedReply(DatabaseError)
    case Done(reply) => reply in {AlreadyProcessed(Some(id)), FailedReply(DatabaseError)}
    case Crashed => true
    case _ => false
  }

  /** At the program reads before that, or ended because it did not see its program active. */
  predicate Approaching(t: Tables, h: Handler, key: (Uuid, I64)) {
    !h.marks.submitted &&
    match h.pc
    case Resolve => ClampU64(h.job.merge.pr) == key.1 && key.0 in t.programs && h.job.merge.repo == t.programs[key.0].repo
    case CheckStatus => For(h, key)
    case Audit(reply, _) => reply in {IgnoredReply, FailedReply(NotFound)}
    case Done(reply) => reply in {IgnoredReply, FailedReply(NotFound)}
    case _ => false
  }

  predicate Replaying(t: Tables, h: Handler, key: (Uuid, I64), id: Uuid) {
    Answering(h, key, id) || Approaching(t, h, key)
  }

  lemma StepAnswering(t: Tables, h: Handler, o: Oracle, w: Written, key: (Uuid, I64), id: Uuid)
    requires HasRow(t, key, id) && Answering(h, key, id) && w == Write(t, Statement(t, h, o), o.fault)
    ensures Answering(Continue(t, h, o, w), key, id)
  {
    match h.pc
    case CheckExists =>
    case FetchId =>
    case Audit(_, _) =>
    case Done(_) =>
    case Crashed =>
  }

  /** The active program of a repository is the one program of that repository. */
  lemma ResolvesTo(t: Tables, program: Uuid, repo: Text)
    requires Consistent(t) && program in t.programs && t.programs[program].repo == repo
    ensures ResolveProgram(t, repo) == if t.programs[program].status == RowActive then Result.Ok(program) else Err(NotFound)
  {
    if t.programs[program].status == RowActive {
      assert ActiveFor(t, repo, program);
    }
  }

  lemma StepApproaching(t: Tables, h: Handler, o: Oracle, w: Written, key: (Uuid, I64), id: Uuid)
    requires (h.pc.Resolve? ==> Consistent(t)) && Approaching(t, h, key) && w == Write(t, Statement(t, h, o), o.fault)
    ensures Approaching(w.tables, Continue(t, h, o, w), key) || Answering(Continue(t, h, o, w), key, id)
  {
    match h.pc
    case Resolve => ResolvesTo(t, key.0, h.job.merge.repo);
    case CheckStatus =>
    case Audit(_, _) =>
    case Done(_) =>
  }

  lemma StepReplaying(s: System, pid: nat, o: Oracle, key: (Uuid, I64), id: Uuid)
    requires Consistent(s.tables) && HasRow(s.tables, key, id) && pid in s.handlers && Replaying(s.tables, s.handlers[pid], key, id)
    ensures var s' := Next(s, Step(pid, o));
      && Replaying(s'.tables, s'.handlers[pid], key, id)
      && (Answering(s.handlers[pid], key, id) ==> Answering(s'.handlers[pid], key, id))
  {
    var h := s.handlers[pid];
    var w := Write(s.tables, Statement(s.tables, h, o), o.fault);
    if Answering(h, key, id) {
      StepAnswering(s.tables, h, o, w, key, id);
    } else {
      StepApproaching(s.tables, h, o, w, key, id);
    }
  }

  /** What others do does not move a handler, except by crashing it. */
  lemma OthersReplaying(s: System, a: Action, pid: nat, key: (Uuid, I64), id: Uuid)
    requires pid in s.handlers && Replaying(s.tables, s.handlers[pid], key, id) && !(a.Step? && a.pid == pid)
    requires Grows(s.tables, Next(s, a).tables)
    ensures var s' := Next(s, a);
      && pid in s'.handlers && Replaying(s'.tables, s'.handlers[pid], key, id)
      && (Answering(s.handlers[pid], key, id) ==> Answering(s'.handlers[pid], key, id))
  {
    OthersMove(s, a, pid);
  }

  /**
   A `process_merge` of a paid PR, wherever other handlers and admin calls interleave, is reading,
   or has answered `already_processed` with the paid row's id, or has ended because it lost a
   statement, crashed, or did not see its program active; it never submits. Once it is past its
   program reads, only a lost statement or a crash can come between it and that answer.
   */
  lemma {:induction false} ReplayAnswers(s: System, actions: seq<Action>, pid: nat, key: (Uuid, I64), id: Uuid)
    requires GInv(s) && HasRow(s.tables, key, id) && pid in s.handlers && Replaying(s.tables, s.handlers[pid], key, id)
    ensures var s' := Run(s, actions);
      && HasRow(s'.tables, key, id) && pid in s'.handlers && Replaying(s'.tables, s'.handlers[pid], key, id)
      && (Answering(s.handlers[pid], key, id) ==> Answering(s'.handlers[pid], key, id))
  {
    if actions != [] {
      var prefix, last := actions[..|actions| - 1], actions[|actions| - 1];
      RunKeepsGInv(s, prefix);
      ReplayAnswers(s, prefix, pid, key, id);
      NextExtends(Run(s, prefix), last);
      if last.Step? && last.pid == pid {
        StepReplaying(Run(s, prefix), pid, last.oracle, key, id);
      } else {
        OthersReplaying(Run(s, prefix), last, pid, key, id);
      }
    }
  }

  /** A program read sees the program active. */
  predicate SeesActive(t: Tables, h: Handler, program: Uuid) {
    h.pc.Resolve? || h.pc.CheckStatus? ==> program in t.programs && t.programs[program].status == RowActive
  }

  ghost function SeeingActive(program: Uuid): Condition {
    (t: Tables, h: Handler, o: Oracle) => SeesActive(t, h, program)
  }

  /** Where an undisturbed replay is after a number of its own steps, counted from `Resolve`. */
  function ReplayPc(n: nat, id: Uuid): Pc {
    if n == 0 then Resolve else if n == 1 then CheckStatus else if n == 2 then CheckExists else if n == 3 then FetchId
    else Done(AlreadyProcessed(Some(id)))
  }

  predicate OnCourse(t: Tables, h: Handler, key: (Uuid, I64), id: Uuid, n: nat) {
    HasRow(t, key, id) && Replaying(t, h, key, id) && h.pc == ReplayPc(n, id)
  }

  ghost function Course(key: (Uuid, I64), id: Uuid): Place {
    (t: Tables, h: Handler, n: nat) => OnCourse(t, h, key, id, n)
  }

  lemma StepOnCourse(t: Tables, h: Handler, o: Oracle, w: Written, key: (Uuid, I64), id: Uuid, n: nat)
    requires Consistent(t) && OnCourse(t, h, key, id, n) && SeesActive(t, h, key.0)
    requires o.fault.NoFault? && w == Write(t, Statement(t, h, o), o.fault)
    ensures OnCourse(w.tables, Continue(t, h, o, w), key, id, n + 1)
  {
    if n == 0 {
      ResolvesTo(t, key.0, h.job.merge.repo);
    }
  }

  lemma CourseFollows(key: (Uuid, I64), id: Uuid)
    ensures Follows(Course(key, id), SeeingActive(key.0))
  {
    var place, fine := Course(key, id), SeeingActive(key.0);
    forall t, t', h, n ensures KeptAt(place, t, t', h, n) {
    }
    forall t, log, pid, h, o, n ensures MovedAt(place, fine, t, log, pid, h, o, n) {
      if Consistent(t) && OnCourse(t, h, key, id, n) && SeesActive(t, h, key.0) && o.fault.NoFault? {
        StepOnCourse(t, h, o, Write(t, Statement(t, h, o), o.fault), key, id, n);
      }
    }
  }

  /**
   Replays are stable: a `process_merge` of a paid PR that loses no statement and whose program reads
   see the program active is, after its `n`-th step, exactly where `ReplayPc` says; from the fourth
   on it has answered `already_processed` with the paid row's id. Between its steps anything may happen.
   */
  lemma UndisturbedReplay(s: System, actions: seq<Action>, pid: nat, key: (Uuid, I64), id: Uuid, n: nat, m: nat)
    requires GInv(s) && At(Course(key, id), s, pid, n) && Undisturbed(s, actions, pid, SeeingActive(key.0))
    requires m == n + StepsOf(actions, pid)
    ensures At(Course(key, id), Run(s, actions), pid, m)
  {
    CourseFollows(key, id);
    RunFollows(Course(key, id), SeeingActive(key.0), s, actions, pid, n, m);
  }

  // ----- What a handler past the check is answered -----

  /** Where a handler is that passed the existence check before the row came, after a number of its own steps. */
  function LatePc(n: nat, pr: U64): Pc {
    var e := if pr <= I64_MAX then Conflict else Internal;
    if n == 0 then FindContributor else if n == 1 then Submit else if n == 2 then LoadRatio else if n == 3 then SavePayout
    else if n == 4 then Audit(FailedReply(e), Failed)
    else Done(FailedReply(e))
  }

  predicate Late(t: Tables, h: Handler, row: PayoutRow, pr: U64, n: nat) {
    && h.pc == LatePc(n, pr) && h.job.merge.pr == pr && For(h, (row.program, row.pr))
    && (row.program, row.pr) in t.payouts && t.payouts[(row.program, row.pr)] == row
    && (h.job.program, h.job.merge.user) in t.contributors
  }

  ghost function Lateness(row: PayoutRow, pr: U64): Place {
    (t: Tables, h: Handler, n: nat) => Late(t, h, row, pr, n)
  }

  lemma StepLate(t: Tables, log: seq<Submission>, pid: nat, h: Handler, o: Oracle, w: Written, row: PayoutRow, pr: U64, n: nat)
    requires HandlerOk(t, log, pid, h) && Late(t, h, row, pr, n)
    requires o.fault.NoFault? && w == Write(t, Statement(t, h, o), o.fault)
    ensures Late(w.tables, Continue(t, h, o, w), row, pr, n + 1)
  {
    match h.pc
    case FindContributor =>
    case Submit =>
    case LoadRatio =>
    case SavePayout =>
    case Audit(_, _) =>
    case Done(_) =>
  }

  lemma LatenessFollows(row: PayoutRow, pr: U64)
    ensures Follows(Lateness(row, pr), Always())
  {
    var place, fine := Lateness(row, pr), Always();
    forall t, t', h, n ensures KeptAt(place, t, t', h, n) {
    }
    forall t, log, pid, h, o, n ensures MovedAt(place, fine, t, log, pid, h, o, n) {
      if HandlerOk(t, log, pid, h) && Late(t, h, row, pr, n) && o.fault.NoFault? {
        StepLate(t, log, pid, h, o, Write(t, Statement(t, h, o), o.fault), row, pr, n);
      }
    }
  }

  /**
   A handler that passed the existence check before another handler saved the row submits, but is
   answered with a conflict (or, for a PR number beyond a BIGINT, an internal error): the row stays.
   */
  lemma LateIsConflict(s: System, actions: seq<Action>, pid: nat, row: PayoutRow, pr: U64, n: nat, m: nat)
    requires GInv(s) && At(Lateness(row, pr), s, pid, n) && Undisturbed(s, actions, pid, Always())
    requires m == n + StepsOf(actions, pid)
    ensures At(Lateness(row, pr), Run(s, actions), pid, m)
  {
    LatenessFollows(row, pr);
    RunFollows(Lateness(row, pr), Always(), s, actions, pid, n, m);
  }
}
