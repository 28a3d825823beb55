/**
 When one PR is submitted twice: what the existence check before the submission does and does not prevent.
 */
module GatewayDuplicates {
  import opened Containers
  import opened GatewayInvariant
  import opened GatewayJourneys
  import opened GatewayProgress
  import opened GatewayProtocol
  import opened GatewayReplies
  import opened GatewayRequests
  import opened GatewayRuns
  import opened GatewayTables
  import opened Integers
  import opened RowEncodings
  import opened Slugs
  import opened Tags

  function PrKey(h: Handler): (Uuid, I64) {
    (h.job.program, ClampU64(h.job.merge.pr))
  }

  // ----- One check -----

  /** The log holds a submission by this handler, for the PR and the on-chain program of this job. */
  predicate SubmittedBy(log: seq<Submission>, pid: nat, job: Job) {
    exists i :: 0 <= i < |log| && log[i].handler == pid && log[i].onChain == job.onChain && log[i].pr == job.merge.pr
  }

  /** On its way to the submission: the job of a handler that has passed the check, after a number of its own steps. */
  predicate Going(t: Tables, h: Handler, job: Job, n: nat) {
    && h.job.program == job.program && h.job.onChain == job.onChain && h.job.merge == job.merge
    && Registered(t, h)
    && if n == 0 then h.pc.FindContributor? else if n == 1 then h.pc.Submit? else h.marks.submitted
  }

  ghost function Goes(job: Job): Place {
    (t: Tables, h: Handler, n: nat) => Going(t, h, job, n)
  }

  lemma StepGoing(t: Tables, log: seq<Submission>, pid: nat, h: Handler, o: Oracle, w: Written, job: Job, n: nat)
    requires HandlerOk(t, log, pid, h) && Going(t, h, job, n)
    requires o.fault.NoFault? && w == Write(t, Statement(t, h, o), o.fault)
    ensures Going(t, Continue(t, h, o, w), job, n + 1)
  {
    if n >= 1 {
      MarksMove(t, h, o, w);
      JobMoves(t, h, o, w);
    }
  }

  lemma WritesKeepContributors(t: Tables, h: Handler, o: Oracle)
    ensures Write(t, Statement(t, h, o), o.fault).tables.contributors == t.contributors
  {
  }

  lemma GoesFollows(job: Job)
    ensures Follows(Goes(job), Always())
  {
    var place, fine := Goes(job), Always();
    forall t, t', h, n ensures KeptAt(place, t, t', h, n) {
    }
    forall t, log, pid, h, o, n ensures MovedAt(place, fine, t, log, pid, h, o, n) {
      if HandlerOk(t, log, pid, h) && Going(t, h, job, n) && o.fault.NoFault? {
        StepGoing(t, log, pid, h, o, Write(t, Statement(t, h, o), o.fault), job, n);
        WritesKeepContributors(t, h, o);
      }
    }
  }

  /** A handler that has submitted is in the log, with the job it still has. */
  lemma SubmittedIsLogged(s: System, pid: nat)
    requires GInv(s) && pid in s.handlers && s.handlers[pid].marks.submitted
    ensures SubmittedBy(s.log, pid, s.handlers[pid].job)
  {
    assert HandlerOk(s.tables, s.log, pid, s.handlers[pid]);
    var i :| 0 <= i < |s.log| && IsSubmissionOf(s.log[i], pid, s.handlers[pid]);
  }

  /** A handler that has not submitted is not in the log. */
  lemma UnsubmittedIsNotLogged(s: System, pid: nat, job: Job)
    requires LogOk(s) && pid in s.handlers && !s.handlers[pid].marks.submitted
    ensures !SubmittedBy(s.log, pid, job)
  {
  }

  /** The check, read without a fault, lets a handler go on iff there is no row at that read. */
  lemma CheckDecides(t: Tables, h: Handler, o: Oracle)
    requires h.pc.CheckExists? && o.fault.NoFault?
    ensures Continue(t, h, o, Write(t, Statement(t, h, o), o.fault))
         == h.(pc := if FetchPayoutId(t, h.job.program, h.job.merge.pr).None? then FindContributor else FetchId)
  {
  }

  lemma GoingIsLogged(s: System, actions: seq<Action>, pid: nat, job: Job)
    requires GInv(s) && At(Goes(job), s, pid, 0) && Undisturbed(s, actions, pid, Always()) && StepsOf(actions, pid) >= 2
    ensures SubmittedBy(Run(s, actions).log, pid, job)
  {
    GoesFollows(job);
    RunFollows(Goes(job), Always(), s, actions, pid, 0, StepsOf(actions, pid));
    RunKeepsGInv(s, actions);
    SubmittedIsLogged(Run(s, actions), pid);
  }

  lemma GoesOn(s: System, pid: nat, o: Oracle, actions: seq<Action>)
    requires GInv(s) && pid in s.handlers && s.handlers[pid].pc.CheckExists? && o.fault.NoFault?
    requires var h := s.handlers[pid];
      Registered(s.tables, h) && FetchPayoutId(s.tables, h.job.program, h.job.merge.pr).None?
    requires Undisturbed(Next(s, Step(pid, o)), actions, pid, Always()) && StepsOf(actions, pid) >= 2
    ensures SubmittedBy(Run(Next(s, Step(pid, o)), actions).log, pid, s.handlers[pid].job)
  {
    var h := s.handlers[pid];
    CheckDecides(s.tables, h, o);
    NextKeepsGInv(s, Step(pid, o));
    assert At(Goes(h.job), Next(s, Step(pid, o)), pid, 0);
    GoingIsLogged(Next(s, Step(pid, o)), actions, pid, h.job);
  }

  /** A handler at the check of a paid PR is a replay. */
  lemma AtCheckIsReplay(s: System, pid: nat)
    requires HandlersOk(s) && pid in s.handlers && s.handlers[pid].pc.CheckExists? && PrKey(s.handlers[pid]) in s.tables.payouts
    ensures Answering(s.handlers[pid], PrKey(s.handlers[pid]), s.tables.payouts[PrKey(s.handlers[pid])].id)
  {
    assert HandlerOk(s.tables, s.log, pid, s.handlers[pid]);
  }

  /** A replay never submits. */
  lemma ReplayStaysOut(s: System, actions: seq<Action>, pid: nat, key: (Uuid, I64), id: Uuid, job: Job)
    requires GInv(s) && HasRow(s.tables, key, id) && pid in s.handlers && Replaying(s.tables, s.handlers[pid], key, id)
    ensures !SubmittedBy(Run(s, actions).log, pid, job)
  {
    ReplayAnswers(s, actions, pid, key, id);
    RunKeepsGInv(s, actions);
    UnsubmittedIsNotLogged(Run(s, actions), pid, job);
  }

  lemma StaysOut(s: System, pid: nat, o: Oracle, actions: seq<Action>)
    requires GInv(s) && pid in s.handlers && s.handlers[pid].pc.CheckExists?
    requires FetchPayoutId(s.tables, s.handlers[pid].job.program, s.handlers[pid].job.merge.pr).Some?
    ensures !SubmittedBy(Run(Next(s, Step(pid, o)), actions).log, pid, s.handlers[pid].job)
  {
    var key := PrKey(s.handlers[pid]);
    var id := s.tables.payouts[key].id;
    AtCheckIsReplay(s, pid);
    StepReplaying(s, pid, o, key, id);
    NextKeepsGInv(s, Step(pid, o));
    ReplayStaysOut(Next(s, Step(pid, o)), actions, pid, key, id, s.handlers[pid].job);
  }

  /**
   A handler whose check loses nothing, whose contributor is registered and which is left to take two
   more steps has submitted in the end iff the check read no row, whatever happened in between.
   */
  lemma SubmittedIffNoRow(s: System, pid: nat, o: Oracle, actions: seq<Action>)
    requires GInv(s) && pid in s.handlers && s.handlers[pid].pc.CheckExists? && o.fault.NoFault?
    requires Registered(s.tables, s.handlers[pid])
    requires Undisturbed(Next(s, Step(pid, o)), actions, pid, Always()) && StepsOf(actions, pid) >= 2
    ensures SubmittedBy(Run(Next(s, Step(pid, o)), actions).log, pid, s.handlers[pid].job)
       <==> FetchPayoutId(s.tables, s.handlers[pid].job.program, s.handlers[pid].job.merge.pr).None?
  {
    if FetchPayoutId(s.tables, s.handlers[pid].job.program, s.handlers[pid].job.merge.pr).None? {
      GoesOn(s, pid, o, actions);
    } else {
      StaysOut(s, pid, o, actions);
    }
  }

  // ----- Two checks in one run -----

  /** The `n`-th action of a run is a handler's existence check. */
  ghost predicate IsCheck(s: System, actions: seq<Action>, n: nat, pid: nat) {
    && n < |actions| && actions[n].Step? && actions[n].pid == pid && actions[n].oracle.fault.NoFault?
    && pid in Run(s, actions[..n]).handlers && Run(s, actions[..n]).handlers[pid].pc.CheckExists?
  }

  ghost function CheckingJob(s: System, actions: seq<Action>, n: nat, pid: nat): Job
    requires IsCheck(s, actions, n, pid)
  {
    Run(s, actions[..n]).handlers[pid].job
  }

  /** What the check reads: no payout row for the handler's PR. */
  ghost predicate ReadsNoRow(s: System, actions: seq<Action>, n: nat, pid: nat)
    requires IsCheck(s, actions, n, pid)
  {
    var job := CheckingJob(s, actions, n, pid);
    FetchPayoutId(Run(s, actions[..n]).tables, job.program, job.merge.pr).None?
  }

  /** The contributor is registered, and the handler is left to go on. */
  ghost predicate CanGoOn(s: System, actions: seq<Action>, n: nat, pid: nat)
    requires IsCheck(s, actions, n, pid)
  {
    var before := Run(s, actions[..n]);
    && Registered(before.tables, before.handlers[pid])
    && Undisturbed(Next(before, actions[n]), actions[n + 1..], pid, Always())
    && StepsOf(actions[n + 1..], pid) >= 2
  }

  lemma CheckedIff(s: System, actions: seq<Action>, n: nat, pid: nat)
    requires GInv(s) && IsCheck(s, actions, n, pid) && CanGoOn(s, actions, n, pid)
    ensures SubmittedBy(Run(s, actions).log, pid, CheckingJob(s, actions, n, pid)) <==> ReadsNoRow(s, actions, n, pid)
  {
    var before := Run(s, actions[..n]);
    RunKeepsGInv(s, actions[..n]);
    RunAround(s, actions, n);
    assert actions[n] == Step(pid, actions[n].oracle);
    SubmittedIffNoRow(before, pid, actions[n].oracle, actions[n + 1..]);
  }

  /** Two entries for one PR of one program, by two handlers. */
  predicate SubmittedTwice(log: seq<Submission>, p: nat, q: nat, job: Job) {
    exists i, j :: 0 <= i < |log| && 0 <= j < |log| && i != j && log[i].handler == p && log[j].handler == q
      && log[i].onChain == log[j].onChain == job.onChain && log[i].pr == log[j].pr == job.merge.pr
  }

  /**
   Two handlers of one PR both submit iff both of their checks read before a row was saved. So the
   check blocks a second submission exactly when the first handler saved before the second one read.
   */
  lemma TwiceIffBothReadNoRow(s: System, actions: seq<Action>, p: nat, n: nat, q: nat, m: nat)
    requires GInv(s) && p != q && IsCheck(s, actions, n, p) && IsCheck(s, actions, m, q)
    requires CanGoOn(s, actions, n, p) && CanGoOn(s, actions, m, q)
    requires var a, b := CheckingJob(s, actions, n, p), CheckingJob(s, actions, m, q);
      a.onChain == b.onChain && a.merge.pr == b.merge.pr
    ensures SubmittedTwice(Run(s, actions).log, p, q, CheckingJob(s, actions, n, p))
       <==> ReadsNoRow(s, actions, n, p) && ReadsNoRow(s, actions, m, q)
  {
    CheckedIff(s, actions, n, p);
    CheckedIff(s, actions, m, q);
    var log, job := Run(s, actions).log, CheckingJob(s, actions, n, p);
    if SubmittedBy(log, p, job) && SubmittedBy(log, q, job) {
      var i :| 0 <= i < |log| && log[i].handler == p && log[i].onChain == job.onChain && log[i].pr == job.merge.pr;
      var j :| 0 <= j < |log| && log[j].handler == q && log[j].onChain == job.onChain && log[j].pr == job.merge.pr;
      assert i != j;
    }
  }

  // ----- Every submission was checked -----

  /** The handler's check, `n` actions into the run, read no row for this PR. */
  ghost predicate PassedCheck(s: System, actions: seq<Action>, n: nat, pid: nat, key: (Uuid, I64)) {
    && IsCheck(s, actions, n, pid) && ReadsNoRow(s, actions, n, pid)
    && PrKey(Run(s, actions[..n]).handlers[pid]) == key
  }

  predicate IsPastCheck(h: Handler) {
    h.pc.FindContributor? || h.pc.Submit? || h.marks.submitted
  }

  lemma PassedStays(s: System, actions: seq<Action>, a: Action, n: nat, pid: nat, key: (Uuid, I64))
    requires PassedCheck(s, actions, n, pid, key)
    ensures PassedCheck(s, actions + [a], n, pid, key)
  {
    assert (actions + [a])[..n] == actions[..n];
  }

  /** A step past the check is the check itself, or comes after it. */
  lemma StepPastCheck(t: Tables, log: seq<Submission>, pid: nat, h: Handler, o: Oracle, w: Written)
    requires HandlerOk(t, log, pid, h) && w == Write(t, Statement(t, h, o), o.fault) && IsPastCheck(Continue(t, h, o, w))
    ensures PrKey(Continue(t, h, o, w)) == PrKey(h)
    ensures !IsPastCheck(h) ==>
      h.pc.CheckExists? && o.fault.NoFault? && FetchPayoutId(t, h.job.program, h.job.merge.pr).None?
  {
    MarksMove(t, h, o, w);
    JobMoves(t, h, o, w);
  }

  lemma NextPastCheck(s: System, a: Action, pid: nat)
    requires HandlersOk(s) && pid in Next(s, a).handlers && IsPastCheck(Next(s, a).handlers[pid])
    ensures pid in s.handlers && PrKey(Next(s, a).handlers[pid]) == PrKey(s.handlers[pid])
    ensures !IsPastCheck(s.handlers[pid]) ==>
      && a.Step? && a.pid == pid && a.oracle.fault.NoFault? && s.handlers[pid].pc.CheckExists?
      && FetchPayoutId(s.tables, s.handlers[pid].job.program, s.handlers[pid].job.merge.pr).None?
  {
    if a.Step? && a.pid == pid && pid in s.handlers {
      var h := s.handlers[pid];
      assert HandlerOk(s.tables, s.log, pid, h);
      StepPastCheck(s.tables, s.log, pid, h, a.oracle, Write(s.tables, Statement(s.tables, h, a.oracle), a.oracle.fault));
    } else if pid in s.handlers {
      OthersMove(s, a, pid);
    }
  }

  lemma PassedNow(s: System, prefix: seq<Action>, a: Action, pid: nat)
    requires a.Step? && a.pid == pid && a.oracle.fault.NoFault?
    requires pid in Run(s, prefix).handlers && Run(s, prefix).handlers[pid].pc.CheckExists?
    requires var job := Run(s, prefix).handlers[pid].job;
      FetchPayoutId(Run(s, prefix).tables, job.program, job.merge.pr).None?
    ensures PassedCheck(s, prefix + [a], |prefix|, pid, PrKey(Run(s, prefix).handlers[pid]))
  {
    assert (prefix + [a])[..|prefix|] == prefix;
  }

  /** Every handler past the check has read no row for its PR, in any run. */
  lemma {:induction false} PastCheckReadNoRow(s: System, actions: seq<Action>, pid: nat)
    requires Initial(s) && pid in Run(s, actions).handlers && IsPastCheck(Run(s, actions).handlers[pid])
    ensures exists n :: PassedCheck(s, actions, n, pid, PrKey(Run(s, actions).handlers[pid]))
  {
    var prefix, last := actions[..|actions| - 1], actions[|actions| - 1];
    assert actions == prefix + [last];
    InitialHolds(s);
    RunKeepsGInv(s, prefix);
    NextPastCheck(Run(s, prefix), last, pid);
    if IsPastCheck(Run(s, prefix).handlers[pid]) {
      PastCheckReadNoRow(s, prefix, pid);
      var n :| PassedCheck(s, prefix, n, pid, PrKey(Run(s, prefix).handlers[pid]));
      PassedStays(s, prefix, last, n, pid, PrKey(Run(s, prefix).handlers[pid]));
    } else {
      PassedNow(s, prefix, last, pid);
    }
  }

  /** Two submissions for one PR of one program come from two handlers that each read before a row was saved. */
  lemma TwoSubmissionsReadNoRow(s: System, actions: seq<Action>, i: nat, j: nat)
    requires Initial(s)
    requires var log := Run(s, actions).log;
      i < j < |log| && log[i].onChain == log[j].onChain && log[i].pr == log[j].pr
    ensures var log := Run(s, actions).log;
      && log[i].handler != log[j].handler
      && exists key, n, m ::
           PassedCheck(s, actions, n, log[i].handler, key) && PassedCheck(s, actions, m, log[j].handler, key)
  {
    var s' := Run(s, actions);
    InitialHolds(s);
    RunKeepsGInv(s, actions);
    var p, q := s'.log[i].handler, s'.log[j].handler;
    LoggedTarget(s', i);
    LoggedTarget(s', j);
    PastCheckReadNoRow(s, actions, p);
    PastCheckReadNoRow(s, actions, q);
    var key := PrKey(s'.handlers[p]);
    SameProgram(s'.tables, s'.handlers[p].job.program, s'.handlers[q].job.program);
    var n :| PassedCheck(s, actions, n, p, key);
    var m :| PassedCheck(s, actions, m, q, key);
  }

  // ----- Two deliveries that race -----

  /** Both deliveries come to the existence check before either goes on. */
  function RaceToCheck(p: nat, r1: Request, o1: Oracle, q: nat, r2: Request, o2: Oracle): seq<Action> {
    Approach(p, r1, o1) + Approach(q, r2, o2)
  }

  /** Two deliveries of one merge under different ids, both new and payable. */
  predicate Racing(s: System, p: nat, r1: Request, o1: Oracle, q: nat, r2: Request, o2: Oracle, program: Uuid) {
    && p != q && p !in s.handlers && q !in s.handlers && IsMerge(r1) && IsMerge(r2)
    && MergeOf(r1) == MergeOf(r2) && r1.delivery.Some? && r2.delivery.Some? && r1.delivery != r2.delivery
    && CanBePaid(s.tables, r1, program, o1.uuid) && CanBePaid(s.tables, r2, program, o2.uuid)
    && o1.fault.NoFault? && o2.fault.NoFault?
  }

  /** The tables once both ids are claimed. */
  function BothClaimed(s: System, r1: Request, r2: Request): System {
    ClaimedIn(ClaimedIn(s, r1), r2)
  }

  lemma BothReachCheck(s: System, p: nat, r1: Request, o1: Oracle, q: nat, r2: Request, o2: Oracle, program: Uuid)
    requires Consistent(s.tables) && Racing(s, p, r1, o1, q, r2, o2, program)
    ensures Run(s, RaceToCheck(p, r1, o1, q, r2, o2)) ==
      Moved(Moved(BothClaimed(s, r1, r2), p, Found(s.tables, Taken(r1), program)), q, Found(s.tables, Taken(r2), program))
  {
    Approaches(s, p, r1, o1, program);
    RunThen(s, Approach(p, r1, o1), Approach(q, r2, o2));
    InsertEventKeeps(s.tables, EventRow(r1.delivery, Processing));
    var s1 := Moved(ClaimedIn(s, r1), p, Found(s.tables, Taken(r1), program));
    Approaches(s1, q, r2, o2, program);
  }

  /** Then both submit. */
  function Race(p: nat, r1: Request, o1: Oracle, q: nat, r2: Request, o2: Oracle): seq<Action> {
    RaceToCheck(p, r1, o1, q, r2, o2) + Steps(p, o1, 3) + Steps(q, o2, 3)
  }

  lemma MovedSwap(s: System, p: nat, h1: Handler, q: nat, h2: Handler)
    requires p != q
    ensures Moved(Moved(s, p, h1), q, h2) == Moved(Moved(s, q, h2), p, h1)
  {
    assert s.handlers[p := h1][q := h2] == s.handlers[q := h2][p := h1];
  }

  function Logging(s: System, e: Submission): System {
    s.(log := s.log + [e])
  }

  /** One of two handlers at the check goes on to submit. */
  lemma FirstAttests(s: System, p: nat, h1: Handler, o: Oracle, q: nat, h2: Handler)
    requires p != q && h1.pc.CheckExists? && o.fault.NoFault?
    requires Registered(s.tables, h1) && FetchPayoutId(s.tables, h1.job.program, h1.job.merge.pr).None?
    ensures Run(Moved(Moved(s, p, h1), q, h2), Steps(p, o, 3)) ==
      Moved(Moved(Logging(s, Attestation(p, h1, o.mode)), p, Attested(s.tables, h1, o.mode)), q, h2)
  {
    MovedSwap(s, p, h1, q, h2);
    AttestsNext(Moved(s, q, h2), p, h1, o);
    MovedSwap(Logging(s, Attestation(p, h1, o.mode)), p, Attested(s.tables, h1, o.mode), q, h2);
  }

  lemma BothAttest(s: System, p: nat, h1: Handler, o1: Oracle, q: nat, h2: Handler, o2: Oracle)
    requires p != q && h1.pc.CheckExists? && h2.pc.CheckExists? && o1.fault.NoFault? && o2.fault.NoFault?
    requires Registered(s.tables, h1) && FetchPayoutId(s.tables, h1.job.program, h1.job.merge.pr).None?
    requires Registered(s.tables, h2) && FetchPayoutId(s.tables, h2.job.program, h2.job.merge.pr).None?
    ensures Run(Moved(Moved(s, p, h1), q, h2), Steps(p, o1, 3) + Steps(q, o2, 3)) ==
      Moved(Moved(Logging(Logging(s, Attestation(p, h1, o1.mode)), Attestation(q, h2, o2.mode)),
                  p, Attested(s.tables, h1, o1.mode)), q, Attested(s.tables, h2, o2.mode))
  {
    RunThen(Moved(Moved(s, p, h1), q, h2), Steps(p, o1, 3), Steps(q, o2, 3));
    FirstAttests(s, p, h1, o1, q, h2);
    AttestsNext(Moved(Logging(s, Attestation(p, h1, o1.mode)), p, Attested(s.tables, h1, o1.mode)), q, h2, o2);
  }

  /** Both ids claimed and both attestations logged. */
  function Raced(s: System, p: nat, r1: Request, o1: Oracle, q: nat, r2: Request, o2: Oracle, program: Uuid): System
    requires Racing(s, p, r1, o1, q, r2, o2, program)
  {
    Logging(Logging(BothClaimed(s, r1, r2), Attesting(s.tables, p, r1, program, o1)), Attesting(s.tables, q, r2, program, o2))
  }

  lemma AttestsAlike(s: System, t: Tables, pid: nat, r: Request, o: Oracle, program: Uuid)
    requires IsMerge(r) && CanBePaid(s.tables, r, program, o.uuid) && t == s.tables.(events := t.events)
    ensures var h := Found(s.tables, Taken(r), program);
      && h.pc.CheckExists? && Registered(t, h) && FetchPayoutId(t, h.job.program, h.job.merge.pr).None?
      && Attested(t, h, o.mode) == OnTheWay(s.tables, r, program, o)
      && Attestation(pid, h, o.mode) == Attesting(s.tables, pid, r, program, o)
  {
  }

  lemma RaceSubmitsTwice(s: System, p: nat, r1: Request, o1: Oracle, q: nat, r2: Request, o2: Oracle, program: Uuid)
    requires Consistent(s.tables) && Racing(s, p, r1, o1, q, r2, o2, program)
    ensures Run(s, Race(p, r1, o1, q, r2, o2)) ==
      Moved(Moved(Raced(s, p, r1, o1, q, r2, o2, program), p, OnTheWay(s.tables, r1, program, o1)),
            q, OnTheWay(s.tables, r2, program, o2))
  {
    BothReachCheck(s, p, r1, o1, q, r2, o2, program);
    RunThen(s, RaceToCheck(p, r1, o1, q, r2, o2), Steps(p, o1, 3) + Steps(q, o2, 3));
    assert Race(p, r1, o1, q, r2, o2) == RaceToCheck(p, r1, o1, q, r2, o2) + (Steps(p, o1, 3) + Steps(q, o2, 3));
    AttestsAlike(s, BothClaimed(s, r1, r2).tables, p, r1, o1, program);
    AttestsAlike(s, BothClaimed(s, r1, r2).tables, q, r2, o2, program);
    BothAttest(BothClaimed(s, r1, r2), p, Found(s.tables, Taken(r1), program), o1, q, Found(s.tables, Taken(r2), program), o2);
  }

  lemma {:induction false} StepsShape(pid: nat, o: Oracle, n: nat)
    ensures |Steps(pid, o, n)| == n
    ensures n > 0 ==> Steps(pid, o, n)[..n - 1] == Steps(pid, o, n - 1) && Steps(pid, o, n)[n - 1] == Step(pid, o)
  {
    if n > 0 {
      StepsShape(pid, o, n - 1);
    }
  }

  lemma {:induction false} StepsCount(pid: nat, o: Oracle, n: nat)
    ensures StepsOf(Steps(pid, o, n), pid) == n
  {
    if n > 0 {
      StepsShape(pid, o, n);
      StepsCount(pid, o, n - 1);
    }
  }

  lemma SparesOwnStep(s: System, pid: nat, o: Oracle)
    requires o.fault.NoFault?
    ensures Spares(s, Step(pid, o), pid, Always())
  {
  }

  lemma {:induction false} StepsUndisturbed(s: System, pid: nat, o: Oracle, n: nat)
    requires o.fault.NoFault?
    ensures Undisturbed(s, Steps(pid, o, n), pid, Always())
  {
    if n > 0 {
      StepsShape(pid, o, n);
      StepsUndisturbed(s, pid, o, n - 1);
      SparesOwnStep(Run(s, Steps(pid, o, n - 1)), pid, o);
    }
  }

  /**
   From an initial state, two deliveries of one PR under different ids can both pass the existence
   check, and both are submitted.
   */
  lemma BothMaySubmit(d1: Text, d2: Text)
    requires d1 != d2
    ensures var o1, o2 := Oracle(NoFault, 7, Simulated), Oracle(NoFault, 8, Simulated);
      var actions := Race(0, ExampleRequest(Some(d1)), o1, 1, ExampleRequest(Some(d2)), o2);
      var log := Run(ExampleStart(), actions).log;
      && Initial(ExampleStart()) && |log| == 2
      && log[0].onChain == log[1].onChain && log[0].pr == log[1].pr && log[0].delivery != log[1].delivery
  {
    ExampleCanBePaid(Some(d1), 7);
    ExampleCanBePaid(Some(d2), 8);
    RaceSubmitsTwice(ExampleStart(), 0, ExampleRequest(Some(d1)), Oracle(NoFault, 7, Simulated),
                     1, ExampleRequest(Some(d2)), Oracle(NoFault, 8, Simulated), 1);
  }

  /** The first then saves and counts its row, and the second goes on to its answer. */
  function RaceToEnd(p: nat, r1: Request, o1: Oracle, q: nat, r2: Request, o2: Oracle): seq<Action> {
    Race(p, r1, o1, q, r2, o2) + Steps(p, o1, 3) + Steps(q, o2, 3)
  }

  lemma FirstSaves(s: System, p: nat, r1: Request, o1: Oracle, q: nat, r2: Request, o2: Oracle, program: Uuid)
    requires Consistent(s.tables) && Racing(s, p, r1, o1, q, r2, o2, program)
    ensures var raced, row := Raced(s, p, r1, o1, q, r2, o2, program), PaidRow(s.tables, r1, program, o1);
      Run(s, Race(p, r1, o1, q, r2, o2) + Steps(p, o1, 3)) ==
        Moved(Moved(raced.(tables := Booked(raced.tables, row)), q, OnTheWay(s.tables, r2, program, o2)),
              p, Settled(OnTheWay(s.tables, r1, program, o1), row))
  {
    var raced := Raced(s, p, r1, o1, q, r2, o2, program);
    var h1, h2 := OnTheWay(s.tables, r1, program, o1), OnTheWay(s.tables, r2, program, o2);
    RaceSubmitsTwice(s, p, r1, o1, q, r2, o2, program);
    RunThen(s, Race(p, r1, o1, q, r2, o2), Steps(p, o1, 3));
    MovedSwap(raced, p, h1, q, h2);
    SettlesNext(Moved(raced, q, h2), p, h1, o1);
  }

  lemma SecondIsLate(s: System, p: nat, r1: Request, o1: Oracle, q: nat, r2: Request, o2: Oracle, program: Uuid)
    requires Consistent(s.tables) && Racing(s, p, r1, o1, q, r2, o2, program)
    ensures var row := PaidRow(s.tables, r1, program, o1);
      At(Lateness(row, row.pr), Run(s, Race(p, r1, o1, q, r2, o2) + Steps(p, o1, 3)), q, 2)
  {
    FirstSaves(s, p, r1, o1, q, r2, o2, program);
  }

  lemma LateThreeMore(s: System, pid: nat, o: Oracle, row: PayoutRow, pr: U64)
    requires GInv(s) && At(Lateness(row, pr), s, pid, 2) && o.fault.NoFault?
    ensures At(Lateness(row, pr), Run(s, Steps(pid, o, 3)), pid, 5)
  {
    StepsUndisturbed(s, pid, o, 3);
    StepsCount(pid, o, 3);
    LateIsConflict(s, Steps(pid, o, 3), pid, row, pr, 2, 5);
  }

  lemma LateEnd(s: System, pid: nat, row: PayoutRow, pr: U64)
    requires At(Lateness(row, pr), s, pid, 5) && pr <= I64_MAX
    ensures (row.program, row.pr) in s.tables.payouts && s.tables.payouts[(row.program, row.pr)] == row
    ensures pid in s.handlers && s.handlers[pid].pc == Done(FailedReply(Conflict))
  {
  }

  /** One row is saved; the second handler, whose check had read no row, is answered with a conflict. */
  lemma SecondConflicts(s: System, p: nat, r1: Request, o1: Oracle, q: nat, r2: Request, o2: Oracle, program: Uuid)
    requires GInv(s) && Racing(s, p, r1, o1, q, r2, o2, program)
    ensures var s', row := Run(s, RaceToEnd(p, r1, o1, q, r2, o2)), PaidRow(s.tables, r1, program, o1);
      && (program, row.pr) in s'.tables.payouts && s'.tables.payouts[(program, row.pr)] == row
      && q in s'.handlers && s'.handlers[q].pc == Done(FailedReply(Conflict))
  {
    var row, first := PaidRow(s.tables, r1, program, o1), Race(p, r1, o1, q, r2, o2) + Steps(p, o1, 3);
    SecondIsLate(s, p, r1, o1, q, r2, o2, program);
    RunKeepsGInv(s, first);
    LateThreeMore(Run(s, first), q, o2, row, row.pr);
    LateEnd(Run(Run(s, first), Steps(q, o2, 3)), q, row, row.pr);
    RunThen(s, first, Steps(q, o2, 3));
  }
}
