/**
 Which requests get anywhere: only a signed delivery of a pull request merged into the default branch is
 ever submitted or paid.
 */
module GatewayRequests {
  import opened GatewayInvariant
  import opened GatewayProtocol
  import opened GatewayRuns
  import opened GatewayTables
  import opened Integers
  import opened RowEncodings

  predicate IntoDefaultBranch(e: PrEvent) {
    e.action == CLOSED && e.merged && e.baseRef == e.defaultBranch
  }

  /** A signed delivery of a merge into the default branch. */
  predicate IsMerge(r: Request) {
    r.signed && r.isPullRequest && r.body.PullRequest? && IntoDefaultBranch(r.body.event)
  }

  /** What it asks for: one point for the PR's author. */
  function MergeOf(r: Request): Merge
    requires IsMerge(r)
  {
    Merge(r.body.event.repo, r.body.event.login, r.body.event.number, 1)
  }

  // ----- One step -----

  /** A request whose signature does not verify is refused at its first step, with or without an id and whatever is lost. */
  lemma UnsignedIsRefused(t: Tables, h: Handler, o: Oracle, w: Written)
    requires h.pc.Start? && !h.request.signed
    ensures Continue(t, h, o, w) == h.(pc := Done(Refused))
  {
  }

  /** A decoded delivery goes on iff it is a merge into the default branch; the rest is ignored or malformed. */
  lemma DecodeDecides(t: Tables, h: Handler, o: Oracle, w: Written)
    requires h.pc.Decode?
    ensures var h', r := Continue(t, h, o, w), h.request;
      && (h'.pc == Resolve <==> r.isPullRequest && r.body.PullRequest? && IntoDefaultBranch(r.body.event))
      && (h'.pc == Resolve && r.signed ==> h'.job.merge == MergeOf(r))
      && (h'.pc == Audit(IgnoredReply, Ignored) <==>
           || (!r.isPullRequest && !r.body.Malformed?)
           || (r.isPullRequest && r.body.PullRequest? && !IntoDefaultBranch(r.body.event)))
      && (h'.pc == Done(FailedReply(WebhookError)) <==> r.body.Malformed? || (r.isPullRequest && r.body.OtherShape?))
      && h' == h.(pc := h'.pc, job := h.job.(merge := h'.job.merge))
  {
  }

  // ----- Whole runs -----

  /** An unsigned request is refused; whatever is processed as a merge is one, and asks for what it says. */
  predicate Legitimate(h: Handler) {
    && (!h.request.signed ==> !h.marks.submitted && (h.pc.Start? || h.pc == Done(Refused) || h.pc.Crashed?))
    && (InMerge(h.pc) || h.marks.submitted ==> IsMerge(h.request) && h.job.merge == MergeOf(h.request))
  }

  lemma StepLegitimate(t: Tables, h: Handler, o: Oracle, w: Written)
    requires Legitimate(h)
    ensures Legitimate(Continue(t, h, o, w))
  {
    MarksMove(t, h, o, w);
    JobMoves(t, h, o, w);
    if h.pc.Decode? {
      DecodeDecides(t, h, o, w);
    }
  }

  predicate AllLegitimate(s: System) {
    forall pid :: pid in s.handlers ==> Legitimate(s.handlers[pid])
  }

  lemma NextLegitimate(s: System, a: Action)
    requires AllLegitimate(s)
    ensures AllLegitimate(Next(s, a))
  {
    if a.Step? && a.pid in s.handlers {
      var h := s.handlers[a.pid];
      StepLegitimate(s.tables, h, a.oracle, Write(s.tables, Statement(s.tables, h, a.oracle), a.oracle.fault));
    }
  }

  lemma {:induction false} RunLegitimate(s: System, actions: seq<Action>)
    requires AllLegitimate(s)
    ensures AllLegitimate(Run(s, actions))
  {
    if actions != [] {
      RunLegitimate(s, actions[..|actions| - 1]);
      NextLegitimate(Run(s, actions[..|actions| - 1]), actions[|actions| - 1]);
    }
  }

  /** An unsigned request never gets past its refusal, and nothing is submitted for it. */
  lemma UnsignedGoesNowhere(s: System, actions: seq<Action>, pid: nat)
    requires Initial(s) && pid in Run(s, actions).handlers && !Run(s, actions).handlers[pid].request.signed
    ensures var s' := Run(s, actions);
      && (s'.handlers[pid].pc.Start? || s'.handlers[pid].pc == Done(Refused) || s'.handlers[pid].pc.Crashed?)
      && forall i :: 0 <= i < |s'.log| ==> s'.log[i].handler != pid
  {
    RunLegitimate(s, actions);
    InitialHolds(s);
    assert LogOk(Run(s, actions)) by { RunKeepsGInv(s, actions); }
  }

  /** The request behind a submission. */
  function Origin(s: System, i: nat): Request
    requires i < |s.log| && s.log[i].handler in s.handlers
  {
    s.handlers[s.log[i].handler].request
  }

  /** A submission is what its request asked for: a signed, merged PR of the repository of a program. */
  ghost predicate IsGenuine(s: System, i: nat, program: Uuid)
    requires i < |s.log| && s.log[i].handler in s.handlers
  {
    var r, e := Origin(s, i), s.log[i];
    && r.signed && r.isPullRequest && r.body.PullRequest?
    && var pr := r.body.event;
    && pr.action == CLOSED && pr.merged && pr.baseRef == pr.defaultBranch
    && e.delivery == r.delivery && e.user == pr.login && e.pr == pr.number && e.points == 1
    && program in s.tables.programs && s.tables.programs[program].repo == pr.repo
    && e.onChain == AsU64(s.tables.programs[program].onChainId)
  }

  lemma LoggedIsGenuine(s: System, i: nat)
    requires GInv(s) && AllLegitimate(s) && i < |s.log|
    ensures s.log[i].handler in s.handlers
    ensures IsGenuine(s, i, s.handlers[s.log[i].handler].job.program)
  {
    LoggedTarget(s, i);
    assert Legitimate(s.handlers[s.log[i].handler]);
  }

  /**
   Every submission of every run comes from a signed delivery of a pull request that was closed by
   merging it into the default branch; it names that PR, its author, one point and the on-chain id of
   the program of that repository.
   */
  lemma SubmissionsAreGenuine(s: System, actions: seq<Action>, i: nat)
    requires Initial(s) && i < |Run(s, actions).log|
    ensures var s' := Run(s, actions);
      s'.log[i].handler in s'.handlers && IsGenuine(s', i, s'.handlers[s'.log[i].handler].job.program)
  {
    InitialHolds(s);
    assert GInv(Run(s, actions)) by { RunKeepsGInv(s, actions); }
    RunLegitimate(s, actions);
    LoggedIsGenuine(Run(s, actions), i);
  }

  lemma BackedIsGenuine(s: System, i: nat, row: PayoutRow)
    requires GInv(s) && AllLegitimate(s) && i < |s.log| && Backs(s.tables, s.log[i], row)
    ensures s.log[i].handler in s.handlers && IsGenuine(s, i, row.program)
  {
    LoggedTarget(s, i);
    LoggedIsGenuine(s, i);
    SameProgram(s.tables, row.program, s.handlers[s.log[i].handler].job.program);
  }

  /** So is every payout row: it names the PR and the author of such a delivery for its program's repository. */
  lemma PayoutsAreGenuine(s: System, actions: seq<Action>, k: (Uuid, I64))
    requires Initial(s) && k in Run(s, actions).tables.payouts
    ensures var s' := Run(s, actions);
      var row := s'.tables.payouts[k];
      exists i :: 0 <= i < |s'.log| && Backs(s'.tables, s'.log[i], row)
        && s'.log[i].handler in s'.handlers && IsGenuine(s', i, row.program)
        && row.pr == Origin(s', i).body.event.number && row.user == Origin(s', i).body.event.login
  {
    InitialHolds(s);
    assert GInv(Run(s, actions)) by { RunKeepsGInv(s, actions); }
    RunLegitimate(s, actions);
    var s' := Run(s, actions);
    assert RowBacked(s'.tables, s'.log, s'.tables.payouts[k]);
    var i :| 0 <= i < |s'.log| && Backs(s'.tables, s'.log[i], s'.tables.payouts[k]);
    BackedIsGenuine(s', i, s'.tables.payouts[k]);
  }
}
