/**
 Rebuilding the contract's storage from its event log, as an indexer would.
 */
module EscrowEvents {
  import opened Containers
  import opened EscrowInvariant
  import opened EscrowRuns
  import opened EscrowSpec
  import opened EscrowSteps
  import opened Integers
  import opened Slugs
  import opened Token

  /** What the log tells about a program; `ratio` is the one it was created with. */
  datatype Seen = Seen(maintainer: Address, repo: Text, ratio: int, status: Status, balance: int)

  datatype View = View(
    programs: map<U64, Seen>,
    contributors: map<(U64, Text), Address>,
    processed: set<(U64, U64)>)

  function Observe(v: View, e: Event): View {
    match e
    case ProgramCreated(id, m, repo, ratio) => v.(programs := v.programs[id := Seen(m, repo, ratio, Active, 0)])
    case Funded(id, _, newBalance) =>
      if id in v.programs then v.(programs := v.programs[id := v.programs[id].(balance := newBalance)]) else v
    case ContributorRegistered(id, user, address) => v.(contributors := v.contributors[(id, user) := address])
    case MergeRecorded(id, _, pr, _, payout) =>
      if id in v.programs then
        v.(programs := v.programs[id := v.programs[id].(balance := v.programs[id].balance - payout)],
           processed := v.processed + {(id, pr)})
      else v
    case ProgramPaused(id) =>
      if id in v.programs then v.(programs := v.programs[id := v.programs[id].(status := Paused)]) else v
    case ProgramResumed(id) =>
      if id in v.programs then v.(programs := v.programs[id := v.programs[id].(status := Active)]) else v
  }

  function Replay(events: seq<Event>): View {
    if events == [] then View(map[], map[], {})
    else Observe(Replay(events[..|events| - 1]), events[|events| - 1])
  }

  /** What a program's maintainer has withdrawn since it was last funded. */
  function WithdrawnSinceFunded(run: seq<Step>, id: U64): int {
    if run == [] then 0
    else
      var last := run[|run| - 1];
      if Succeeded(last, id) && last.tx.call.CallFund? then 0
      else WithdrawnSinceFunded(run[..|run| - 1], id) + Withdrawn(id)(last)
  }

  /** The view shows everything stored except ratios, caps, spent amounts and balances. */
  predicate Shows(v: View, w: World) {
    && v.programs.Keys == w.programs.Keys
    && (forall id :: id in w.programs ==>
         var p, q := w.programs[id], v.programs[id];
         q.maintainer == p.maintainer && q.repo == p.repo && q.status == p.status)
    && v.contributors == w.contributors
    && v.processed == w.processed
  }

  function BalanceIn(v: View, id: U64): int {
    if id in v.programs then v.programs[id].balance else 0
  }

  /** A successful step appends the events its call is documented to emit. */
  function Emitted(s: Step): seq<Event>
    requires s.out.Ok?
  {
    match s.tx.call
    case CallCreate(m, repo, ratio, _) => if 0 <= s.out.value <= U64_MAX then [ProgramCreated(s.out.value, m, repo, ratio)] else []
    case CallFund(id, _, amount) => if id in s.post.programs then [Funded(id, amount, s.post.programs[id].escrow)] else []
    case CallRegister(id, _, user, address) => [ContributorRegistered(id, user, address)]
    case CallMerge(_, id, user, pr, points) =>
      if FitsI128(s.out.value) then [MergeRecorded(id, user, pr, points, s.out.value)] else []
    case CallPause(id, _) => [ProgramPaused(id)]
    case CallResume(id, _) => [ProgramResumed(id)]
    case _ => []
  }

  lemma StepEmits(s: Step)
    requires Effect(s)
    ensures s.post.events == s.pre.events + if s.out.Ok? then Emitted(s) else []
  {
  }

  lemma ReplayOne(events: seq<Event>, e: Event)
    ensures Replay(events + [e]) == Observe(Replay(events), e)
  {
    assert (events + [e])[..|events|] == events;
  }

  /** The view after a step, from the view before it. */
  function ObserveStep(v: View, s: Step): View {
    if s.out.Ok? && Emitted(s) != [] then Observe(v, Emitted(s)[0]) else v
  }

  /** The view follows the log. */
  lemma StepReplay(s: Step)
    requires Effect(s)
    ensures Replay(s.post.events) == ObserveStep(Replay(s.pre.events), s)
  {
    StepEmits(s);
    if s.out.Ok? && Emitted(s) != [] {
      assert Emitted(s) == [Emitted(s)[0]];
      ReplayOne(s.pre.events, Emitted(s)[0]);
    } else {
      assert s.post.events == s.pre.events;
    }
  }

  /** The view keeps up with storage. */
  lemma StepShows(v: View, s: Step)
    requires Effect(s) && Shows(v, s.pre)
    ensures Shows(ObserveStep(v, s), s.post)
  {
    match s.tx.call
    case CallCreate(_, _, _, _) =>
    case CallFund(_, _, _) =>
    case CallRegister(_, _, _, _) =>
    case CallMerge(_, _, _, _, _) =>
    case CallPause(_, _) =>
    case CallResume(_, _) =>
    case _ =>
  }

  lemma FundBalance(v: View, s: Step, id: U64)
    requires Effect(s) && s.tx.call.CallFund? && s.out.Ok? && v.programs.Keys == s.pre.programs.Keys
    ensures BalanceIn(ObserveStep(v, s), id) - EscrowIn(s.post, id)
         == if s.tx.call.id == id then 0 else BalanceIn(v, id) - EscrowIn(s.pre, id)
  {
  }

  lemma MergeBalance(v: View, s: Step, id: U64)
    requires Effect(s) && s.tx.call.CallMerge? && s.out.Ok? && v.programs.Keys == s.pre.programs.Keys
    ensures BalanceIn(ObserveStep(v, s), id) - EscrowIn(s.post, id) == BalanceIn(v, id) - EscrowIn(s.pre, id)
  {
  }

  lemma WithdrawBalance(v: View, s: Step, id: U64)
    requires Effect(s) && s.tx.call.CallWithdraw? && s.out.Ok? && EscrowIn(s.pre, s.tx.call.id) >= 0
    ensures BalanceIn(ObserveStep(v, s), id) - EscrowIn(s.post, id)
         == BalanceIn(v, id) - EscrowIn(s.pre, id) + if s.tx.call.id == id then s.out.value else 0
  {
  }

  lemma OtherBalance(v: View, s: Step, id: U64)
    requires Effect(s) && s.out.Ok? && DenseIds(s.pre) && v.programs.Keys == s.pre.programs.Keys
    requires s.pre.admin.Some? && !s.tx.call.CallFund? && !s.tx.call.CallMerge? && !s.tx.call.CallWithdraw?
    ensures BalanceIn(ObserveStep(v, s), id) - EscrowIn(s.post, id) == BalanceIn(v, id) - EscrowIn(s.pre, id)
  {
    match s.tx.call
    case CallCreate(_, _, _, _) =>
    case CallRegister(_, _, _, _) =>
    case CallPause(_, _) =>
    case CallResume(_, _) =>
    case _ =>
  }

  /** The view keeps up with balances except across withdrawals. */
  lemma StepBalance(v: View, s: Step, id: U64)
    requires Effect(s) && Inv(s.pre) && v.programs.Keys == s.pre.programs.Keys
    ensures BalanceIn(ObserveStep(v, s), id) - EscrowIn(s.post, id)
         == if Succeeded(s, id) && s.tx.call.CallFund? then 0
            else BalanceIn(v, id) - EscrowIn(s.pre, id) + Withdrawn(id)(s)
  {
    if s.out.Ok? {
      match s.tx.call
      case CallFund(_, _, _) => FundBalance(v, s, id);
      case CallMerge(_, _, _, _, _) => MergeBalance(v, s, id);
      case CallWithdraw(_, _) => WithdrawBalance(v, s, id);
      case _ => OtherBalance(v, s, id);
    }
  }

  /**
   Replaying the log gives the program set, maintainers, repositories, statuses, contributors
   and processed PRs, and a balance that exceeds the escrow by exactly what was withdrawn since
   the program was last funded: `withdraw_remaining` emits nothing.
   */
  lemma {:induction false} EventsRebuildStorage(start: World, run: seq<Step>, end: World, id: U64)
    requires Initialized(start) && IsRun(start, run, end)
    ensures Shows(Replay(end.events), end)
    ensures BalanceIn(Replay(end.events), id) == EscrowIn(end, id) + WithdrawnSinceFunded(run, id)
  {
    if run != [] {
      var prefix, last := run[..|run| - 1], run[|run| - 1];
      EventsRebuildStorage(start, prefix, last.pre, id);
      RunKeepsInv(start, prefix, last.pre);
      StepEffect(last);
      StepReplay(last);
      StepShows(Replay(last.pre.events), last);
      StepBalance(Replay(last.pre.events), last, id);
    }
  }

  /** The replayed balance of a program that was never withdrawn from is its escrow. */
  lemma {:induction false} NeverWithdrawn(run: seq<Step>, id: U64)
    requires forall s :: s in run ==> Withdrawn(id)(s) == 0
    ensures WithdrawnSinceFunded(run, id) == 0
  {
    if run != [] {
      NeverWithdrawn(run[..|run| - 1], id);
      assert run[|run| - 1] in run;
    }
  }

  // ----- Ratios -----

  /** The ratio set last for a program in a run, if any. */
  function RatioSet(run: seq<Step>, id: U64): Option<int> {
    if run == [] then None
    else
      var last := run[|run| - 1];
      if Succeeded(last, id) && last.tx.call.CallSetRatio? then Some(last.tx.call.ratio) else RatioSet(run[..|run| - 1], id)
  }

  /** The ratio a program has, if the last one set is `latest` and the log shows `v`. */
  predicate RatioTold(v: View, w: World, id: U64, latest: Option<int>) {
    if id in w.programs then
      id in v.programs && w.programs[id].ratio == if latest.Some? then latest.value else v.programs[id].ratio
    else latest.None?
  }

  lemma SetRatioTold(v: View, s: Step, id: U64, latest: Option<int>)
    requires Effect(s) && RatioTold(v, s.pre, id, latest) && s.tx.call.CallSetRatio?
    ensures RatioTold(v, s.post, id, if Succeeded(s, id) then Some(s.tx.call.ratio) else latest)
  {
  }

  lemma CreateTold(v: View, s: Step, id: U64, latest: Option<int>)
    requires Effect(s) && DenseIds(s.pre) && RatioTold(v, s.pre, id, latest) && s.tx.call.CallCreate?
    ensures RatioTold(ObserveStep(v, s), s.post, id, latest)
  {
  }

  lemma OtherTold(v: View, s: Step, id: U64, latest: Option<int>)
    requires Effect(s) && RatioTold(v, s.pre, id, latest) && !s.tx.call.CallSetRatio? && !s.tx.call.CallCreate?
    ensures RatioTold(ObserveStep(v, s), s.post, id, latest)
  {
    match s.tx.call
    case CallFund(_, _, _) =>
    case CallMerge(_, _, _, _, _) =>
    case CallRegister(_, _, _, _) =>
    case CallPause(_, _) =>
    case CallResume(_, _) =>
    case CallWithdraw(_, _) =>
    case CallInitialize(_, _, _) =>
    case TokenTransfer(_, _, _) =>
  }

  lemma StepRatio(v: View, s: Step, id: U64, latest: Option<int>)
    requires Effect(s) && DenseIds(s.pre) && RatioTold(v, s.pre, id, latest)
    ensures RatioTold(ObserveStep(v, s), s.post, id,
                      if Succeeded(s, id) && s.tx.call.CallSetRatio? then Some(s.tx.call.ratio) else latest)
  {
    if s.tx.call.CallSetRatio? {
      SetRatioTold(v, s, id, latest);
    } else if s.tx.call.CallCreate? {
      CreateTold(v, s, id, latest);
    } else {
      OtherTold(v, s, id, latest);
    }
  }

  lemma {:induction false} RatioIsLastSet(start: World, run: seq<Step>, end: World, id: U64)
    requires Initialized(start) && IsRun(start, run, end)
    ensures RatioTold(Replay(end.events), end, id, RatioSet(run, id))
  {
    if run != [] {
      var prefix, last := run[..|run| - 1], run[|run| - 1];
      RatioIsLastSet(start, prefix, last.pre, id);
      RunKeepsInv(start, prefix, last.pre);
      StepEffect(last);
      StepReplay(last);
      StepRatio(Replay(last.pre.events), last, id, RatioSet(prefix, id));
    }
  }

  /**
   The log shows the ratio a program was created with. It is the program's ratio iff no ratio was
   set since, or the one set last is that same one: `set_ratio` emits nothing.
   */
  lemma RatioIsCurrentIff(start: World, run: seq<Step>, end: World, id: U64)
    requires Initialized(start) && IsRun(start, run, end) && id in end.programs
    ensures var logged := Replay(end.events).programs;
      && id in logged
      && (logged[id].ratio == end.programs[id].ratio <==>
           RatioSet(run, id).None? || RatioSet(run, id).value == logged[id].ratio)
  {
    RatioIsLastSet(start, run, end, id);
  }
}
