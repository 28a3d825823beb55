/**
 Whole runs of the contract: who was paid what, how often, when and out of which deposits.
 */
module EscrowRuns {
  import opened Containers
  import opened EscrowInvariant
  import opened EscrowSpec
  import opened EscrowSteps
  import opened Integers
  import opened Token

  predicate IsRun(start: World, run: seq<Step>, end: World) {
    if run == [] then end == start
    else
      var last := run[|run| - 1];
      IsRun(start, run[..|run| - 1], last.pre) && IsStep(last) && last.post == end
  }

  /** Deployed, with any valid token ledger, and not initialized yet. */
  ghost predicate Deployed(w: World) {
    && w == World(w.contract, None, None, None, None, map[], map[], {}, w.ledger, [])
    && ValidLedger(w.ledger)
  }

  /** The state right after a first successful call that is `initialize`. */
  ghost predicate Initialized(w: World) {
    && w == World(w.contract, w.admin, w.gateway, w.token, Some(0), map[], map[], {}, w.ledger, [])
    && w.admin.Some? && w.gateway.Some? && w.token.Some?
    && ValidLedger(w.ledger)
  }

  // ----- Reaching the invariant -----

  lemma StepKeepsRoles(s: Step)
    requires Effect(s) && s.pre.admin.Some?
    ensures s.post.contract == s.pre.contract && s.post.gateway == s.pre.gateway && s.post.token == s.pre.token
  {
  }

  lemma {:induction false} RunKeepsInv(start: World, run: seq<Step>, end: World)
    requires Initialized(start) && IsRun(start, run, end)
    ensures Inv(end)
    ensures end.contract == start.contract && end.gateway == start.gateway && end.token == start.token
    ensures forall s :: s in run ==> Effect(s) && Inv(s.pre) && Inv(s.post)
    ensures forall s :: s in run ==> s.pre.gateway == start.gateway && s.pre.contract == start.contract
  {
    if run == [] {
      SumOfZeroes(start.programs, EscrowOf);
      BalanceWithinSupply(start.ledger, start.contract);
    } else {
      var prefix, last := run[..|run| - 1], run[|run| - 1];
      RunKeepsInv(start, prefix, last.pre);
      StepEffect(last);
      StepKeepsInv(last);
      StepKeepsRoles(last);
      assert run == prefix + [last];
    }
  }

  // ----- What one step pays in and out -----

  predicate Succeeded(s: Step, id: U64) {
    s.out.Ok? && match s.tx.call {
      case CallFund(i, _, _) => i == id
      case CallRegister(i, _, _, _) => i == id
      case CallMerge(_, i, _, _, _) => i == id
      case CallPause(i, _) => i == id
      case CallResume(i, _) => i == id
      case CallSetRatio(i, _, _) => i == id
      case CallWithdraw(i, _) => i == id
      case _ => false
    }
  }

  predicate IsPayout(s: Step, id: U64) {
    Succeeded(s, id) && s.tx.call.CallMerge?
  }

  function Deposited(id: U64): Step -> int {
    (s: Step) => if Succeeded(s, id) && s.tx.call.CallFund? then s.tx.call.amount else 0
  }

  function PaidOut(id: U64): Step -> int {
    (s: Step) => if IsPayout(s, id) then s.out.value else 0
  }

  function Withdrawn(id: U64): Step -> int {
    (s: Step) => if Succeeded(s, id) && s.tx.call.CallWithdraw? then s.out.value else 0
  }

  function PaidFor(id: U64, pr: U64): Step -> int {
    (s: Step) => if IsPayout(s, id) && s.tx.call.pr == pr then 1 else 0
  }

  function EscrowIn(w: World, id: U64): int {
    if id in w.programs then w.programs[id].escrow else 0
  }

  function SpentIn(w: World, id: U64): int {
    if id in w.programs then w.programs[id].spent else 0
  }

  /** A step moves each escrow by its deposits, payouts and withdrawals and by nothing else. */
  lemma StepMovesEscrow(s: Step, id: U64)
    requires Effect(s) && Inv(s.pre)
    ensures EscrowIn(s.post, id)
         == EscrowIn(s.pre, id) + Deposited(id)(s) - PaidOut(id)(s) - Withdrawn(id)(s)
  {
  }

  // ----- Solvency over all runs -----

  /**
   Exact solvency: what the contract holds beyond the sum of all escrows is what it held at the
   start plus the outside transfers in and the payouts addressed to the contract itself.
   */
  lemma {:induction false} ExactSolvency(start: World, run: seq<Step>, end: World)
    requires Initialized(start) && IsRun(start, run, end)
    ensures BalanceOf(end.ledger, start.contract) - TotalEscrow(end)
         == BalanceOf(start.ledger, start.contract) + Total(run, Uncredited)
  {
    if run == [] {
      SumOfZeroes(start.programs, EscrowOf);
    } else {
      var prefix, last := run[..|run| - 1], run[|run| - 1];
      RunKeepsInv(start, prefix, last.pre);
      ExactSolvency(start, prefix, last.pre);
      StepEffect(last);
      StepBalances(last);
    }
  }

  /** Each program's escrow is its deposits less its payouts and withdrawals, and never negative. */
  lemma {:induction false} EscrowIsConserved(start: World, run: seq<Step>, end: World, id: U64)
    requires Initialized(start) && IsRun(start, run, end)
    ensures EscrowIn(end, id)
         == Total(run, Deposited(id)) - Total(run, PaidOut(id)) - Total(run, Withdrawn(id))
    ensures EscrowIn(end, id) >= 0
  {
    RunKeepsInv(start, run, end);
    if run != [] {
      var prefix, last := run[..|run| - 1], run[|run| - 1];
      EscrowIsConserved(start, prefix, last.pre, id);
      StepEffect(last);
      StepMovesEscrow(last, id);
    }
  }

  // ----- Lifetime cap -----

  /** Existing programs keep their cap and their maintainer. */
  lemma StepKeepsTerms(s: Step, id: U64)
    requires Effect(s) && DenseIds(s.pre) && s.pre.admin.Some? && id in s.pre.programs
    ensures id in s.post.programs
    ensures s.post.programs[id].cap == s.pre.programs[id].cap
    ensures s.post.programs[id].maintainer == s.pre.programs[id].maintainer
    ensures s.post.programs[id].repo == s.pre.programs[id].repo
  {
  }

  lemma MergeMovesSpent(s: Step, id: U64)
    requires Effect(s) && s.tx.call.CallMerge? && id in s.pre.programs
    requires s.pre.programs[id].cap.None? ==> s.pre.programs[id].spent == 0
    ensures SpentIn(s.post, id)
         == SpentIn(s.pre, id) + if s.pre.programs[id].cap.Some? then PaidOut(id)(s) else 0
  {
    if IsPayout(s, id) {
      assert SpentAfter(s.pre.programs[id], s.out.value).Ok?;
    }
  }

  /** A payout adds to a capped program's `milestone_spent`; nothing else changes it. */
  lemma StepMovesSpent(s: Step, id: U64)
    requires Effect(s) && DenseIds(s.pre) && s.pre.admin.Some? && id in s.pre.programs
    requires s.pre.programs[id].cap.None? ==> s.pre.programs[id].spent == 0
    ensures SpentIn(s.post, id)
         == SpentIn(s.pre, id) + if s.pre.programs[id].cap.Some? then PaidOut(id)(s) else 0
  {
    match s.tx.call
    case CallMerge(_, _, _, _, _) => MergeMovesSpent(s, id);
    case CallInitialize(_, _, _) =>
    case CallCreate(_, _, _, _) =>
    case CallFund(_, _, _) =>
    case CallRegister(_, _, _, _) =>
    case CallPause(_, _) =>
    case CallResume(_, _) =>
    case CallSetRatio(_, _, _) =>
    case CallWithdraw(_, _) =>
    case TokenTransfer(_, _, _) =>
  }

  /** A program comes into being unspent, and not by a payout. */
  lemma StepCreates(s: Step, id: U64)
    requires Effect(s) && id !in s.pre.programs
    ensures id in s.post.programs ==> s.post.programs[id].spent == 0
    ensures PaidOut(id)(s) == 0
  {
  }

  /**
   The cap a program was created with, and the maintainer who may pause it and withdraw from it,
   stay for the whole run.
   */
  lemma {:induction false} TermsStay(start: World, run: seq<Step>, end: World, id: U64)
    requires Initialized(start) && IsRun(start, run, end)
    ensures forall s :: s in run && id in s.pre.programs ==>
      && id in end.programs
      && end.programs[id].cap == s.pre.programs[id].cap
      && end.programs[id].maintainer == s.pre.programs[id].maintainer
  {
    if run != [] {
      var prefix, last := run[..|run| - 1], run[|run| - 1];
      assert run == prefix + [last];
      RunKeepsInv(start, prefix, last.pre);
      TermsStay(start, prefix, last.pre, id);
      if id in last.pre.programs {
        StepEffect(last);
        StepKeepsTerms(last, id);
      }
    }
  }

  /** A capped program has spent what was paid for it; nothing was paid for a program that does not exist. */
  predicate SpentIs(w: World, id: U64, paid: int) {
    if id in w.programs then w.programs[id].cap.Some? ==> w.programs[id].spent == paid else paid == 0
  }

  lemma StepSpends(s: Step, id: U64, paid: int)
    requires Effect(s) && Inv(s.pre) && SpentIs(s.pre, id, paid)
    ensures SpentIs(s.post, id, paid + PaidOut(id)(s))
  {
    if id in s.pre.programs {
      StepMovesSpent(s, id);
      StepKeepsTerms(s, id);
    } else {
      StepCreates(s, id);
    }
  }

  lemma {:induction false} SpentIsPaid(start: World, run: seq<Step>, end: World, id: U64)
    requires Initialized(start) && IsRun(start, run, end)
    ensures SpentIs(end, id, Total(run, PaidOut(id)))
  {
    if run != [] {
      var prefix, last := run[..|run| - 1], run[|run| - 1];
      SpentIsPaid(start, prefix, last.pre, id);
      assert Inv(last.pre) by { RunKeepsInv(start, prefix, last.pre); }
      StepEffect(last);
      StepSpends(last, id, Total(prefix, PaidOut(id)));
    }
  }

  /**
   A capped program's `milestone_spent` is the sum of everything ever paid for it and stays
   within the cap set at creation; an uncapped program's stays zero. Ratio changes, pauses,
   deposits and withdrawals make no difference.
   */
  lemma LifetimeCap(start: World, run: seq<Step>, end: World, id: U64)
    requires Initialized(start) && IsRun(start, run, end) && id in end.programs
    ensures var p := end.programs[id];
      && (p.cap.Some? ==> p.spent == Total(run, PaidOut(id)) && Total(run, PaidOut(id)) <= Max(p.cap.value, 0))
      && (p.cap.None? ==> p.spent == 0)
  {
    SpentIsPaid(start, run, end, id);
    assert Inv(end) by { RunKeepsInv(start, run, end); }
  }

  /** Programs are never removed, so before its creation a program has no payouts. */
  lemma {:induction false} NothingBeforeCreation(start: World, run: seq<Step>, end: World, id: U64)
    requires Initialized(start) && IsRun(start, run, end) && id !in end.programs
    ensures Total(run, PaidOut(id)) == 0
    ensures forall s :: s in run ==> id !in s.pre.programs
  {
    if run != [] {
      var prefix, last := run[..|run| - 1], run[|run| - 1];
      assert run == prefix + [last];
      RunKeepsInv(start, prefix, last.pre);
      if id in last.pre.programs {
        StepEffect(last);
        StepKeepsTerms(last, id);
      }
      NothingBeforeCreation(start, prefix, last.pre, id);
    }
  }

  // ----- Exactly-once payment -----

  /** A step flags a PR exactly when it pays for it, and it pays only for an unflagged PR. */
  lemma StepFlags(s: Step, id: U64, pr: U64)
    requires Effect(s)
    ensures (id, pr) in s.pre.processed ==> (id, pr) in s.post.processed && PaidFor(id, pr)(s) == 0
    ensures (id, pr) !in s.pre.processed ==> ((id, pr) in s.post.processed <==> PaidFor(id, pr)(s) == 1)
    ensures 0 <= PaidFor(id, pr)(s) <= 1
  {
  }

  /** A PR of a program is flagged processed iff the run paid for it, and then it paid once. */
  lemma {:induction false} PaidExactlyOnce(start: World, run: seq<Step>, end: World, id: U64, pr: U64)
    requires Initialized(start) && IsRun(start, run, end)
    ensures Total(run, PaidFor(id, pr)) == if (id, pr) in end.processed then 1 else 0
  {
    if run != [] {
      var prefix, last := run[..|run| - 1], run[|run| - 1];
      PaidExactlyOnce(start, prefix, last.pre, id, pr);
      StepEffect(last);
      StepFlags(last, id, pr);
    }
  }

  /**
   A payout is positive, is points times the ratio in force, was asked for by the gateway of an
   active program, and moves exactly that many tokens from the contract to the registered address.
   */
  lemma PayoutIsExact(s: Step, id: U64)
    requires Effect(s) && Inv(s.pre) && IsPayout(s, id)
    ensures id in s.pre.programs && (id, s.tx.call.user) in s.pre.contributors
    ensures s.out.value == s.tx.call.points * s.pre.programs[id].ratio > 0
    ensures Recipient(s) == s.pre.contributors[(id, s.tx.call.user)]
    ensures forall a :: BalanceOf(s.post.ledger, a) - BalanceOf(s.pre.ledger, a) == Flow(a, s.pre.contract, Recipient(s), s.out.value)
  {
    assert s.tx.call.points * s.pre.programs[id].ratio > 0;
  }

  lemma StepKeepsContributors(s: Step)
    requires Effect(s)
    ensures forall k :: k in s.pre.contributors ==>
      k in s.post.contributors && s.post.contributors[k] == s.pre.contributors[k]
  {
  }

  /** A registered address stays. */
  lemma {:induction false} ContributorsStay(start: World, run: seq<Step>, end: World)
    requires IsRun(start, run, end)
    ensures forall k :: k in start.contributors ==> k in end.contributors && end.contributors[k] == start.contributors[k]
    ensures forall s :: s in run ==> forall k :: k in s.pre.contributors ==>
      k in end.contributors && end.contributors[k] == s.pre.contributors[k]
  {
    if run != [] {
      var prefix, last := run[..|run| - 1], run[|run| - 1];
      assert run == prefix + [last];
      ContributorsStay(start, prefix, last.pre);
      StepEffect(last);
      StepKeepsContributors(last);
    }
  }

  /** All payouts of a run for one contributor of one program go to one address. */
  lemma OneRecipientPerContributor(start: World, run: seq<Step>, end: World, id: U64, s1: Step, s2: Step)
    requires Initialized(start) && IsRun(start, run, end)
    requires s1 in run && s2 in run && IsPayout(s1, id) && IsPayout(s2, id)
    requires s1.tx.call.user == s2.tx.call.user
    ensures Recipient(s1) == Recipient(s2)
  {
    RunKeepsInv(start, run, end);
    ContributorsStay(start, run, end);
    PayoutIsExact(s1, id);
    PayoutIsExact(s2, id);
    var key := (id, s1.tx.call.user);
    assert key in s1.pre.contributors && key in s2.pre.contributors;
  }

  // ----- Outflow discipline -----

  /**
   Escrow falls only by a merge the gateway signed while the program was active, or by a
   withdrawal its maintainer signed while it was paused.
   */
  lemma EscrowFallsOnlyBy(s: Step, id: U64)
    requires Effect(s) && Inv(s.pre) && EscrowIn(s.post, id) < EscrowIn(s.pre, id)
    ensures id in s.pre.programs
    ensures var p := s.pre.programs[id];
      || (IsPayout(s, id) && p.status == Active && s.pre.gateway.value in s.tx.auths)
      || (s.tx.call.CallWithdraw? && s.tx.call.id == id && p.status == Paused && p.maintainer in s.tx.auths
          && EscrowIn(s.post, id) == 0)
  {
  }

  predicate IsPause(s: Step, id: U64) {
    Succeeded(s, id) && s.tx.call.CallPause?
  }

  predicate IsResume(s: Step, id: U64) {
    Succeeded(s, id) && s.tx.call.CallResume?
  }

  lemma StepMovesStatus(s: Step, id: U64)
    requires Effect(s) && Inv(s.pre)
    ensures IsPause(s, id) ==> id in s.post.programs && s.post.programs[id].status == Paused
    ensures id in s.pre.programs && s.pre.programs[id].status == Paused && !IsResume(s, id) ==>
      id in s.post.programs && s.post.programs[id].status == Paused
    ensures IsPayout(s, id) ==> id in s.pre.programs && s.pre.programs[id].status == Active
  {
  }

  /** Once paused and not resumed, a program is paused. */
  lemma {:induction false} PausedUntilResumed(start: World, run: seq<Step>, end: World, id: U64, i: nat)
    requires Initialized(start) && IsRun(start, run, end)
    requires i < |run| && IsPause(run[i], id)
    requires forall k :: i < k < |run| ==> !IsResume(run[k], id)
    ensures id in end.programs && end.programs[id].status == Paused
  {
    var prefix, last := run[..|run| - 1], run[|run| - 1];
    RunKeepsInv(start, prefix, last.pre);
    if i < |run| - 1 {
      assert forall k :: i < k < |prefix| ==> prefix[k] == run[k];
      PausedUntilResumed(start, prefix, last.pre, id, i);
    }
    StepEffect(last);
    StepMovesStatus(last, id);
  }

  /** Every prefix of a run is a run. */
  lemma {:induction false} PrefixIsRun(start: World, run: seq<Step>, end: World, n: nat)
    requires IsRun(start, run, end) && n < |run|
    ensures IsRun(start, run[..n], run[n].pre)
  {
    var prefix, last := run[..|run| - 1], run[|run| - 1];
    if n < |run| - 1 {
      PrefixIsRun(start, prefix, last.pre, n);
      assert prefix[..n] == run[..n];
    }
  }

  /** No payout lies between a pause and the next resume. */
  lemma NoPayoutWhilePaused(start: World, run: seq<Step>, end: World, id: U64, i: nat, j: nat)
    requires Initialized(start) && IsRun(start, run, end)
    requires i < j < |run| && IsPause(run[i], id) && IsPayout(run[j], id)
    ensures exists k :: i < k < j && IsResume(run[k], id)
  {
    if forall k :: i < k < j ==> !IsResume(run[k], id) {
      PausedBefore(start, run, end, id, i, j);
      PayoutWhileActive(start, run, end, id, j);
      assert false;
    }
  }

  lemma PausedBefore(start: World, run: seq<Step>, end: World, id: U64, i: nat, j: nat)
    requires Initialized(start) && IsRun(start, run, end)
    requires i < j < |run| && IsPause(run[i], id)
    requires forall k :: i < k < j ==> !IsResume(run[k], id)
    ensures id in run[j].pre.programs && run[j].pre.programs[id].status == Paused
  {
    PrefixIsRun(start, run, end, j);
    var prefix := run[..j];
    assert forall k :: i < k < |prefix| ==> prefix[k] == run[k];
    PausedUntilResumed(start, prefix, run[j].pre, id, i);
  }

  lemma PayoutWhileActive(start: World, run: seq<Step>, end: World, id: U64, j: nat)
    requires Initialized(start) && IsRun(start, run, end) && j < |run| && IsPayout(run[j], id)
    ensures id in run[j].pre.programs && run[j].pre.programs[id].status == Active
  {
    RunKeepsInv(start, run, end);
    StepMovesStatus(run[j], id);
  }
}
