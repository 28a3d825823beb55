/**
 What every entry point of the contract answers: for each success, each error code and each abort, the
 states, callers and arguments that lead to it, from the state alone.
 */
module EscrowAnswers {
  import opened Containers
  import opened EscrowDrain
  import opened EscrowInvariant
  import opened EscrowRuns
  import opened EscrowSpec
  import opened EscrowSteps
  import opened Integers
  import opened Slugs
  import opened Token

  type Answer = Outcome<(World, int)>

  // ----- Setting up -----

  /** `initialize` succeeds exactly for the first caller who signs as the admin it names. */
  lemma InitializeAnswers(w: World, auths: set<Address>, admin: Address, gateway: Address, token: Address)
    ensures var r := Initialize(w, auths, admin, gateway, token);
      && (r.Ok? <==> w.admin.None? && admin in auths)
      && (r == Err(AlreadyInitialized) <==> w.admin.Some?)
      && (r == Trap <==> w.admin.None? && admin !in auths)
  {
  }

  /** On a fresh deployment the admin's signature is enough, and every run theorem may start there. */
  lemma DeploymentStarts(w: World, auths: set<Address>, admin: Address, gateway: Address, token: Address)
    requires Deployed(w) && admin in auths
    ensures var r := Initialize(w, auths, admin, gateway, token);
      && r.Ok? && Initialized(r.value.0) && Inv(r.value.0)
      && r.value.0.admin == Some(admin) && r.value.0.gateway == Some(gateway) && r.value.0.token == Some(token)
      && r.value.0.ledger == w.ledger && r.value.0.contract == w.contract
  {
    var w' := Initialize(w, auths, admin, gateway, token).value.0;
    RunKeepsInv(w', [], w');
  }

  lemma CreateAnswers(w: World, auths: set<Address>, m: Address, repo: Text, ratio: I128, cap: Option<I128>)
    ensures var r := CreateProgram(w, auths, m, repo, ratio, cap);
      var full := w.counter == Some(U64_MAX);
      && (r.Ok? <==> m in auths && ratio > 0 && ValidRepo(repo) && !full)
      && (r == Err(InvalidRatio) <==> m in auths && ratio <= 0)
      && (r == Err(InvalidRepo) <==> m in auths && ratio > 0 && !ValidRepo(repo))
      && (r == Trap <==> m !in auths || (ratio > 0 && ValidRepo(repo) && full))
  {
  }

  // ----- Operations of a maintainer -----

  /** The three refusals every operation of a maintainer shares, once it has come to its program. */
  predicate KnowsOwner(r: Answer, w: World, auths: set<Address>, id: U64, caller: Address, reached: bool) {
    && (r == Err(ProgramNotFound) <==> caller in auths && reached && id !in w.programs)
    && (r == Err(Unauthorized) <==> caller in auths && reached && id in w.programs && w.programs[id].maintainer != caller)
    && (caller !in auths ==> r == Trap)
  }

  predicate Maintains(w: World, auths: set<Address>, id: U64, caller: Address) {
    caller in auths && id in w.programs && w.programs[id].maintainer == caller
  }

  lemma RegisterAnswers(w: World, auths: set<Address>, id: U64, caller: Address, user: Text, address: Address)
    ensures var r := RegisterContributor(w, auths, id, caller, user, address);
      && KnowsOwner(r, w, auths, id, caller, true)
      && (r.Ok? <==> Maintains(w, auths, id, caller) && (id, user) !in w.contributors)
      && (r == Err(ContributorAlreadyRegistered) <==> Maintains(w, auths, id, caller) && (id, user) in w.contributors)
      && (r == Trap <==> caller !in auths)
  {
  }

  /** A maintainer may pause and resume at any time, whatever the status is. */
  lemma PauseAnswers(w: World, auths: set<Address>, id: U64, caller: Address)
    ensures var r := Pause(w, auths, id, caller);
      && KnowsOwner(r, w, auths, id, caller, true)
      && (r.Ok? <==> Maintains(w, auths, id, caller)) && (r == Trap <==> caller !in auths)
    ensures var r := Resume(w, auths, id, caller);
      && KnowsOwner(r, w, auths, id, caller, true)
      && (r.Ok? <==> Maintains(w, auths, id, caller)) && (r == Trap <==> caller !in auths)
  {
  }

  lemma SetRatioAnswers(w: World, auths: set<Address>, id: U64, caller: Address, ratio: I128)
    ensures var r := SetRatio(w, auths, id, caller, ratio);
      && KnowsOwner(r, w, auths, id, caller, ratio > 0)
      && (r.Ok? <==> Maintains(w, auths, id, caller) && ratio > 0)
      && (r == Err(InvalidRatio) <==> caller in auths && ratio <= 0)
      && (r == Trap <==> caller !in auths)
  {
  }

  /** The refusals of a deposit in every state; without a token only after everything else is in order. */
  lemma FundRefusals(w: World, auths: set<Address>, id: U64, from: Address, amount: I128)
    ensures var r := Fund(w, auths, id, from, amount);
      && KnowsOwner(r, w, auths, id, from, amount >= 1)
      && (r == Err(InsufficientDeposit) <==> from in auths && amount < 1)
      && (r == Err(NotInitialized) <==> Maintains(w, auths, id, from) && amount >= 1 && w.token.None?)
  {
  }

  /** All answers to a deposit in a reachable state. */
  lemma FundAnswers(w: World, auths: set<Address>, id: U64, from: Address, amount: I128)
    requires Inv(w) && w.contract !in auths
    ensures var r := Fund(w, auths, id, from, amount);
      && KnowsOwner(r, w, auths, id, from, amount >= 1)
      && (r.Ok? <==> Maintains(w, auths, id, from) && 1 <= amount <= BalanceOf(w.ledger, from))
      && (r == Err(InsufficientDeposit) <==> from in auths && amount < 1)
      && (r == Trap <==> from !in auths || (Maintains(w, auths, id, from) && amount > BalanceOf(w.ledger, from) && amount >= 1))
  {
    FundFailures(w, auths, id, from, amount);
  }

  lemma WithdrawRefusals(w: World, auths: set<Address>, id: U64, caller: Address)
    ensures var r := WithdrawRemaining(w, auths, id, caller);
      && KnowsOwner(r, w, auths, id, caller, true)
      && (r == Err(ProgramNotPaused) <==> Maintains(w, auths, id, caller) && w.programs[id].status == Active)
      && (r == Err(NotInitialized) <==>
           Maintains(w, auths, id, caller) && w.programs[id].status == Paused && w.programs[id].escrow > 0 && w.token.None?)
  {
  }

  lemma WithdrawAnswers(w: World, auths: set<Address>, id: U64, caller: Address)
    requires Inv(w)
    ensures var r := WithdrawRemaining(w, auths, id, caller);
      && KnowsOwner(r, w, auths, id, caller, true)
      && (r.Ok? <==> Maintains(w, auths, id, caller) && w.programs[id].status == Paused)
      && (r == Err(ProgramNotPaused) <==> Maintains(w, auths, id, caller) && w.programs[id].status == Active)
      && (r == Trap <==> caller !in auths)
  {
    WithdrawSucceedsIff(w, auths, id, caller);
  }

  // ----- Merges -----

  /** Signed by the gateway the contract knows. */
  predicate FromGateway(w: World, auths: set<Address>, oracle: Address) {
    oracle in auths && w.gateway == Some(oracle)
  }

  /** The refusals of a merge before any amount is computed, in every state. */
  lemma MergeRefusals(w: World, auths: set<Address>, oracle: Address, id: U64, user: Text, pr: U64, points: U32)
    ensures var r := RecordMerge(w, auths, oracle, id, user, pr, points);
      var asked := FromGateway(w, auths, oracle) && points > 0;
      var unpaid := asked && (id, pr) !in w.processed;
      && (oracle !in auths ==> r == Trap)
      && (oracle in auths && w.gateway.None? ==> r == Err(NotInitialized))
      && (r == Err(Unauthorized) <==> oracle in auths && w.gateway.Some? && w.gateway != Some(oracle))
      && (r == Err(InvalidRatio) <==> FromGateway(w, auths, oracle) && points == 0)
      && (r == Err(PrAlreadyProcessed) <==> asked && (id, pr) in w.processed)
      && (r == Err(ProgramNotFound) <==> unpaid && id !in w.programs)
      && (r == Err(ProgramIsPaused) <==> unpaid && id in w.programs && w.programs[id].status == Paused)
      && (r == Err(ContributorNotFound) <==>
           unpaid && id in w.programs && w.programs[id].status == Active && (id, user) !in w.contributors)
  {
  }

  /** A merge nobody objects to, so that only the amount decides. */
  predicate Unobjected(w: World, auths: set<Address>, oracle: Address, id: U64, user: Text, pr: U64, points: U32) {
    && FromGateway(w, auths, oracle) && points > 0 && (id, pr) !in w.processed
    && id in w.programs && w.programs[id].status == Active && (id, user) in w.contributors
  }

  /** What the amount decides, in a reachable state: escrow first, then the cap. */
  lemma MergeAmounts(w: World, auths: set<Address>, oracle: Address, id: U64, user: Text, pr: U64, points: U32)
    requires Inv(w) && Unobjected(w, auths, oracle, id, user, pr, points)
    ensures var r, p := RecordMerge(w, auths, oracle, id, user, pr, points), w.programs[id];
      var payout := points * p.ratio;
      && (r == Err(InsufficientEscrow) <==> p.escrow < payout <= I128_MAX)
      && (r == Err(MilestoneCapExceeded) <==>
           payout <= p.escrow && p.cap.Some? && p.cap.value < p.spent + payout <= I128_MAX)
      && (r == Err(Overflow) <==> payout > I128_MAX || (payout <= p.escrow && p.cap.Some? && p.spent + payout > I128_MAX))
      && (r.Ok? <==> payout <= p.escrow && (p.cap.Some? ==> p.spent + payout <= p.cap.value))
  {
    MergeFailures(w, auths, oracle, id, user, pr, points);
    assert points * w.programs[id].ratio > 0;
  }

  /** While a program is paused, every merge of an unpaid PR the gateway signs is answered so. */
  lemma PausedMergeRefused(start: World, run: seq<Step>, end: World, id: U64, i: nat, auths: set<Address>, oracle: Address,
                           user: Text, pr: U64, points: U32)
    requires Initialized(start) && IsRun(start, run, end)
    requires i < |run| && IsPause(run[i], id) && forall k :: i < k < |run| ==> !IsResume(run[k], id)
    requires FromGateway(end, auths, oracle) && points > 0 && (id, pr) !in end.processed
    ensures RecordMerge(end, auths, oracle, id, user, pr, points) == Err(ProgramIsPaused)
  {
    PausedUntilResumed(start, run, end, id, i);
    MergeRefusals(end, auths, oracle, id, user, pr, points);
  }

  // ----- Other transfers -----

  lemma OutsideTransferAnswers(w: World, auths: set<Address>, from: Address, to: Address, amount: I128)
    requires ValidLedger(w.ledger)
    ensures var r := OutsideTransfer(w, auths, from, to, amount);
      && (r.Ok? <==> from in auths && 0 <= amount <= BalanceOf(w.ledger, from))
      && (r == Trap <==> !r.Ok?)
  {
    TransferSucceeds(w.ledger, from, to, amount);
  }
}
