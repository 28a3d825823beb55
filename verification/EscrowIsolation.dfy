/**
 Programs share one pooled token balance but do not interfere: what happens to a program is
 decided by the calls made on it.
 */
module EscrowIsolation {
  import opened Containers
  import opened EscrowDrain
  import opened EscrowInvariant
  import opened EscrowSpec
  import opened EscrowSteps
  import opened Integers
  import opened Slugs
  import opened Token

  function Result(o: Outcome<(World, int)>): Outcome<int> {
    match o
    case Ok((_, v)) => Ok(v)
    case Err(e) => Err(e)
    case Trap => Trap
  }

  /** The state after a call, committed or rolled back. */
  function Apply(w: World, tx: Tx): World {
    match Execute(w, tx)
    case Ok((w', _)) => w'
    case _ => w
  }

  function StepOf(w: World, tx: Tx): Step {
    Step(w, tx, Result(Execute(w, tx)), Apply(w, tx))
  }

  lemma StepOfHasEffect(w: World, tx: Tx)
    ensures Effect(StepOf(w, tx))
  {
    StepEffect(StepOf(w, tx));
  }

  predicate IsOn(tx: Tx, id: U64) {
    match tx.call
    case CallInitialize(_, _, _) => false
    case CallCreate(_, _, _, _) => false
    case TokenTransfer(_, _, _) => false
    case _ => tx.call.id == id
  }

  /** Two states in which everything stored for one program is the same. */
  ghost predicate Agree(w1: World, w2: World, id: U64) {
    && w1.contract == w2.contract && w1.gateway == w2.gateway && w1.token == w2.token
    && id in w1.programs && id in w2.programs && w1.programs[id] == w2.programs[id]
    && (forall user :: Lookup(w1.contributors, (id, user)) == Lookup(w2.contributors, (id, user)))
    && (forall pr :: (id, pr) in w1.processed <==> (id, pr) in w2.processed)
  }

  /** The pooled balance never stands in the way of paying out of a program's escrow. */
  lemma EscrowCanBePaid(w: World, id: U64, to: Address, amount: I128)
    requires Inv(w) && id in w.programs && 0 <= amount <= w.programs[id].escrow
    ensures Transfer(w.ledger, w.contract, to, amount).Some?
  {
    EscrowWithinBalance(w, id);
    TransferSucceeds(w.ledger, w.contract, to, amount);
  }

  lemma SameMergeResult(w1: World, w2: World, id: U64, auths: set<Address>, oracle: Address, user: Text, pr: U64, points: U32)
    requires Inv(w1) && Inv(w2) && Agree(w1, w2, id)
    ensures Result(RecordMerge(w1, auths, oracle, id, user, pr, points))
         == Result(RecordMerge(w2, auths, oracle, id, user, pr, points))
  {
    var payout := points * w1.programs[id].ratio;
    assert Lookup(w2.contributors, (id, user)) == Lookup(w1.contributors, (id, user));
    if (id, user) in w1.contributors && payout <= w1.programs[id].escrow {
      assert payout >= 0;
      EscrowCanBePaid(w1, id, w1.contributors[(id, user)], payout);
      EscrowCanBePaid(w2, id, w1.contributors[(id, user)], payout);
    }
  }

  lemma AgreeAfterMerge(w1: World, w2: World, id: U64, auths: set<Address>, oracle: Address, user: Text, pr: U64, points: U32)
    requires Agree(w1, w2, id)
    requires RecordMerge(w1, auths, oracle, id, user, pr, points).Ok? && RecordMerge(w2, auths, oracle, id, user, pr, points).Ok?
    ensures Agree(RecordMerge(w1, auths, oracle, id, user, pr, points).value.0,
                  RecordMerge(w2, auths, oracle, id, user, pr, points).value.0, id)
  {
  }

  lemma SameMerge(w1: World, w2: World, id: U64, auths: set<Address>, oracle: Address, user: Text, pr: U64, points: U32)
    requires Inv(w1) && Inv(w2) && Agree(w1, w2, id)
    ensures var r1, r2 := RecordMerge(w1, auths, oracle, id, user, pr, points), RecordMerge(w2, auths, oracle, id, user, pr, points);
      Result(r1) == Result(r2) && (r1.Ok? ==> Agree(r1.value.0, r2.value.0, id))
  {
    SameMergeResult(w1, w2, id, auths, oracle, user, pr, points);
    if RecordMerge(w1, auths, oracle, id, user, pr, points).Ok? {
      AgreeAfterMerge(w1, w2, id, auths, oracle, user, pr, points);
    }
  }

  lemma SameWithdrawal(w1: World, w2: World, id: U64, auths: set<Address>, caller: Address)
    requires Inv(w1) && Inv(w2) && Agree(w1, w2, id)
    ensures var r1, r2 := WithdrawRemaining(w1, auths, id, caller), WithdrawRemaining(w2, auths, id, caller);
      Result(r1) == Result(r2) && (r1.Ok? ==> Agree(r1.value.0, r2.value.0, id))
  {
    EscrowCanBePaid(w1, id, caller, w1.programs[id].escrow);
    EscrowCanBePaid(w2, id, caller, w2.programs[id].escrow);
  }

  lemma SamePause(w1: World, w2: World, id: U64, auths: set<Address>, caller: Address)
    requires Agree(w1, w2, id)
    ensures var r1, r2 := Pause(w1, auths, id, caller), Pause(w2, auths, id, caller);
      Result(r1) == Result(r2) && (r1.Ok? ==> Agree(r1.value.0, r2.value.0, id))
    ensures var r1, r2 := Resume(w1, auths, id, caller), Resume(w2, auths, id, caller);
      Result(r1) == Result(r2) && (r1.Ok? ==> Agree(r1.value.0, r2.value.0, id))
  {
  }

  lemma SameRatio(w1: World, w2: World, id: U64, auths: set<Address>, caller: Address, ratio: I128)
    requires Agree(w1, w2, id)
    ensures var r1, r2 := SetRatio(w1, auths, id, caller, ratio), SetRatio(w2, auths, id, caller, ratio);
      Result(r1) == Result(r2) && (r1.Ok? ==> Agree(r1.value.0, r2.value.0, id))
  {
  }

  lemma SameRegistration(w1: World, w2: World, id: U64, auths: set<Address>, caller: Address, user: Text, address: Address)
    requires Agree(w1, w2, id)
    ensures var r1 := RegisterContributor(w1, auths, id, caller, user, address);
      var r2 := RegisterContributor(w2, auths, id, caller, user, address);
      Result(r1) == Result(r2) && (r1.Ok? ==> Agree(r1.value.0, r2.value.0, id))
  {
    assert Lookup(w1.contributors, (id, user)) == Lookup(w2.contributors, (id, user));
  }

  /** The funder can pay in both states or in neither. */
  predicate PaysAlike(w1: World, w2: World, from: Address, amount: I128) {
    amount <= BalanceOf(w1.ledger, from) <==> amount <= BalanceOf(w2.ledger, from)
  }

  /** A deposit also depends on the funder's own tokens, but on nothing else of other programs. */
  lemma SameFunding(w1: World, w2: World, id: U64, auths: set<Address>, from: Address, amount: I128)
    requires Inv(w1) && Inv(w2) && Agree(w1, w2, id) && w1.contract !in auths
    ensures var r1, r2 := Fund(w1, auths, id, from, amount), Fund(w2, auths, id, from, amount);
      && (PaysAlike(w1, w2, from, amount) ==> Result(r1) == Result(r2))
      && (Result(r1) == Result(r2) && r1.Ok? ==> Agree(r1.value.0, r2.value.0, id))
      && (from in auths && amount >= MIN_DEPOSIT && w1.programs[id].maintainer == from ==>
           (Result(r1) == Result(r2) <==> PaysAlike(w1, w2, from, amount)))
  {
    FundFailures(w1, auths, id, from, amount);
    FundFailures(w2, auths, id, from, amount);
    TransferSucceeds(w1.ledger, from, w1.contract, amount);
    TransferSucceeds(w2.ledger, from, w2.contract, amount);
  }

  /**
   Two reachable states that agree on a program give the same result for every call on it, and
   agree afterwards; for a deposit, provided the funder can pay in both or in neither.
   */
  lemma SameResult(w1: World, w2: World, id: U64, tx: Tx)
    requires Inv(w1) && Inv(w2) && Agree(w1, w2, id) && IsOn(tx, id) && w1.contract !in tx.auths
    requires tx.call.CallFund? ==> PaysAlike(w1, w2, tx.call.from, tx.call.amount)
    ensures var r1, r2 := Execute(w1, tx), Execute(w2, tx);
      Result(r1) == Result(r2) && (r1.Ok? ==> Agree(r1.value.0, r2.value.0, id))
  {
    match tx.call
    case CallMerge(oracle, _, user, pr, points) => SameMerge(w1, w2, id, tx.auths, oracle, user, pr, points);
    case CallWithdraw(_, caller) => SameWithdrawal(w1, w2, id, tx.auths, caller);
    case CallRegister(_, caller, user, address) => SameRegistration(w1, w2, id, tx.auths, caller, user, address);
    case CallPause(_, caller) => SamePause(w1, w2, id, tx.auths, caller);
    case CallResume(_, caller) => SamePause(w1, w2, id, tx.auths, caller);
    case CallSetRatio(_, caller, ratio) => SameRatio(w1, w2, id, tx.auths, caller, ratio);
    case CallFund(_, from, amount) => SameFunding(w1, w2, id, tx.auths, from, amount);
  }

  /** Equal results leave the states agreeing, whether the call was committed or rolled back. */
  lemma AgreeAfter(w1: World, w2: World, id: U64, tx: Tx)
    requires Agree(w1, w2, id) && Result(Execute(w1, tx)) == Result(Execute(w2, tx))
    requires Execute(w1, tx).Ok? ==> Agree(Execute(w1, tx).value.0, Execute(w2, tx).value.0, id)
    ensures Agree(Apply(w1, tx), Apply(w2, tx), id)
  {
  }

  /** A step on something else leaves everything stored for a program as it is. */
  lemma StepTouchesOnly(s: Step, id: U64)
    requires Effect(s) && DenseIds(s.pre) && s.pre.admin.Some? && id in s.pre.programs && !IsOn(s.tx, id)
    ensures Agree(s.pre, s.post, id)
  {
  }

  lemma OthersUntouched(w: World, id: U64, tx: Tx)
    requires Inv(w) && id in w.programs && !IsOn(tx, id)
    ensures Agree(w, Apply(w, tx), id)
  {
    StepOfHasEffect(w, tx);
    StepTouchesOnly(StepOf(w, tx), id);
  }

  // ----- Whole runs -----

  function ApplyAll(w: World, txs: seq<Tx>): World
    decreases |txs|
  {
    if txs == [] then w else ApplyAll(Apply(w, txs[0]), txs[1..])
  }

  /** The results of the calls on one program, in order. */
  function ResultsOn(w: World, txs: seq<Tx>, id: U64): seq<Outcome<int>>
    decreases |txs|
  {
    if txs == [] then []
    else (if IsOn(txs[0], id) then [Result(Execute(w, txs[0]))] else []) + ResultsOn(Apply(w, txs[0]), txs[1..], id)
  }

  /** Only the calls on one program. */
  function Only(txs: seq<Tx>, id: U64): seq<Tx> {
    if txs == [] then [] else (if IsOn(txs[0], id) then [txs[0]] else []) + Only(txs[1..], id)
  }

  /** Each deposit on a program finds its funder able to pay in both sequences of calls or in neither. */
  predicate DepositsAlike(w1: World, w2: World, txs: seq<Tx>, id: U64)
    decreases |txs|
  {
    txs == [] ||
    var tx := txs[0];
    && (IsOn(tx, id) && tx.call.CallFund? ==> PaysAlike(w1, w2, tx.call.from, tx.call.amount))
    && DepositsAlike(Apply(w1, tx), if IsOn(tx, id) then Apply(w2, tx) else w2, txs[1..], id)
  }

  /**
   Non-interference: leaving out every call on other programs, every outside transfer and every
   creation changes no result on this program and nothing stored for it, as long as the funders
   of this program can make the same deposits.
   */
  lemma {:induction false} NonInterference(w1: World, w2: World, id: U64, txs: seq<Tx>)
    requires Inv(w1) && Inv(w2) && Agree(w1, w2, id)
    requires forall tx :: tx in txs ==> w1.contract !in tx.auths
    requires DepositsAlike(w1, w2, txs, id)
    ensures ResultsOn(w1, txs, id) == ResultsOn(w2, Only(txs, id), id)
    ensures Agree(ApplyAll(w1, txs), ApplyAll(w2, Only(txs, id)), id)
    decreases |txs|
  {
    if txs != [] {
      var tx, rest := txs[0], txs[1..];
      ApplyKeepsInv(w1, tx);
      if IsOn(tx, id) {
        ApplyKeepsInv(w2, tx);
        SameResult(w1, w2, id, tx);
        AgreeAfter(w1, w2, id, tx);
        NonInterference(Apply(w1, tx), Apply(w2, tx), id, rest);
        assert Only(txs, id)[0] == tx && Only(txs, id)[1..] == Only(rest, id);
      } else {
        OthersUntouched(w1, id, tx);
        NonInterference(Apply(w1, tx), w2, id, rest);
        assert Only(txs, id) == Only(rest, id);
      }
    }
  }

  lemma ApplyKeepsInv(w: World, tx: Tx)
    requires Inv(w) && w.contract !in tx.auths
    ensures Inv(Apply(w, tx)) && Apply(w, tx).contract == w.contract
  {
    StepOfHasEffect(w, tx);
    StepKeepsInv(StepOf(w, tx));
    StepBalances(StepOf(w, tx));
  }
}
