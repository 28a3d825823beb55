/**
 What holds of the contract in every state it can reach once `initialize` has been the first
 successful call, and that every transaction keeps it.
 */
module EscrowInvariant {
  import opened Containers
  import opened EscrowSpec
  import opened EscrowSteps
  import opened Integers
  import opened Token

  function EscrowOf(p: Program): int { p.escrow }

  ghost function TotalEscrow(w: World): int {
    Sum(w.programs, EscrowOf)
  }

  /** Ids are dense: the programs are exactly 1..counter. */
  predicate DenseIds(w: World) {
    w.counter.Some? && forall id: U64 :: id in w.programs <==> 1 <= id <= w.counter.value
  }

  predicate ProgramOk(w: World, p: Program) {
    && p.ratio > 0
    && p.escrow >= 0
    && p.maintainer != w.contract
    && 0 <= p.spent
    && (p.cap.None? ==> p.spent == 0)
    && (p.cap.Some? ==> p.spent <= Max(p.cap.value, 0))
  }

  ghost predicate Inv(w: World) {
    && w.admin.Some? && w.gateway.Some? && w.token.Some?
    && DenseIds(w)
    && (forall id :: id in w.programs ==> ProgramOk(w, w.programs[id]))
    && (forall k :: k in w.contributors ==> k.0 in w.programs)
    && (forall k :: k in w.processed ==> k.0 in w.programs)
    && ValidLedger(w.ledger)
    && TotalEscrow(w) <= BalanceOf(w.ledger, w.contract)
  }

  /** No escrow exceeds what the contract holds. */
  lemma EscrowWithinBalance(w: World, id: U64)
    requires Inv(w) && id in w.programs
    ensures w.programs[id].escrow <= TotalEscrow(w) <= BalanceOf(w.ledger, w.contract)
  {
    SumAtLeast(w.programs, EscrowOf, id);
  }

  /** A deposit the ledger accepts cannot overflow the escrow. */
  lemma FundFits(w: World, id: U64, from: Address, amount: I128)
    requires Inv(w) && id in w.programs && from != w.contract
    requires Transfer(w.ledger, from, w.contract, amount).Some?
    ensures FitsI128(w.programs[id].escrow + amount)
  {
    EscrowWithinBalance(w, id);
    PairWithinSupply(w.ledger, from, w.contract);
  }

  /** Replacing one record changes the total by the change of that record. */
  lemma TotalAfter(w: World, id: U64, p: Program)
    ensures Sum(w.programs[id := p], EscrowOf)
         == TotalEscrow(w) + p.escrow - if id in w.programs then w.programs[id].escrow else 0
  {
    SumUpdate(w.programs, EscrowOf, id, p);
  }

  /** The parts of the invariant that do not add up balances. */
  predicate RecordsOk(w: World) {
    && w.admin.Some? && w.gateway.Some? && w.token.Some?
    && DenseIds(w)
    && (forall id :: id in w.programs ==> ProgramOk(w, w.programs[id]))
    && (forall k :: k in w.contributors ==> k.0 in w.programs)
    && (forall k :: k in w.processed ==> k.0 in w.programs)
  }

  /** The contract does not sign a step; for a merge it would make no difference. */
  predicate Unsigned(s: Step) {
    s.pre.contract !in s.tx.auths || s.tx.call.CallMerge?
  }

  lemma CreateKeepsRecords(s: Step)
    requires Effect(s) && RecordsOk(s.pre) && Unsigned(s) && s.tx.call.CallCreate?
    ensures RecordsOk(s.post)
  {
  }

  lemma MergeKeepsRecords(s: Step)
    requires Effect(s) && RecordsOk(s.pre) && s.tx.call.CallMerge?
    ensures RecordsOk(s.post)
  {
    if s.out.Ok? {
      assert s.tx.call.points * s.pre.programs[s.tx.call.id].ratio > 0;
    }
  }

  lemma StepKeepsRecords(s: Step)
    requires Effect(s) && RecordsOk(s.pre) && Unsigned(s)
    ensures RecordsOk(s.post)
  {
    match s.tx.call
    case CallCreate(_, _, _, _) => CreateKeepsRecords(s);
    case CallMerge(_, _, _, _, _) => MergeKeepsRecords(s);
    case _ =>
  }

  lemma StepKeepsLedger(s: Step)
    requires Effect(s) && ValidLedger(s.pre.ledger)
    ensures ValidLedger(s.post.ledger)
  {
    if s.out.Ok? {
      match s.tx.call
      case CallFund(_, from, amount) => TransferConserves(s.pre.ledger, from, s.pre.contract, amount);
      case CallMerge(_, id, user, _, _) =>
        TransferConserves(s.pre.ledger, s.pre.contract, s.pre.contributors[(id, user)], s.out.value);
      case CallWithdraw(_, caller) =>
        if s.out.value != 0 {
          TransferConserves(s.pre.ledger, s.pre.contract, caller, s.out.value);
        }
      case TokenTransfer(from, to, amount) => TransferConserves(s.pre.ledger, from, to, amount);
      case _ =>
    }
  }

  function Recipient(s: Step): Address
    requires s.tx.call.CallMerge?
  {
    var key := (s.tx.call.id, s.tx.call.user);
    if key in s.pre.contributors then s.pre.contributors[key] else s.pre.contract
  }

  /** Tokens that reach the contract without being credited to a program. */
  function Uncredited(s: Step): int {
    if !s.out.Ok? then 0
    else match s.tx.call {
      case TokenTransfer(_, to, amount) => if to == s.pre.contract then amount else 0
      case CallMerge(_, _, _, _, _) => if Recipient(s) == s.pre.contract then s.out.value else 0
      case _ => 0
    }
  }

  /** The surplus of the contract's tokens over the total escrow. */
  ghost function Surplus(w: World): int {
    BalanceOf(w.ledger, w.contract) - TotalEscrow(w)
  }

  lemma PaymentBalances(s: Step)
    requires Effect(s) && RecordsOk(s.pre) && Unsigned(s) && s.out.Ok?
    requires s.tx.call.CallFund? || s.tx.call.CallMerge? || s.tx.call.CallWithdraw?
    ensures Surplus(s.post) == Surplus(s.pre) + Uncredited(s)
    ensures Uncredited(s) >= 0 && s.post.contract == s.pre.contract
  {
    TotalAfter(s.pre, s.tx.call.id, s.post.programs[s.tx.call.id]);
  }

  lemma RecordBalances(s: Step)
    requires Effect(s) && RecordsOk(s.pre) && s.out.Ok?
    requires s.tx.call.CallCreate? || s.tx.call.CallPause? || s.tx.call.CallResume? || s.tx.call.CallSetRatio?
    ensures Surplus(s.post) == Surplus(s.pre) && s.post.contract == s.pre.contract
  {
    var id := if s.tx.call.CallCreate? then s.out.value else s.tx.call.id;
    TotalAfter(s.pre, id, s.post.programs[id]);
  }

  /** The contract's tokens and the total escrow move together, except for uncredited tokens. */
  lemma StepBalances(s: Step)
    requires Effect(s) && RecordsOk(s.pre) && Unsigned(s)
    ensures BalanceOf(s.post.ledger, s.pre.contract) - TotalEscrow(s.post)
         == BalanceOf(s.pre.ledger, s.pre.contract) - TotalEscrow(s.pre) + Uncredited(s)
    ensures Uncredited(s) >= 0 && s.post.contract == s.pre.contract
  {
    if s.out.Ok? {
      match s.tx.call
      case CallFund(_, _, _) => PaymentBalances(s);
      case CallMerge(_, _, _, _, _) => PaymentBalances(s);
      case CallWithdraw(_, _) => PaymentBalances(s);
      case CallInitialize(_, _, _) =>
      case CallRegister(_, _, _, _) =>
      case TokenTransfer(_, _, _) =>
      case _ => RecordBalances(s);
    }
  }

  /** Every transaction the contract itself has not signed keeps the invariant. */
  lemma StepKeepsInv(s: Step)
    requires Effect(s) && Inv(s.pre) && Unsigned(s)
    ensures Inv(s.post)
  {
    StepKeepsRecords(s);
    StepKeepsLedger(s);
    StepBalances(s);
  }

  /** The same for a successful call. */
  lemma CallKeepsInv(w: World, tx: Tx)
    requires Inv(w) && Execute(w, tx).Ok? && (w.contract !in tx.auths || tx.call.CallMerge?)
    ensures Inv(Execute(w, tx).value.0)
  {
    var (w', v) := Execute(w, tx).value;
    var s := Step(w, tx, Ok(v), w');
    StepEffect(s);
    StepKeepsInv(s);
  }
}
