/**
 The escrow contract as atomic operations on its storage, the token ledger and the event log:
 every operation checks its guards in the order of the code and then commits all its effects
 at once. `WaveFlowEscrow` is proved to behave like this under the host's rollback.
 */
module EscrowSpec {
  import opened Containers
  import opened Integers
  import opened Slugs
  import opened Token

  datatype ContractError =
    | AlreadyInitialized
    | NotInitialized
    | Unauthorized
    | InvalidRepo
    | ProgramNotFound
    | ContributorNotFound
    | ContributorAlreadyRegistered
    | InsufficientEscrow
    | ProgramIsPaused
    | PrAlreadyProcessed
    | MilestoneCapExceeded
    | InsufficientDeposit
    | InvalidRatio
    | Overflow
    | ProgramNotPaused

  /** A call returns a value, returns a contract error, or makes the host abort it. */
  datatype Outcome<+T> = Ok(value: T) | Err(error: ContractError) | Trap {
    predicate IsFailure() {
      !Ok?
    }

    function PropagateFailure<U>(): Outcome<U>
      requires !Ok?
    {
      if Err? then Err(error) else Trap
    }

    function Extract(): T
      requires Ok?
    {
      value
    }
  }

  /** A check that lets the call go on or ends it with an error. */
  datatype Guard = Pass | Refuse(error: ContractError) {
    predicate IsFailure() {
      !Pass?
    }

    function PropagateFailure<U>(): Outcome<U>
      requires !Pass?
    {
      Err(error)
    }
  }

  datatype Status = Active | Paused

  datatype Program = Program(
    maintainer: Address,
    repo: Text,
    ratio: I128,
    escrow: I128,
    cap: Option<I128>,
    spent: I128,
    status: Status)

  datatype Event =
    | ProgramCreated(id: U64, maintainer: Address, repo: Text, ratio: I128)
    | Funded(id: U64, amount: I128, newBalance: I128)
    | ContributorRegistered(id: U64, user: Text, address: Address)
    | MergeRecorded(id: U64, user: Text, pr: U64, points: U32, payout: I128)
    | ProgramPaused(id: U64)
    | ProgramResumed(id: U64)

  /**
   Everything a call can read or change. `contract` is the contract's own address; processed
   flags are only ever set to true, so they are a set.
   */
  datatype World = World(
    contract: Address,
    admin: Option<Address>,
    gateway: Option<Address>,
    token: Option<Address>,
    counter: Option<U64>,
    programs: map<U64, Program>,
    contributors: map<(U64, Text), Address>,
    processed: set<(U64, U64)>,
    ledger: Ledger,
    events: seq<Event>)

  const MIN_DEPOSIT: I128 := 1

  // ----- Guards -----

  function Require(condition: bool, error: ContractError): Guard {
    if condition then Pass else Refuse(error)
  }

  /** `require_auth`: the host aborts a call that the address has not authorised. */
  function RequireAuth(auths: set<Address>, a: Address): Outcome<Address> {
    if a in auths then Ok(a) else Trap
  }

  function OrErr<T>(o: Option<T>, error: ContractError): Outcome<T> {
    if o.Some? then Ok(o.value) else Err(error)
  }

  function OrTrap<T>(o: Option<T>): Outcome<T> {
    if o.Some? then Ok(o.value) else Trap
  }

  /** `checked_add`, `checked_sub` and `checked_mul` followed by `ok_or(Overflow)`. */
  function Checked(x: int): Outcome<I128> {
    if FitsI128(x) then Ok(x) else Err(Overflow)
  }

  function ReadProgram(w: World, id: U64): Outcome<Program> {
    OrErr(Lookup(w.programs, id), ProgramNotFound)
  }

  /** The program, provided the authorised caller is its maintainer. */
  function OwnedProgram(w: World, auths: set<Address>, id: U64, caller: Address): Outcome<Program> {
    var _ :- RequireAuth(auths, caller);
    var p :- ReadProgram(w, id);
    :- Require(p.maintainer == caller, Unauthorized);
    Ok(p)
  }

  /** `milestone_spent` after a payout, or the cap's refusal. */
  function SpentAfter(p: Program, payout: I128): Outcome<I128> {
    match p.cap
    case None => Ok(p.spent)
    case Some(cap) =>
      var spent :- Checked(p.spent + payout);
      :- Require(spent <= cap, MilestoneCapExceeded);
      Ok(spent)
  }

  // ----- Operations; the number is the returned id or amount, 0 for unit -----

  function Initialize(w: World, auths: set<Address>, admin: Address, gateway: Address, token: Address)
    : Outcome<(World, int)>
  {
    if w.admin.Some? then Err(AlreadyInitialized)
    else
      var _ :- RequireAuth(auths, admin);
      Ok((w.(admin := Some(admin), gateway := Some(gateway), token := Some(token), counter := Some(0)), 0))
  }

  function CreateProgram(w: World, auths: set<Address>, maintainer: Address, repo: Text, ratio: I128,
                         cap: Option<I128>): Outcome<(World, int)>
  {
    var _ :- RequireAuth(auths, maintainer);
    :- Require(ratio > 0, InvalidRatio);
    :- Require(ValidRepo(repo), InvalidRepo);
    var current: U64 := if w.counter.Some? then w.counter.value else 0;
    var id :- if current < U64_MAX then Ok(current + 1) else Trap;
    var p := Program(maintainer, repo, ratio, 0, cap, 0, Active);
    Ok((w.(counter := Some(id), programs := w.programs[id := p],
           events := w.events + [ProgramCreated(id, maintainer, repo, ratio)]), id))
  }

  function Fund(w: World, auths: set<Address>, id: U64, from: Address, amount: I128): Outcome<(World, int)> {
    var _ :- RequireAuth(auths, from);
    :- Require(amount >= MIN_DEPOSIT, InsufficientDeposit);
    var p :- OwnedProgram(w, auths, id, from);
    var _ :- OrErr(w.token, NotInitialized);
    var ledger :- OrTrap(Transfer(w.ledger, from, w.contract, amount));
    var balance :- Checked(p.escrow + amount);
    Ok((w.(programs := w.programs[id := p.(escrow := balance)], ledger := ledger,
           events := w.events + [Funded(id, amount, balance)]), 0))
  }

  function RegisterContributor(w: World, auths: set<Address>, id: U64, caller: Address, user: Text,
                               address: Address): Outcome<(World, int)>
  {
    var _ :- OwnedProgram(w, auths, id, caller);
    :- Require((id, user) !in w.contributors, ContributorAlreadyRegistered);
    Ok((w.(contributors := w.contributors[(id, user) := address],
           events := w.events + [ContributorRegistered(id, user, address)]), 0))
  }

  function RecordMerge(w: World, auths: set<Address>, gateway: Address, id: U64, user: Text, pr: U64,
                       points: U32): Outcome<(World, int)>
  {
    var _ :- RequireAuth(auths, gateway);
    var oracle :- OrErr(w.gateway, NotInitialized);
    :- Require(oracle == gateway, Unauthorized);
    :- Require(points != 0, InvalidRatio);
    :- Require((id, pr) !in w.processed, PrAlreadyProcessed);
    var p :- ReadProgram(w, id);
    :- Require(p.status != Paused, ProgramIsPaused);
    var recipient :- OrErr(Lookup(w.contributors, (id, user)), ContributorNotFound);
    var payout :- Checked(points * p.ratio);
    :- Require(payout <= p.escrow, InsufficientEscrow);
    var spent :- SpentAfter(p, payout);
    var _ :- OrErr(w.token, NotInitialized);
    var ledger :- OrTrap(Transfer(w.ledger, w.contract, recipient, payout));
    if !FitsI128(p.escrow - payout) then Err(Overflow)
    else
      Ok((w.(programs := w.programs[id := p.(escrow := p.escrow - payout, spent := spent)],
             processed := w.processed + {(id, pr)}, ledger := ledger,
             events := w.events + [MergeRecorded(id, user, pr, points, payout)]), payout))
  }

  function Pause(w: World, auths: set<Address>, id: U64, maintainer: Address): Outcome<(World, int)> {
    var p :- OwnedProgram(w, auths, id, maintainer);
    Ok((w.(programs := w.programs[id := p.(status := Paused)],
           events := w.events + [ProgramPaused(id)]), 0))
  }

  function Resume(w: World, auths: set<Address>, id: U64, maintainer: Address): Outcome<(World, int)> {
    var p :- OwnedProgram(w, auths, id, maintainer);
    Ok((w.(programs := w.programs[id := p.(status := Active)],
           events := w.events + [ProgramResumed(id)]), 0))
  }

  function SetRatio(w: World, auths: set<Address>, id: U64, maintainer: Address, ratio: I128)
    : Outcome<(World, int)>
  {
    var _ :- RequireAuth(auths, maintainer);
    :- Require(ratio > 0, InvalidRatio);
    var p :- OwnedProgram(w, auths, id, maintainer);
    Ok((w.(programs := w.programs[id := p.(ratio := ratio)]), 0))
  }

  function WithdrawRemaining(w: World, auths: set<Address>, id: U64, maintainer: Address): Outcome<(World, int)> {
    var p :- OwnedProgram(w, auths, id, maintainer);
    :- Require(p.status == Paused, ProgramNotPaused);
    if p.escrow <= 0 then Ok((w, 0))
    else
      var _ :- OrErr(w.token, NotInitialized);
      var ledger :- OrTrap(Transfer(w.ledger, w.contract, maintainer, p.escrow));
      Ok((w.(programs := w.programs[id := p.(escrow := 0)], ledger := ledger), p.escrow))
  }

  /** A transfer of the token made by somebody else, for instance into the contract. */
  function OutsideTransfer(w: World, auths: set<Address>, from: Address, to: Address, amount: I128)
    : Outcome<(World, int)>
  {
    var _ :- RequireAuth(auths, from);
    var ledger :- OrTrap(Transfer(w.ledger, from, to, amount));
    Ok((w.(ledger := ledger), 0))
  }

  // ----- Transactions -----

  datatype Call =
    | CallInitialize(admin: Address, gateway: Address, token: Address)
    | CallCreate(maintainer: Address, repo: Text, ratio: I128, cap: Option<I128>)
    | CallFund(id: U64, from: Address, amount: I128)
    | CallRegister(id: U64, caller: Address, user: Text, address: Address)
    | CallMerge(oracle: Address, id: U64, user: Text, pr: U64, points: U32)
    | CallPause(id: U64, caller: Address)
    | CallResume(id: U64, caller: Address)
    | CallSetRatio(id: U64, caller: Address, ratio: I128)
    | CallWithdraw(id: U64, caller: Address)
    | TokenTransfer(from: Address, to: Address, amount: I128)

  /** A call and the addresses that have authorised it. */
  datatype Tx = Tx(call: Call, auths: set<Address>)

  function Execute(w: World, tx: Tx): Outcome<(World, int)> {
    match tx.call
    case CallInitialize(admin, gateway, token) => Initialize(w, tx.auths, admin, gateway, token)
    case CallCreate(m, repo, ratio, cap) => CreateProgram(w, tx.auths, m, repo, ratio, cap)
    case CallFund(id, from, amount) => Fund(w, tx.auths, id, from, amount)
    case CallRegister(id, caller, user, address) => RegisterContributor(w, tx.auths, id, caller, user, address)
    case CallMerge(oracle, id, user, pr, points) => RecordMerge(w, tx.auths, oracle, id, user, pr, points)
    case CallPause(id, caller) => Pause(w, tx.auths, id, caller)
    case CallResume(id, caller) => Resume(w, tx.auths, id, caller)
    case CallSetRatio(id, caller, ratio) => SetRatio(w, tx.auths, id, caller, ratio)
    case CallWithdraw(id, caller) => WithdrawRemaining(w, tx.auths, id, caller)
    case TokenTransfer(from, to, amount) => OutsideTransfer(w, tx.auths, from, to, amount)
  }
}
