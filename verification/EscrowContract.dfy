/**
 The contract as it is written: methods read storage, change fields one statement at a time,
 move tokens and publish events. `fund` and `record_merge` move tokens before their last fallible
 statement. For `fund` that statement can fail in states no run reaches, so `InvokeFund` plays
 the host and restores everything when the call does not succeed.
 */
module EscrowContract {
  import opened Containers
  import opened EscrowDrain
  import opened EscrowInvariant
  import opened EscrowSpec
  import opened Integers
  import opened Slugs
  import opened Token

  /** What a caller sees of an atomic operation: its effects on success, no effect otherwise. */
  predicate Committed(pre: World, post: World, r: Outcome<int>, spec: Outcome<(World, int)>) {
    match spec
    case Ok((w, v)) => post == w && r == Ok(v)
    case Err(e) => post == pre && r == Err(e)
    case Trap => post == pre && r == Trap
  }

  /** The same, but a failed call may leave the state half changed. */
  predicate CommittedOnSuccess(post: World, r: Outcome<int>, spec: Outcome<(World, int)>) {
    match spec
    case Ok((w, v)) => post == w && r == Ok(v)
    case Err(e) => r == Err(e)
    case Trap => r == Trap
  }

  lemma FundNeverOverflows(w: World, auths: set<Address>, id: U64, from: Address, amount: I128)
    ensures Inv(w) && w.contract !in auths ==> Fund(w, auths, id, from, amount) != Err(Overflow)
  {
    if Inv(w) && w.contract !in auths {
      FundFailures(w, auths, id, from, amount);
    }
  }

  class WaveFlowEscrow {
    const contract: Address
    var admin: Option<Address>
    var gateway: Option<Address>
    var token: Option<Address>
    var counter: Option<U64>
    var programs: map<U64, Program>
    var contributors: map<(U64, Text), Address>
    var processed: set<(U64, U64)>
    var ledger: Ledger
    var events: seq<Event>

    function State(): World
      reads this
    {
      World(contract, admin, gateway, token, counter, programs, contributors, processed, ledger, events)
    }

    /** A freshly deployed contract over an existing token ledger. */
    constructor (contract: Address, ledger: Ledger)
      ensures State() == World(contract, None, None, None, None, map[], map[], {}, ledger, [])
    {
      this.contract := contract;
      admin, gateway, token, counter := None, None, None, None;
      programs, contributors, processed := map[], map[], {};
      this.ledger := ledger;
      events := [];
    }

    /** The host's rollback: storage, tokens and events go back to a snapshot. */
    method Restore(w: World)
      requires w.contract == contract
      modifies this
      ensures State() == w
    {
      admin, gateway, token, counter := w.admin, w.gateway, w.token, w.counter;
      programs, contributors, processed := w.programs, w.contributors, w.processed;
      ledger, events := w.ledger, w.events;
    }

    /** The token client's `transfer`; a refusal aborts the call. */
    method TokenTransfer(from: Address, to: Address, amount: I128) returns (r: Outcome<()>)
      modifies this`ledger
      ensures r == match Transfer(old(ledger), from, to, amount) { case None => Trap case Some(_) => Ok(()) }
      ensures Transfer(old(ledger), from, to, amount) == if r.Ok? then Some(ledger) else None
      ensures !r.Ok? ==> ledger == old(ledger)
    {
      var moved := Transfer(ledger, from, to, amount);
      if moved.None? {
        return Trap;
      }
      ledger := moved.value;
      return Ok(());
    }

    /** Programs number fewer than `2^64 - 1`; the model aborts where the counter could not go on. */
    method NextProgramId() returns (r: Outcome<U64>)
      modifies this`counter
      ensures r.Ok? ==> counter == Some(r.value)
      ensures !r.Ok? ==> counter == old(counter)
      ensures var current := if old(counter).Some? then old(counter).value else 0;
        r == if current < U64_MAX then Ok(current + 1) else Trap
    {
      var current := if counter.Some? then counter.value else 0;
      if current == U64_MAX {
        return Trap;
      }
      counter := Some(current + 1);
      return Ok(current + 1);
    }

    method InitializeCall(auths: set<Address>, admin: Address, gateway: Address, token: Address)
      returns (r: Outcome<int>)
      modifies this
      ensures Committed(old(State()), State(), r, Initialize(old(State()), auths, admin, gateway, token))
    {
      if this.admin.Some? {
        return Err(AlreadyInitialized);
      }
      var _ :- RequireAuth(auths, admin);
      this.admin := Some(admin);
      this.gateway := Some(gateway);
      this.token := Some(token);
      this.counter := Some(0);
      return Ok(0);
    }

    method CreateProgramCall(auths: set<Address>, maintainer: Address, repo: Text, ratio: I128, cap: Option<I128>)
      returns (r: Outcome<int>)
      modifies this
      ensures Committed(old(State()), State(), r, CreateProgram(old(State()), auths, maintainer, repo, ratio, cap))
    {
      var _ :- RequireAuth(auths, maintainer);
      if ratio <= 0 {
        return Err(InvalidRatio);
      }
      :- Require(ValidRepo(repo), InvalidRepo);
      var id :- NextProgramId();
      programs := programs[id := Program(maintainer, repo, ratio, 0, cap, 0, Active)];
      events := events + [ProgramCreated(id, maintainer, repo, ratio)];
      return Ok(id);
    }

    /**
     `fund` without the host. Started in a reachable state, it changes nothing when it fails,
     although tokens move before its last check: that check cannot fail.
     */
    method FundStatements(auths: set<Address>, id: U64, from: Address, amount: I128)
      returns (r: Outcome<int>)
      modifies this
      ensures CommittedOnSuccess(State(), r, Fund(old(State()), auths, id, from, amount))
      ensures old(Inv(State())) && contract !in auths && !r.Ok? ==> State() == old(State())
    {
      var _ :- RequireAuth(auths, from);
      if amount < MIN_DEPOSIT {
        return Err(InsufficientDeposit);
      }
      var program :- OrErr(Lookup(programs, id), ProgramNotFound);
      if program.maintainer != from {
        return Err(Unauthorized);
      }
      var _ :- OrErr(token, NotInitialized);
      var _ :- TokenTransfer(from, contract, amount);
      FundNeverOverflows(old(State()), auths, id, from, amount);
      var balance :- Checked(program.escrow + amount);
      program := program.(escrow := balance);
      programs := programs[id := program];
      events := events + [Funded(id, amount, program.escrow)];
      return Ok(0);
    }

    method InvokeFund(auths: set<Address>, id: U64, from: Address, amount: I128) returns (r: Outcome<int>)
      modifies this
      ensures Committed(old(State()), State(), r, Fund(old(State()), auths, id, from, amount))
    {
      var before := State();
      r := FundStatements(auths, id, from, amount);
      if !r.Ok? {
        Restore(before);
      }
    }

    method RegisterContributorCall(auths: set<Address>, id: U64, caller: Address, user: Text, address: Address)
      returns (r: Outcome<int>)
      modifies this
      ensures Committed(old(State()), State(), r, RegisterContributor(old(State()), auths, id, caller, user, address))
    {
      var _ :- RequireAuth(auths, caller);
      var program :- OrErr(Lookup(programs, id), ProgramNotFound);
      if program.maintainer != caller {
        return Err(Unauthorized);
      }
      if (id, user) in contributors {
        return Err(ContributorAlreadyRegistered);
      }
      contributors := contributors[(id, user) := address];
      events := events + [ContributorRegistered(id, user, address)];
      return Ok(0);
    }

    /**
     The cap's part of `record_merge`: an uncapped program is left alone; a capped total grows by
     the payout and stays within the cap, or the payout is refused.
     */
    method ChargeCap(program: Program, payout: I128) returns (r: Outcome<Program>)
      ensures program.cap.None? ==> r == Ok(program)
      ensures r.Ok? && program.cap.Some? ==>
        FitsI128(program.spent + payout) && r.value == program.(spent := program.spent + payout) && r.value.spent <= program.cap.value
      ensures r == Err(Overflow) <==> program.cap.Some? && !FitsI128(program.spent + payout)
      ensures r == Err(MilestoneCapExceeded) <==>
        program.cap.Some? && FitsI128(program.spent + payout) && program.cap.value < program.spent + payout
      ensures r.Ok? || r == Err(Overflow) || r == Err(MilestoneCapExceeded)
    {
      if program.cap.Some? {
        var spent :- Checked(program.spent + payout);
        if spent > program.cap.value {
          return Err(MilestoneCapExceeded);
        }
        return Ok(program.(spent := spent));
      }
      return Ok(program);
    }

    /** The last part of `record_merge`: the tokens leave, then the record, the flag and the event are written. */
    method PayContributor(charged: Program, id: U64, user: Text, pr: U64, points: U32, recipient: Address, payout: I128)
      returns (r: Outcome<int>)
      modifies this
      ensures var w := old(State());
        var moved := Transfer(w.ledger, contract, recipient, payout);
        if token.Some? && moved.Some? && FitsI128(charged.escrow - payout) then
          && r == Ok(payout)
          && State() == w.(programs := w.programs[id := charged.(escrow := charged.escrow - payout)],
                           processed := w.processed + {(id, pr)}, ledger := moved.value,
                           events := w.events + [MergeRecorded(id, user, pr, points, payout)])
        else
          && r == (if token.None? then Err(NotInitialized) else if moved.None? then Trap else Err(Overflow))
          && State() == if r == Err(Overflow) then w.(ledger := moved.value) else w
    {
      var program := charged;
      var _ :- OrErr(token, NotInitialized);
      var _ :- TokenTransfer(contract, recipient, payout);
      if !FitsI128(program.escrow - payout) {
        return Err(Overflow);
      }
      program := program.(escrow := program.escrow - payout);
      programs := programs[id := program];
      processed := processed + {(id, pr)};
      events := events + [MergeRecorded(id, user, pr, points, payout)];
      return Ok(payout);
    }

    /**
     `record_merge` moves tokens before its last check, but once a transfer has succeeded that
     check cannot fail, in any state: a failure always comes before the tokens move.
     */
    method RecordMergeCall(auths: set<Address>, oracle: Address, id: U64, user: Text, pr: U64, points: U32)
      returns (r: Outcome<int>)
      modifies this
      ensures Committed(old(State()), State(), r, RecordMerge(old(State()), auths, oracle, id, user, pr, points))
    {
      var _ :- RequireAuth(auths, oracle);
      var authorised :- OrErr(gateway, NotInitialized);
      if authorised != oracle {
        return Err(Unauthorized);
      }
      if points == 0 {
        return Err(InvalidRatio);
      }
      if (id, pr) in processed {
        return Err(PrAlreadyProcessed);
      }
      var program :- OrErr(Lookup(programs, id), ProgramNotFound);
      if program.status == Paused {
        return Err(ProgramIsPaused);
      }
      var recipient :- OrErr(Lookup(contributors, (id, user)), ContributorNotFound);
      var payout :- Checked(points * program.ratio);
      if program.escrow < payout {
        return Err(InsufficientEscrow);
      }
      ghost var uncharged := program;
      program :- ChargeCap(program, payout);
      assert program == uncharged.(spent := program.spent) && SpentAfter(uncharged, payout) == Ok(program.spent);
      r := PayContributor(program, id, user, pr, points, recipient, payout);
    }

    method PauseCall(auths: set<Address>, id: U64, maintainer: Address) returns (r: Outcome<int>)
      modifies this
      ensures Committed(old(State()), State(), r, Pause(old(State()), auths, id, maintainer))
    {
      var _ :- RequireAuth(auths, maintainer);
      var program :- OrErr(Lookup(programs, id), ProgramNotFound);
      if program.maintainer != maintainer {
        return Err(Unauthorized);
      }
      program := program.(status := Paused);
      programs := programs[id := program];
      events := events + [ProgramPaused(id)];
      return Ok(0);
    }

    method ResumeCall(auths: set<Address>, id: U64, maintainer: Address) returns (r: Outcome<int>)
      modifies this
      ensures Committed(old(State()), State(), r, Resume(old(State()), auths, id, maintainer))
    {
      var _ :- RequireAuth(auths, maintainer);
      var program :- OrErr(Lookup(programs, id), ProgramNotFound);
      if program.maintainer != maintainer {
        return Err(Unauthorized);
      }
      program := program.(status := Active);
      programs := programs[id := program];
      events := events + [ProgramResumed(id)];
      return Ok(0);
    }

    method SetRatioCall(auths: set<Address>, id: U64, maintainer: Address, ratio: I128) returns (r: Outcome<int>)
      modifies this
      ensures Committed(old(State()), State(), r, SetRatio(old(State()), auths, id, maintainer, ratio))
    {
      var _ :- RequireAuth(auths, maintainer);
      if ratio <= 0 {
        return Err(InvalidRatio);
      }
      var program :- OrErr(Lookup(programs, id), ProgramNotFound);
      if program.maintainer != maintainer {
        return Err(Unauthorized);
      }
      program := program.(ratio := ratio);
      programs := programs[id := program];
      return Ok(0);
    }

    method WithdrawRemainingCall(auths: set<Address>, id: U64, maintainer: Address) returns (r: Outcome<int>)
      modifies this
      ensures Committed(old(State()), State(), r, WithdrawRemaining(old(State()), auths, id, maintainer))
    {
      var _ :- RequireAuth(auths, maintainer);
      var program :- OrErr(Lookup(programs, id), ProgramNotFound);
      if program.maintainer != maintainer {
        return Err(Unauthorized);
      }
      if program.status != Paused {
        return Err(ProgramNotPaused);
      }
      var amount := program.escrow;
      if amount <= 0 {
        return Ok(0);
      }
      var _ :- OrErr(token, NotInitialized);
      var _ :- TokenTransfer(contract, maintainer, amount);
      program := program.(escrow := 0);
      programs := programs[id := program];
      return Ok(amount);
    }
  }
}
