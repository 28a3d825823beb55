/**
 One transaction as the host runs it, and what a successful call requires and changes.
 */
module EscrowSteps {
  import opened Containers
  import opened EscrowSpec
  import opened Integers
  import opened Slugs
  import opened Token

  /** One transaction with the states around it. */
  datatype Step = Step(pre: World, tx: Tx, out: Outcome<int>, post: World)

  /** The host commits a successful call and rolls every other one back. */
  predicate Executes(s: Step) {
    match Execute(s.pre, s.tx)
    case Ok((w, v)) => s.post == w && s.out == Ok(v)
    case Err(e) => s.post == s.pre && s.out == Err(e)
    case Trap => s.post == s.pre && s.out == Trap
  }

  /** A step of a run: the contract never signs. */
  predicate IsStep(s: Step) {
    s.pre.contract !in s.tx.auths && Executes(s)
  }

  predicate Owned(s: Step, id: U64, caller: Address) {
    caller in s.tx.auths && id in s.pre.programs && s.pre.programs[id].maintainer == caller
  }

  /** Only the record of one program, the ledger and the log differ. */
  predicate Updates(s: Step, id: U64, p: Program, ledger: Ledger, events: seq<Event>) {
    s.post == s.pre.(programs := s.pre.programs[id := p], ledger := ledger, events := s.pre.events + events)
  }

  predicate MergeEffect(s: Step, oracle: Address, id: U64, user: Text, pr: U64, points: U32, payout: int) {
    && oracle in s.tx.auths && s.pre.gateway == Some(oracle) && points > 0
    && (id, pr) !in s.pre.processed && id in s.pre.programs && (id, user) in s.pre.contributors
    && var p := s.pre.programs[id];
    && p.status == Active && payout == points * p.ratio
    && FitsI128(payout) && payout <= p.escrow && FitsI128(p.escrow - payout)
    && (p.cap.Some? ==> FitsI128(p.spent + payout) && p.spent + payout <= p.cap.value)
    && Transfer(s.pre.ledger, s.pre.contract, s.pre.contributors[(id, user)], payout) == Some(s.post.ledger)
    && var p' := p.(escrow := p.escrow - payout, spent := if p.cap.Some? then p.spent + payout else p.spent);
    s.post == s.pre.(
      programs := s.pre.programs[id := p'],
      processed := s.pre.processed + {(id, pr)},
      ledger := s.post.ledger,
      events := s.pre.events + [MergeRecorded(id, user, pr, points, payout)])
  }

  /** What a successful call requires of the state before it and changes in the state after it. */
  predicate Effect(s: Step) {
    var w, v := s.pre, if s.out.Ok? then s.out.value else 0;
    if !s.out.Ok? then s.post == w
    else match s.tx.call
      case CallInitialize(admin, gateway, token) =>
        && w.admin.None? && admin in s.tx.auths
        && s.post == w.(admin := Some(admin), gateway := Some(gateway), token := Some(token), counter := Some(0))
      case CallCreate(m, repo, ratio, cap) =>
        var id := 1 + if w.counter.Some? then w.counter.value else 0;
        && m in s.tx.auths && ratio > 0 && ValidRepo(repo) && id <= U64_MAX && v == id
        && s.post == w.(counter := Some(id), programs := w.programs[id := Program(m, repo, ratio, 0, cap, 0, Active)],
                        events := w.events + [ProgramCreated(id, m, repo, ratio)])
      case CallFund(id, from, amount) =>
        && Owned(s, id, from) && amount >= 1 && w.token.Some?
        && Transfer(w.ledger, from, w.contract, amount) == Some(s.post.ledger)
        && var p := w.programs[id];
        && FitsI128(p.escrow + amount)
        && Updates(s, id, p.(escrow := p.escrow + amount), s.post.ledger, [Funded(id, amount, p.escrow + amount)])
      case CallRegister(id, caller, user, address) =>
        && Owned(s, id, caller) && (id, user) !in w.contributors
        && s.post == w.(contributors := w.contributors[(id, user) := address],
                        events := w.events + [ContributorRegistered(id, user, address)])
      case CallMerge(oracle, id, user, pr, points) => MergeEffect(s, oracle, id, user, pr, points, v)
      case CallPause(id, caller) =>
        Owned(s, id, caller) && Updates(s, id, w.programs[id].(status := Paused), w.ledger, [ProgramPaused(id)])
      case CallResume(id, caller) =>
        Owned(s, id, caller) && Updates(s, id, w.programs[id].(status := Active), w.ledger, [ProgramResumed(id)])
      case CallSetRatio(id, caller, ratio) =>
        Owned(s, id, caller) && ratio > 0 && Updates(s, id, w.programs[id].(ratio := ratio), w.ledger, [])
      case CallWithdraw(id, caller) =>
        && Owned(s, id, caller) && w.programs[id].status == Paused
        && v == (if w.programs[id].escrow <= 0 then 0 else w.programs[id].escrow)
        && (v == 0 ==> s.post == w)
        && (v != 0 ==> w.token.Some? && Transfer(w.ledger, w.contract, caller, v) == Some(s.post.ledger)
                       && Updates(s, id, w.programs[id].(escrow := 0), s.post.ledger, []))
      case TokenTransfer(from, to, amount) =>
        && from in s.tx.auths
        && Transfer(w.ledger, from, to, amount) == Some(s.post.ledger) && s.post == w.(ledger := s.post.ledger)
  }

  lemma PaymentEffect(s: Step)
    requires Executes(s) && (s.tx.call.CallFund? || s.tx.call.CallWithdraw?)
    ensures Effect(s)
  {
    assert s.pre.events + [] == s.pre.events;
  }

  lemma MergeStepEffect(s: Step)
    requires Executes(s) && s.tx.call.CallMerge?
    ensures Effect(s)
  {
  }

  lemma SetupEffect(s: Step)
    requires Executes(s) && (s.tx.call.CallInitialize? || s.tx.call.CallCreate? || s.tx.call.CallRegister?)
    ensures Effect(s)
  {
  }

  lemma UpdateEffect(s: Step)
    requires Executes(s) && (s.tx.call.CallPause? || s.tx.call.CallResume? || s.tx.call.CallSetRatio?)
    ensures Effect(s)
  {
    assert s.pre.events + [] == s.pre.events;
  }

  /** Every step has the effect written out above. */
  lemma StepEffect(s: Step)
    requires Executes(s)
    ensures Effect(s)
  {
    match s.tx.call
    case CallInitialize(_, _, _) => SetupEffect(s);
    case CallCreate(_, _, _, _) => SetupEffect(s);
    case CallRegister(_, _, _, _) => SetupEffect(s);
    case CallFund(_, _, _) => PaymentEffect(s);
    case CallWithdraw(_, _) => PaymentEffect(s);
    case CallMerge(_, _, _, _, _) => MergeStepEffect(s);
    case TokenTransfer(_, _, _) =>
    case _ => UpdateEffect(s);
  }
}
