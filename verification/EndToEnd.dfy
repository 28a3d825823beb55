/**
 Gateway and contract together: the gateway runs, attestations in its log reach the contract any
 number of times and in any order, and anybody else calls the contract in between.
 */
module EndToEnd {
  import opened Containers
  import opened EscrowAnswers
  import opened EscrowIsolation
  import opened EscrowRuns
  import opened EscrowSpec
  import opened EscrowSteps
  import opened Integers
  import opened Token
  import GatewayInvariant
  import GatewayProtocol
  import GatewayRuns

  type Submission = GatewayProtocol.Submission

  datatype Move =
    | Gateway(action: GatewayProtocol.Action)
    | Deliver(index: nat)
    | Other(tx: Tx)

  /** Both systems, and the transactions the contract has seen. */
  datatype Joint = Joint(gateway: GatewayProtocol.System, world: World, trace: seq<Step>)

  /** The gateway's transaction for an attestation. */
  function TxFor(oracle: Address, e: Submission): Tx {
    Tx(CallMerge(oracle, e.onChain, e.user, e.pr, e.points), {oracle})
  }

  function Commit(j: Joint, tx: Tx): Joint {
    j.(world := Apply(j.world, tx), trace := j.trace + [StepOf(j.world, tx)])
  }

  ghost function NextJoint(j: Joint, m: Move): Joint {
    match m
    case Gateway(a) => j.(gateway := GatewayProtocol.Next(j.gateway, a))
    case Deliver(i) =>
      if i < |j.gateway.log| && j.world.gateway.Some? then Commit(j, TxFor(j.world.gateway.value, j.gateway.log[i])) else j
    case Other(tx) => Commit(j, tx)
  }

  ghost function RunJoint(j: Joint, moves: seq<Move>): Joint {
    if moves == [] then j else NextJoint(RunJoint(j, moves[..|moves| - 1]), moves[|moves| - 1])
  }

  /** A gateway at its start, and a contract just initialized, whose gateway is not the contract itself. */
  ghost predicate Start(j: Joint) {
    && GatewayProtocol.Initial(j.gateway) && Initialized(j.world) && j.world.gateway.value != j.world.contract
    && j.trace == []
  }

  /** Nobody else signs as the contract. */
  predicate Unforged(j: Joint, moves: seq<Move>) {
    forall m :: m in moves && m.Other? ==> j.world.contract !in m.tx.auths
  }

  /** Nobody else signs as the gateway. */
  predicate GatewayKeyIsPrivate(j: Joint, moves: seq<Move>)
    requires j.world.gateway.Some?
  {
    forall m :: m in moves && m.Other? ==> j.world.gateway.value !in m.tx.auths
  }

  /** What holds of every joint state reached from a start. */
  ghost predicate Reached(start: Joint, j: Joint) {
    && GatewayInvariant.GInv(j.gateway) && IsRun(start.world, j.trace, j.world)
    && j.world.contract == start.world.contract && j.world.gateway == start.world.gateway
  }

  lemma CommitReaches(start: Joint, j: Joint, tx: Tx)
    requires Start(start) && Reached(start, j) && start.world.contract !in tx.auths
    ensures Reached(start, Commit(j, tx))
  {
    var s := StepOf(j.world, tx);
    assert (j.trace + [s])[..|j.trace|] == j.trace;
    RunKeepsInv(start.world, j.trace + [s], s.post);
  }

  lemma GatewayReaches(start: Joint, j: Joint, a: GatewayProtocol.Action)
    requires Reached(start, j)
    ensures Reached(start, j.(gateway := GatewayProtocol.Next(j.gateway, a)))
  {
    assert GatewayInvariant.GInv(GatewayProtocol.Next(j.gateway, a)) by { GatewayRuns.NextKeepsGInv(j.gateway, a); }
  }

  lemma NextReaches(start: Joint, j: Joint, m: Move)
    requires Start(start) && Reached(start, j) && (m.Other? ==> start.world.contract !in m.tx.auths)
    ensures Reached(start, NextJoint(j, m))
  {
    match m
    case Gateway(a) => GatewayReaches(start, j, a);
    case Deliver(i) =>
      if i < |j.gateway.log| {
        CommitReaches(start, j, TxFor(j.world.gateway.value, j.gateway.log[i]));
      }
    case Other(tx) => CommitReaches(start, j, tx);
  }

  lemma {:induction false} AllReached(start: Joint, moves: seq<Move>)
    requires Start(start) && Unforged(start, moves)
    ensures Reached(start, RunJoint(start, moves))
  {
    if moves == [] {
      GatewayRuns.InitialHolds(start.gateway);
    } else {
      AllReached(start, moves[..|moves| - 1]);
      NextReaches(start, RunJoint(start, moves[..|moves| - 1]), moves[|moves| - 1]);
    }
  }

  /**
   Whatever the gateway submits, however often each attestation reaches the contract, and whatever
   else is called in between: the contract pays each PR of a program at most once, and it has paid
   it iff the PR is flagged.
   */
  lemma PaidAtMostOnce(start: Joint, moves: seq<Move>, id: U64, pr: U64)
    requires Start(start) && Unforged(start, moves)
    ensures var j := RunJoint(start, moves);
      && 0 <= Total(j.trace, PaidFor(id, pr)) <= 1
      && (Total(j.trace, PaidFor(id, pr)) == 1 <==> (id, pr) in j.world.processed)
  {
    AllReached(start, moves);
    var j := RunJoint(start, moves);
    PaidExactlyOnce(start.world, j.trace, j.world, id, pr);
  }

  // ----- Every payout was submitted -----

  predicate Submitted(log: seq<Submission>, c: Call)
    requires c.CallMerge?
  {
    exists i :: 0 <= i < |log| && log[i].onChain == c.id && log[i].user == c.user && log[i].pr == c.pr && log[i].points == c.points
  }

  /** The step is not a merge the gateway's key signed, or its attestation is in the log. */
  predicate Covered(oracle: Address, log: seq<Submission>, s: Step) {
    s.tx.call.CallMerge? && oracle in s.tx.auths ==> Submitted(log, s.tx.call)
  }

  predicate AllCovered(oracle: Address, j: Joint) {
    forall s :: s in j.trace ==> Covered(oracle, j.gateway.log, s)
  }

  lemma CoveredStays(oracle: Address, log: seq<Submission>, log': seq<Submission>, s: Step)
    requires Covered(oracle, log, s) && log <= log'
    ensures Covered(oracle, log', s)
  {
    if s.tx.call.CallMerge? && oracle in s.tx.auths {
      var c := s.tx.call;
      var i :| 0 <= i < |log| && log[i].onChain == c.id && log[i].user == c.user && log[i].pr == c.pr && log[i].points == c.points;
      assert log'[i] == log[i];
    }
  }

  lemma NextCovered(oracle: Address, j: Joint, m: Move)
    requires GatewayInvariant.GInv(j.gateway) && j.world.gateway == Some(oracle) && AllCovered(oracle, j)
    requires m.Other? ==> oracle !in m.tx.auths
    ensures AllCovered(oracle, NextJoint(j, m))
  {
    if m.Gateway? {
      GatewayRuns.NextExtends(j.gateway, m.action);
      forall s | s in j.trace ensures Covered(oracle, NextJoint(j, m).gateway.log, s) {
        CoveredStays(oracle, j.gateway.log, NextJoint(j, m).gateway.log, s);
      }
    }
  }

  lemma {:induction false} RunCovered(start: Joint, moves: seq<Move>)
    requires Start(start) && Unforged(start, moves) && GatewayKeyIsPrivate(start, moves)
    ensures AllCovered(start.world.gateway.value, RunJoint(start, moves))
  {
    if moves != [] {
      var prefix := moves[..|moves| - 1];
      RunCovered(start, prefix);
      AllReached(start, prefix);
      NextCovered(start.world.gateway.value, RunJoint(start, prefix), moves[|moves| - 1]);
    }
  }

  lemma PayoutIsSigned(s: Step, id: U64, oracle: Address)
    requires Effect(s) && s.pre.gateway == Some(oracle) && IsPayout(s, id)
    ensures oracle in s.tx.auths && id in s.pre.programs
    ensures s.tx.call.points == 1 ==> s.out.value == s.pre.programs[id].ratio
  {
  }

  lemma SubmittedForOnePoint(g: GatewayProtocol.System, c: Call)
    requires GatewayInvariant.LogOk(g) && c.CallMerge? && Submitted(g.log, c)
    ensures c.points == 1
  {
  }

  lemma TracedSteps(start: Joint, moves: seq<Move>, s: Step)
    requires Start(start) && Unforged(start, moves) && s in RunJoint(start, moves).trace
    ensures Effect(s) && s.pre.gateway == start.world.gateway
    ensures GatewayInvariant.LogOk(RunJoint(start, moves).gateway)
  {
    AllReached(start, moves);
    RunKeepsInv(start.world, RunJoint(start, moves).trace, RunJoint(start, moves).world);
  }

  lemma TracedIsCovered(start: Joint, moves: seq<Move>, s: Step)
    requires Start(start) && Unforged(start, moves) && GatewayKeyIsPrivate(start, moves)
    requires s in RunJoint(start, moves).trace && s.tx.call.CallMerge? && start.world.gateway.value in s.tx.auths
    ensures Submitted(RunJoint(start, moves).gateway.log, s.tx.call)
  {
    RunCovered(start, moves);
    assert Covered(start.world.gateway.value, RunJoint(start, moves).gateway.log, s);
  }

  /**
   If nobody else holds the gateway's key, every payout of the contract is for a merge the gateway
   submitted, and pays one point at the ratio in force.
   */
  lemma PayoutsWereSubmitted(start: Joint, moves: seq<Move>, s: Step, id: U64)
    requires Start(start) && Unforged(start, moves) && GatewayKeyIsPrivate(start, moves)
    requires s in RunJoint(start, moves).trace && IsPayout(s, id)
    ensures Submitted(RunJoint(start, moves).gateway.log, s.tx.call)
    ensures id in s.pre.programs && s.out.value == s.pre.programs[id].ratio
  {
    TracedSteps(start, moves, s);
    PayoutIsSigned(s, id, start.world.gateway.value);
    TracedIsCovered(start, moves, s);
    SubmittedForOnePoint(RunJoint(start, moves).gateway, s.tx.call);
  }

  // ----- Delivering again -----

  lemma CommitKeepsPaid(j: Joint, tx: Tx, id: U64, pr: U64)
    requires (id, pr) in j.world.processed
    ensures (id, pr) in Commit(j, tx).world.processed
  {
    StepOfHasEffect(j.world, tx);
    StepFlags(StepOf(j.world, tx), id, pr);
  }

  lemma {:induction false} PaidStays(j: Joint, moves: seq<Move>, id: U64, pr: U64)
    requires (id, pr) in j.world.processed
    ensures (id, pr) in RunJoint(j, moves).world.processed
  {
    if moves != [] {
      var before, m := RunJoint(j, moves[..|moves| - 1]), moves[|moves| - 1];
      PaidStays(j, moves[..|moves| - 1], id, pr);
      match m
      case Gateway(_) =>
      case Deliver(i) =>
        if i < |before.gateway.log| && before.world.gateway.Some? {
          CommitKeepsPaid(before, TxFor(before.world.gateway.value, before.gateway.log[i]), id, pr);
        }
      case Other(tx) => CommitKeepsPaid(before, tx, id, pr);
    }
  }

  lemma NextLogGrows(j: Joint, m: Move)
    requires GatewayInvariant.GInv(j.gateway)
    ensures j.gateway.log <= NextJoint(j, m).gateway.log
  {
    if m.Gateway? {
      GatewayRuns.NextExtends(j.gateway, m.action);
    }
  }

  lemma {:induction false} StaysReached(start: Joint, j: Joint, moves: seq<Move>)
    requires Start(start) && Reached(start, j) && Unforged(start, moves)
    ensures Reached(start, RunJoint(j, moves)) && j.gateway.log <= RunJoint(j, moves).gateway.log
  {
    if moves != [] {
      var before, m := RunJoint(j, moves[..|moves| - 1]), moves[|moves| - 1];
      StaysReached(start, j, moves[..|moves| - 1]);
      NextReaches(start, before, m);
      NextLogGrows(before, m);
    }
  }

  /** The contract's answer to the `i`-th attestation, delivered now. */
  function AnswerTo(j: Joint, i: nat): Outcome<int>
    requires i < |j.gateway.log| && j.world.gateway.Some?
  {
    Result(Execute(j.world, TxFor(j.world.gateway.value, j.gateway.log[i])))
  }

  /** An attestation for a paid PR is answered so, in every reachable joint state. */
  lemma PaidIsRefused(start: Joint, j: Joint, i: nat)
    requires Start(start) && Reached(start, j) && i < |j.gateway.log|
    requires (j.gateway.log[i].onChain, j.gateway.log[i].pr) in j.world.processed
    ensures AnswerTo(j, i) == Err(PrAlreadyProcessed)
    ensures NextJoint(j, Deliver(i)).world == j.world
  {
    var oracle, e := j.world.gateway.value, j.gateway.log[i];
    MergeRefusals(j.world, {oracle}, oracle, e.onChain, e.user, e.pr, e.points);
  }

  /**
   Delivering an attestation again after its payout is answered `PrAlreadyProcessed` and changes
   nothing, whatever happened in between.
   */
  lemma RedeliveryIsRefused(start: Joint, moves: seq<Move>, later: seq<Move>, i: nat)
    requires Start(start) && Unforged(start, moves) && Unforged(start, later)
    requires var j := RunJoint(start, moves);
      i < |j.gateway.log| && j.world.gateway.Some? && AnswerTo(j, i).Ok?
    ensures var j' := RunJoint(NextJoint(RunJoint(start, moves), Deliver(i)), later);
      && i < |j'.gateway.log| && j'.world.gateway.Some?
      && AnswerTo(j', i) == Err(PrAlreadyProcessed) && NextJoint(j', Deliver(i)).world == j'.world
  {
    var j := RunJoint(start, moves);
    var e := j.gateway.log[i];
    AllReached(start, moves);
    NextReaches(start, j, Deliver(i));
    FirstPays(j, i);
    PaidStays(NextJoint(j, Deliver(i)), later, e.onChain, e.pr);
    StaysReached(start, NextJoint(j, Deliver(i)), later);
    PaidIsRefused(start, RunJoint(NextJoint(j, Deliver(i)), later), i);
  }

  lemma FirstPays(j: Joint, i: nat)
    requires i < |j.gateway.log| && j.world.gateway.Some? && AnswerTo(j, i).Ok?
    ensures (j.gateway.log[i].onChain, j.gateway.log[i].pr) in NextJoint(j, Deliver(i)).world.processed
    ensures NextJoint(j, Deliver(i)).gateway == j.gateway
  {
    var tx := TxFor(j.world.gateway.value, j.gateway.log[i]);
    StepOfHasEffect(j.world, tx);
    StepFlags(StepOf(j.world, tx), tx.call.id, tx.call.pr);
  }
}
