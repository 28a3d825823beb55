/**
 Batches of merges: when a batch can be paid, and that the order of its merges does not matter.
 */
module EscrowMerges {
  import opened Containers
  import opened EscrowInvariant
  import opened EscrowSpec
  import opened Integers
  import opened Reordering
  import opened Slugs
  import opened Token

  datatype Merge = Merge(id: U64, user: Text, pr: U64, points: U32)

  /** The gateway records one merge. */
  function Pay(w: World, m: Merge): Outcome<(World, int)>
    requires w.gateway.Some?
  {
    RecordMerge(w, {w.gateway.value}, w.gateway.value, m.id, m.user, m.pr, m.points)
  }

  function Reward(w: World, m: Merge): int {
    if m.id in w.programs then m.points * w.programs[m.id].ratio else 0
  }

  predicate FitsBudget(p: Program, amount: int) {
    amount <= p.escrow && (p.cap.Some? ==> p.spent + amount <= p.cap.value)
  }

  /** Everything about a merge but money. */
  predicate Eligible(w: World, m: Merge) {
    && m.points > 0
    && (m.id, m.pr) !in w.processed
    && m.id in w.programs
    && w.programs[m.id].status == Active
    && (m.id, m.user) in w.contributors
  }

  predicate CanPay(w: World, m: Merge) {
    Eligible(w, m) && FitsBudget(w.programs[m.id], Reward(w, m))
  }

  /** A record after a payout that fits its budget. */
  function Charged(p: Program, x: int): Program
    requires 0 <= x && FitsBudget(p, x) && p.escrow >= 0 && p.spent >= 0
  {
    p.(escrow := p.escrow - x, spent := if p.cap.Some? then p.spent + x else p.spent)
  }

  /** What a payment needs of the state, so that its result can be written down. */
  predicate Payable(w: World, m: Merge) {
    && CanPay(w, m) && Reward(w, m) >= 0
    && w.programs[m.id].escrow >= 0 && w.programs[m.id].spent >= 0
    && FitsI128(Reward(w, m))
    && Transfer(w.ledger, w.contract, w.contributors[(m.id, m.user)], Reward(w, m)).Some?
  }

  /** What a paid merge leaves behind, written out. */
  function After(w: World, m: Merge): World
    requires Payable(w, m)
  {
    var x: I128 := Reward(w, m);
    w.(programs := w.programs[m.id := Charged(w.programs[m.id], x)],
       processed := w.processed + {(m.id, m.pr)},
       ledger := Transfer(w.ledger, w.contract, w.contributors[(m.id, m.user)], x).value,
       events := w.events + [MergeRecorded(m.id, m.user, m.pr, m.points, x)])
  }

  /** In a reachable state the ledger never stands in the way of a payment. */
  lemma PayableIff(w: World, m: Merge)
    requires Inv(w)
    ensures Payable(w, m) <==> CanPay(w, m)
  {
    if CanPay(w, m) {
      assert m.points * w.programs[m.id].ratio > 0;
      EscrowWithinBalance(w, m.id);
      TransferSucceeds(w.ledger, w.contract, w.contributors[(m.id, m.user)], Reward(w, m));
    }
  }

  lemma PayIsAfter(w: World, m: Merge)
    requires w.gateway.Some? && w.token.Some? && Payable(w, m)
    ensures Pay(w, m) == Ok((After(w, m), Reward(w, m)))
  {
  }

  lemma PaidState(w: World, m: Merge)
    requires Inv(w)
    ensures Payable(w, m) <==> CanPay(w, m)
    ensures Payable(w, m) ==> Inv(After(w, m)) && Pay(w, m) == Ok((After(w, m), Reward(w, m)))
  {
    PayableIff(w, m);
    if CanPay(w, m) {
      PayIsAfter(w, m);
      CallKeepsInv(w, Tx(CallMerge(w.gateway.value, m.id, m.user, m.pr, m.points), {w.gateway.value}));
    }
  }

  lemma RewardPositive(w: World, m: Merge)
    requires Inv(w) && m.id in w.programs && m.points > 0
    ensures Reward(w, m) > 0
  {
    assert m.points * w.programs[m.id].ratio > 0;
  }

  lemma OnlyEligiblePays(w: World, m: Merge)
    requires w.gateway.Some? && Pay(w, m).Ok?
    ensures CanPay(w, m)
  {
  }

  /**
   In a reachable state a merge is paid iff it is eligible and fits escrow and cap: the token
   transfer never fails, and no sum or difference overflows on the way to a success.
   */
  lemma PaidIff(w: World, m: Merge)
    requires Inv(w)
    ensures Pay(w, m).Ok? <==> CanPay(w, m)
    ensures Pay(w, m).Ok? ==> Pay(w, m).value.1 == Reward(w, m) > 0
  {
    if Pay(w, m).Ok? {
      OnlyEligiblePays(w, m);
    }
    PayableIff(w, m);
    if CanPay(w, m) {
      PayIsAfter(w, m);
      RewardPositive(w, m);
    }
  }

  /**
   What the cap decides about a merge that is eligible and covered by the escrow: without a cap it
   is paid; with one it is paid iff it fits what the cap has left, which then shrinks by it.
   */
  lemma CapDecides(w: World, m: Merge)
    requires Inv(w) && Eligible(w, m) && Reward(w, m) <= w.programs[m.id].escrow
    ensures var p := w.programs[m.id];
      && (p.cap.None? ==> Pay(w, m).Ok?)
      && (p.cap.Some? ==>
           var left := p.cap.value - p.spent;
           && (Pay(w, m).Ok? <==> Reward(w, m) <= left)
           && (Pay(w, m) == Err(Overflow) <==> p.spent + Reward(w, m) > I128_MAX)
           && (Pay(w, m) == Err(MilestoneCapExceeded) <==> left < Reward(w, m) && p.spent + Reward(w, m) <= I128_MAX)
           && (Pay(w, m).Ok? ==>
                var p' := Pay(w, m).value.0.programs[m.id];
                p'.cap == p.cap && p'.cap.value - p'.spent == left - Reward(w, m)))
  {
    PaidIff(w, m);
    PaidState(w, m);
    RewardPositive(w, m);
  }

  /** Two states that differ at most in the order of their events. */
  predicate SameUpToEventOrder(w1: World, w2: World) {
    w1 == w2.(events := w1.events) && multiset(w1.events) == multiset(w2.events)
  }

  /** The batch, one merge after the other; none of it counts unless all of it succeeds. */
  function PayAll(w: World, batch: seq<Merge>): Option<World>
    requires w.gateway.Some?
    decreases |batch|
  {
    if batch == [] then Some(w)
    else
      match Pay(w, batch[0])
      case Ok((w', _)) => PayAll(w', batch[1..])
      case _ => None
  }

  /** One payment as a partial step on reachable states. */
  ghost function PayStep(w: World, m: Merge): Option<World> {
    if Inv(w) && Payable(w, m) then Some(After(w, m)) else None
  }

  ghost function PayAction(): Action<World, Merge> {
    (w: World, m: Merge) => PayStep(w, m)
  }

  ghost function Same(): (World, World) -> bool {
    (w1: World, w2: World) => SameUpToEventOrder(w1, w2)
  }

  lemma {:induction false} PayAllIsRunAll(w: World, batch: seq<Merge>)
    requires Inv(w)
    ensures PayAll(w, batch) == RunAll(PayAction(), w, batch)
    decreases |batch|
  {
    if batch != [] {
      PaidIff(w, batch[0]);
      PaidState(w, batch[0]);
      if CanPay(w, batch[0]) {
        PayAllIsRunAll(After(w, batch[0]), batch[1..]);
      }
    }
  }

  // ----- When a batch can be paid -----

  /** What a batch owes to the contributors of one program. */
  function Owed(w: World, batch: seq<Merge>, id: U64): int {
    if batch == [] then 0
    else (if batch[0].id == id then Reward(w, batch[0]) else 0) + Owed(w, batch[1..], id)
  }

  predicate DistinctPrs(batch: seq<Merge>) {
    forall i, j :: 0 <= i < j < |batch| ==> (batch[i].id, batch[i].pr) != (batch[j].id, batch[j].pr)
  }

  /** Every merge is eligible, no PR is listed twice, and each program can bear its sum. */
  predicate Affordable(w: World, batch: seq<Merge>) {
    && DistinctPrs(batch)
    && forall m :: m in batch ==> Eligible(w, m) && FitsBudget(w.programs[m.id], Owed(w, batch, m.id))
  }

  lemma {:induction false} OwedNonNegative(w: World, batch: seq<Merge>, id: U64)
    requires Inv(w)
    ensures 0 <= Owed(w, batch, id)
    ensures (forall m :: m in batch ==> m.id != id) ==> Owed(w, batch, id) == 0
  {
    if batch != [] {
      OwedNonNegative(w, batch[1..], id);
      if batch[0].id in w.programs {
        assert batch[0].points * w.programs[batch[0].id].ratio >= 0;
      }
    }
  }

  /** What is owed depends on the ratios only. */
  lemma {:induction false} OwedByRatio(w1: World, w2: World, batch: seq<Merge>, id: U64)
    requires w1.programs.Keys == w2.programs.Keys
    requires forall i :: i in w1.programs ==> w1.programs[i].ratio == w2.programs[i].ratio
    ensures Owed(w1, batch, id) == Owed(w2, batch, id)
  {
    if batch != [] {
      OwedByRatio(w1, w2, batch[1..], id);
    }
  }

  /** Paying a merge takes its reward out of what is owed and out of the budget alike. */
  lemma OwedAfter(w: World, m: Merge, rest: seq<Merge>, id: U64)
    requires Inv(w) && Payable(w, m)
    ensures Owed(w, [m] + rest, id) == Owed(After(w, m), rest, id) + if m.id == id then Reward(w, m) else 0
    ensures id in w.programs ==> forall x :: FitsBudget(After(w, m).programs[id], x) <==>
      FitsBudget(w.programs[id], x + if m.id == id then Reward(w, m) else 0)
  {
    assert ([m] + rest)[1..] == rest;
    OwedByRatio(w, After(w, m), rest, id);
  }

  lemma DistinctRest(m: Merge, rest: seq<Merge>)
    requires DistinctPrs([m] + rest)
    ensures DistinctPrs(rest) && forall n :: n in rest ==> (n.id, n.pr) != (m.id, m.pr)
  {
    var batch := [m] + rest;
    assert forall i :: 0 <= i < |rest| ==> rest[i] == batch[i + 1];
    assert batch[0] == m;
  }

  /** What one merge of a batch finds once another has been paid. */
  lemma StillAffordable(w: World, m: Merge, rest: seq<Merge>, n: Merge)
    requires Inv(w) && Payable(w, m) && Eligible(w, n) && (n.id, n.pr) != (m.id, m.pr)
    requires FitsBudget(w.programs[n.id], Owed(w, [m] + rest, n.id))
    ensures Eligible(After(w, m), n) && FitsBudget(After(w, m).programs[n.id], Owed(After(w, m), rest, n.id))
  {
    OwedAfter(w, m, rest, n.id);
  }

  lemma FirstIsPayable(w: World, m: Merge, rest: seq<Merge>)
    requires Inv(w) && Affordable(w, [m] + rest)
    ensures Payable(w, m)
  {
    var batch := [m] + rest;
    assert batch[0] == m && batch[1..] == rest && m in batch;
    OwedNonNegative(w, rest, m.id);
    PayableIff(w, m);
  }

  lemma AffordableFirst(w: World, m: Merge, rest: seq<Merge>)
    requires Inv(w) && Affordable(w, [m] + rest)
    ensures Payable(w, m) && Affordable(After(w, m), rest)
  {
    FirstIsPayable(w, m, rest);
    DistinctRest(m, rest);
    forall n | n in rest
      ensures Eligible(After(w, m), n) && FitsBudget(After(w, m).programs[n.id], Owed(After(w, m), rest, n.id))
    {
      assert n in [m] + rest;
      StillAffordable(w, m, rest, n);
    }
  }

  lemma AffordableBack(w: World, m: Merge, rest: seq<Merge>)
    requires Inv(w) && Payable(w, m) && Affordable(After(w, m), rest)
    ensures Affordable(w, [m] + rest)
  {
    var batch, w' := [m] + rest, After(w, m);
    PaidState(w, m);
    forall n | n in batch ensures Eligible(w, n) && FitsBudget(w.programs[n.id], Owed(w, batch, n.id)) {
      assert n == m || n in rest;
      OwedAfter(w, m, rest, n.id);
      if k :| k in rest && k.id == n.id {
        assert FitsBudget(w'.programs[k.id], Owed(w', rest, k.id));
      } else {
        OwedNonNegative(w', rest, n.id);
      }
    }
    forall i, j | 0 <= i < j < |batch| ensures (batch[i].id, batch[i].pr) != (batch[j].id, batch[j].pr) {
      assert batch[j] == rest[j - 1] && batch[j] in rest;
      assert i > 0 ==> batch[i] == rest[i - 1];
    }
  }

  /** Exactly the affordable batches are paid in full. */
  lemma {:induction false} PaidInFullIff(w: World, batch: seq<Merge>)
    requires Inv(w)
    ensures PayAll(w, batch).Some? <==> Affordable(w, batch)
    decreases |batch|
  {
    if batch != [] {
      var m, rest := batch[0], batch[1..];
      assert batch == [m] + rest;
      PaidIff(w, m);
      PaidState(w, m);
      if CanPay(w, m) {
        PaidInFullIff(After(w, m), rest);
        if Affordable(After(w, m), rest) {
          AffordableBack(w, m, rest);
        }
      }
      if Affordable(w, batch) {
        AffordableFirst(w, m, rest);
      }
    }
  }

  // ----- Order independence -----

  lemma PairOfEscrows(w: World, a: U64, b: U64)
    requires Inv(w) && a in w.programs && b in w.programs && a != b
    ensures w.programs[a].escrow + w.programs[b].escrow <= BalanceOf(w.ledger, w.contract)
  {
    SumWithout(w.programs, EscrowOf, a);
    SumAtLeast(w.programs - {a}, EscrowOf, b);
  }

  /** The rewards of two merges paid in a row are fixed beforehand and covered by the contract's tokens. */
  lemma PairWithinEscrow(w: World, a: Merge, b: Merge)
    requires Inv(w) && Payable(w, a) && CanPay(After(w, a), b)
    ensures Reward(w, a) + Reward(w, b) <= BalanceOf(w.ledger, w.contract)
    ensures CanPay(w, b)
  {
    RewardPositive(w, a);
    RewardPositive(w, b);
    if a.id == b.id {
      EscrowWithinBalance(w, a.id);
    } else {
      PairOfEscrows(w, a.id, b.id);
    }
  }

  /** Two merges that can be paid one after the other can be paid the other way round. */
  lemma SecondCanGoFirst(w: World, a: Merge, b: Merge)
    requires Inv(w) && Payable(w, a) && Inv(After(w, a)) && CanPay(After(w, a), b)
    ensures Payable(w, b) && Inv(After(w, b)) && Payable(After(w, b), a)
  {
    PairWithinEscrow(w, a, b);
    PaidState(w, b);
    RewardPositive(w, a);
    PaidState(After(w, b), a);
  }

  lemma RecordsCommute(w: World, a: Merge, b: Merge)
    requires Payable(w, a) && Payable(After(w, a), b) && Payable(w, b) && Payable(After(w, b), a)
    ensures After(After(w, a), b).programs == After(After(w, b), a).programs
  {
    var x, y := Reward(w, a), Reward(w, b);
    var p, q := w.programs[a.id], w.programs[b.id];
    if a.id == b.id {
      assert Charged(Charged(p, x), y) == Charged(Charged(p, y), x);
    } else {
      assert w.programs[a.id := Charged(p, x)][b.id := Charged(q, y)]
          == w.programs[b.id := Charged(q, y)][a.id := Charged(p, x)];
    }
  }

  lemma MergesCommute(w: World, a: Merge, b: Merge)
    requires ValidLedger(w.ledger) && Reward(w, a) + Reward(w, b) <= BalanceOf(w.ledger, w.contract)
    requires Payable(w, a) && Payable(After(w, a), b) && Payable(w, b) && Payable(After(w, b), a)
    ensures SameUpToEventOrder(After(After(w, a), b), After(After(w, b), a))
  {
    RecordsCommute(w, a, b);
    PaymentsCommute(w.ledger, w.contract, w.contributors[(a.id, a.user)], Reward(w, a),
                    w.contributors[(b.id, b.user)], Reward(w, b));
    var wab, wba := After(After(w, a), b), After(After(w, b), a);
    assert Reward(After(w, a), b) == Reward(w, b) && Reward(After(w, b), a) == Reward(w, a);
    assert wab.ledger == wba.ledger;
    assert wab.processed == wba.processed;
    assert multiset(wab.events) == multiset(wba.events);
  }

  lemma EventsAreInvisible(w1: World, w2: World, m: Merge)
    requires SameUpToEventOrder(w1, w2) && Inv(w1) && Payable(w1, m)
    ensures Inv(w2) && Payable(w2, m) && SameUpToEventOrder(After(w1, m), After(w2, m))
  {
    var e := MergeRecorded(m.id, m.user, m.pr, m.points, Reward(w1, m));
    assert After(w1, m).events == w1.events + [e];
  }

  lemma PaymentsDiamond(w: World, a: Merge, b: Merge, wa: World, wab: World)
    returns (wb: World, wba: World)
    requires PayStep(w, a) == Some(wa) && PayStep(wa, b) == Some(wab)
    ensures PayStep(w, b) == Some(wb) && PayStep(wb, a) == Some(wba)
    ensures SameUpToEventOrder(wab, wba)
  {
    SecondCanGoFirst(w, a, b);
    PairWithinEscrow(w, a, b);
    MergesCommute(w, a, b);
    wb := After(w, b);
    wba := After(wb, a);
  }

  lemma PaymentsRespect()
    ensures Equivalence(Same()) && Respects(PayAction(), Same())
  {
    forall s, t, u ensures TransitiveAt(Same(), s, t, u) {
    }
    forall s, t, m ensures RespectsAt(PayAction(), Same(), s, t, m) {
      if SameUpToEventOrder(s, t) && PayStep(s, m).Some? {
        EventsAreInvisible(s, t, m);
      }
    }
  }

  lemma PayStepsDiamond(w: World, a: Merge, b: Merge)
    ensures DiamondAt(PayAction(), Same(), w, a, b)
  {
    var first := PayStep(w, a);
    if first.Some? {
      var second := PayStep(first.value, b);
      if second.Some? {
        var wb, wba := PaymentsDiamond(w, a, b, first.value, second.value);
      }
    }
  }

  lemma PaymentsReorder()
    ensures Diamond(PayAction(), Same())
  {
    forall w, a, b ensures DiamondAt(PayAction(), Same(), w, a, b) {
      PayStepsDiamond(w, a, b);
    }
  }

  /**
   Order independence: if a batch is paid in full, so is every reordering of it, with the same
   storage, the same token balances and the same events up to their order.
   */
  lemma AnyOrderPays(w: World, batch: seq<Merge>, reordered: seq<Merge>)
    requires Inv(w) && multiset(batch) == multiset(reordered) && PayAll(w, batch).Some?
    ensures PayAll(w, reordered).Some?
    ensures SameUpToEventOrder(PayAll(w, batch).value, PayAll(w, reordered).value)
  {
    PayAllIsRunAll(w, batch);
    PayAllIsRunAll(w, reordered);
    PaymentsRespect();
    PaymentsReorder();
    AnyOrder(PayAction(), Same(), w, batch, reordered);
  }

  /** The two results together: every order of an affordable batch pays it in full, to one outcome. */
  lemma AffordableInAnyOrder(w: World, batch: seq<Merge>, reordered: seq<Merge>)
    requires Inv(w) && Affordable(w, batch) && multiset(batch) == multiset(reordered)
    ensures PayAll(w, batch).Some? && PayAll(w, reordered).Some?
    ensures SameUpToEventOrder(PayAll(w, batch).value, PayAll(w, reordered).value)
  {
    PaidInFullIff(w, batch);
    AnyOrderPays(w, batch, reordered);
  }
}
