/**
 Error branches that no reachable state takes, and the full drain of all programs.
 */
module EscrowDrain {
  import opened Containers
  import opened EscrowInvariant
  import opened EscrowSpec
  import opened Integers
  import opened Slugs
  import opened Token

  // ----- Dead branches -----

  /** `fund` never reports an overflow or a missing token; the host aborts it only for its funder. */
  lemma FundFailures(w: World, auths: set<Address>, id: U64, from: Address, amount: I128)
    requires Inv(w) && w.contract !in auths
    ensures Fund(w, auths, id, from, amount) != Err(Overflow)
    ensures Fund(w, auths, id, from, amount) != Err(NotInitialized)
    ensures from in auths && amount <= BalanceOf(w.ledger, from) ==> Fund(w, auths, id, from, amount) != Trap
    ensures Fund(w, auths, id, from, amount).Ok? <==>
      && from in auths && 1 <= amount <= BalanceOf(w.ledger, from)
      && id in w.programs && w.programs[id].maintainer == from
  {
    TransferSucceeds(w.ledger, from, w.contract, amount);
    if id in w.programs && 1 <= amount <= BalanceOf(w.ledger, from) && from != w.contract {
      FundFits(w, id, from, amount);
    }
  }

  /**
   A signed merge is never aborted by the host, and it reports an overflow only for
   `points * ratio` or for the cap's running total, never for the final subtraction.
   */
  lemma MergeFailures(w: World, auths: set<Address>, oracle: Address, id: U64, user: Text, pr: U64, points: U32)
    requires Inv(w) && oracle in auths
    ensures RecordMerge(w, auths, oracle, id, user, pr, points) != Trap
    ensures RecordMerge(w, auths, oracle, id, user, pr, points) != Err(NotInitialized)
    ensures RecordMerge(w, auths, oracle, id, user, pr, points) == Err(Overflow) <==>
      && w.gateway == Some(oracle) && points > 0 && (id, pr) !in w.processed
      && id in w.programs && w.programs[id].status == Active && (id, user) in w.contributors
      && var p := w.programs[id];
         var payout := points * p.ratio;
         || payout > I128_MAX
         || (payout <= p.escrow && p.cap.Some? && p.spent + payout > I128_MAX)
  {
    if id in w.programs && (id, user) in w.contributors && points > 0 {
      var payout := points * w.programs[id].ratio;
      assert payout > 0;
      if payout <= w.programs[id].escrow {
        EscrowWithinBalance(w, id);
        TransferSucceeds(w.ledger, w.contract, w.contributors[(id, user)], payout);
      }
    }
  }

  /** A signed withdrawal from a paused program of one's own always pays the whole recorded escrow. */
  lemma WithdrawSucceedsIff(w: World, auths: set<Address>, id: U64, caller: Address)
    requires Inv(w)
    ensures WithdrawRemaining(w, auths, id, caller).Ok? <==>
      caller in auths && id in w.programs && w.programs[id].maintainer == caller && w.programs[id].status == Paused
    ensures WithdrawRemaining(w, auths, id, caller).Ok? ==>
      WithdrawRemaining(w, auths, id, caller).value.1 == w.programs[id].escrow
  {
    if id in w.programs {
      EscrowWithinBalance(w, id);
      TransferSucceeds(w.ledger, w.contract, caller, w.programs[id].escrow);
    }
  }

  // ----- Full drain -----

  /** The maintainer pauses a program and withdraws its escrow. */
  function DrainOne(w: World, id: U64): Outcome<(World, int)>
    requires id in w.programs
  {
    var m := w.programs[id].maintainer;
    var (paused, _) :- Pause(w, {m}, id, m);
    WithdrawRemaining(paused, {m}, id, m)
  }

  lemma PauseSucceeds(w: World, id: U64)
    requires Inv(w) && id in w.programs
    ensures var p := w.programs[id];
      var r := Pause(w, {p.maintainer}, id, p.maintainer);
      && r.Ok? && Inv(r.value.0) && r.value.0.contract == w.contract && r.value.0.ledger == w.ledger
      && r.value.0.programs == w.programs[id := p.(status := Paused)]
  {
    var m := w.programs[id].maintainer;
    CallKeepsInv(w, Tx(CallPause(id, m), {m}));
  }

  lemma WithdrawalPays(w: World, id: U64)
    requires Inv(w) && id in w.programs && w.programs[id].status == Paused
    ensures var p := w.programs[id];
      var r := WithdrawRemaining(w, {p.maintainer}, id, p.maintainer);
      && r.Ok? && Inv(r.value.0) && r.value.0.contract == w.contract && r.value.1 == p.escrow
      && r.value.0.programs == w.programs[id := p.(escrow := 0)]
      && forall a :: BalanceOf(r.value.0.ledger, a) == BalanceOf(w.ledger, a) + Flow(a, w.contract, p.maintainer, p.escrow)
  {
    var m := w.programs[id].maintainer;
    WithdrawSucceedsIff(w, {m}, id, m);
    CallKeepsInv(w, Tx(CallWithdraw(id, m), {m}));
  }

  lemma DrainOnePays(w: World, id: U64)
    requires Inv(w) && id in w.programs
    ensures DrainOne(w, id).Ok? && Inv(DrainOne(w, id).value.0)
    ensures var (w', amount) := DrainOne(w, id).value;
      var p := w.programs[id];
      && amount == p.escrow
      && w'.contract == w.contract
      && w'.programs == w.programs[id := p.(escrow := 0, status := Paused)]
      && forall a :: BalanceOf(w'.ledger, a) == BalanceOf(w.ledger, a) + Flow(a, w.contract, p.maintainer, p.escrow)
  {
    var m := w.programs[id].maintainer;
    PauseSucceeds(w, id);
    WithdrawalPays(Pause(w, {m}, id, m).value.0, id);
  }

  /** Draining programs one after the other: the final state and what each withdrawal paid. */
  function DrainAll(w: World, ids: seq<U64>): Outcome<(World, seq<int>)>
    decreases |ids|
  {
    if ids == [] then Ok((w, []))
    else if ids[0] !in w.programs then Err(ProgramNotFound)
    else
      var (w1, amount) :- DrainOne(w, ids[0]);
      var (w2, amounts) :- DrainAll(w1, ids[1..]);
      Ok((w2, [amount] + amounts))
  }

  /** What a holder is due from the programs in a list. */
  function Due(w: World, ids: seq<U64>, a: Address): int {
    if ids == [] then 0
    else (if ids[0] in w.programs && w.programs[ids[0]].maintainer == a then w.programs[ids[0]].escrow else 0)
         + Due(w, ids[1..], a)
  }

  lemma {:induction false} DueElsewhere(w1: World, w2: World, ids: seq<U64>, a: Address)
    requires forall id :: id in ids ==> id in w1.programs && id in w2.programs && w1.programs[id] == w2.programs[id]
    ensures Due(w1, ids, a) == Due(w2, ids, a)
  {
    if ids != [] {
      DueElsewhere(w1, w2, ids[1..], a);
    }
  }

  predicate AllDistinct(ids: seq<U64>) {
    forall i, j :: 0 <= i < j < |ids| ==> ids[i] != ids[j]
  }

  lemma DistinctTail(ids: seq<U64>)
    requires AllDistinct(ids) && ids != []
    ensures AllDistinct(ids[1..]) && ids[0] !in ids[1..]
  {
    assert forall i :: 0 <= i < |ids| - 1 ==> ids[1..][i] == ids[i + 1];
  }

  predicate DrainedTo(w: World, ids: seq<U64>, w': World, amounts: seq<int>) {
    && w'.contract == w.contract
    && |amounts| == |ids|
    && (forall i :: 0 <= i < |ids| && ids[i] in w.programs ==> amounts[i] == w.programs[ids[i]].escrow)
    && w'.programs.Keys == w.programs.Keys
    && (forall id :: id in w.programs ==> w'.programs[id].escrow == if id in ids then 0 else w.programs[id].escrow)
  }

  lemma DrainFirst(w: World, id: U64, rest: seq<U64>, w1: World, w2: World, amount: int, amounts: seq<int>)
    requires id in w.programs && AllDistinct([id] + rest)
    requires w1.contract == w.contract && amount == w.programs[id].escrow
    requires w1.programs == w.programs[id := w.programs[id].(escrow := 0, status := Paused)]
    requires DrainedTo(w1, rest, w2, amounts)
    ensures DrainedTo(w, [id] + rest, w2, [amount] + amounts)
  {
    var ids := [id] + rest;
    assert forall i :: 0 < i < |ids| ==> ids[i] == rest[i - 1] && ids[i] != ids[0];
  }

  /**
   Whatever the order, every withdrawal succeeds and pays exactly the recorded escrow: nobody
   gets less because of another program, and no transfer fails.
   */
  lemma {:induction false} DrainsInAnyOrder(w: World, ids: seq<U64>)
    requires Inv(w) && (forall id :: id in ids ==> id in w.programs) && AllDistinct(ids)
    ensures DrainAll(w, ids).Ok? && Inv(DrainAll(w, ids).value.0)
    ensures DrainedTo(w, ids, DrainAll(w, ids).value.0, DrainAll(w, ids).value.1)
    decreases |ids|
  {
    if ids != [] {
      var id, rest := ids[0], ids[1..];
      assert ids == [id] + rest;
      DrainOnePays(w, id);
      DistinctTail(ids);
      var (w1, amount) := DrainOne(w, id).value;
      DrainsInAnyOrder(w1, rest);
      var (w2, amounts) := DrainAll(w1, rest).value;
      DrainFirst(w, id, rest, w1, w2, amount, amounts);
    }
  }

  /** Every holder receives the escrows of its own programs, and nothing else. */
  lemma {:induction false} DrainPaysMaintainers(w: World, ids: seq<U64>, a: Address)
    requires Inv(w) && (forall id :: id in ids ==> id in w.programs) && AllDistinct(ids) && a != w.contract
    requires DrainAll(w, ids).Ok?
    ensures BalanceOf(DrainAll(w, ids).value.0.ledger, a) == BalanceOf(w.ledger, a) + Due(w, ids, a)
    decreases |ids|
  {
    if ids != [] {
      var id, rest := ids[0], ids[1..];
      DrainOnePays(w, id);
      var w1 := DrainOne(w, id).value.0;
      DistinctTail(ids);
      DrainPaysMaintainers(w1, rest, a);
      DueElsewhere(w1, w, rest, a);
    }
  }

  /** What the contract holds beyond the total escrow is not touched by a drain. */
  lemma {:induction false} DrainKeepsSurplus(w: World, ids: seq<U64>)
    requires Inv(w) && (forall id :: id in ids ==> id in w.programs) && DrainAll(w, ids).Ok?
    ensures var w' := DrainAll(w, ids).value.0;
      BalanceOf(w'.ledger, w.contract) - TotalEscrow(w') == BalanceOf(w.ledger, w.contract) - TotalEscrow(w)
    decreases |ids|
  {
    if ids != [] {
      DrainOnePays(w, ids[0]);
      var w1 := DrainOne(w, ids[0]).value.0;
      TotalAfter(w, ids[0], w1.programs[ids[0]]);
      DrainKeepsSurplus(w1, ids[1..]);
    }
  }

  /** After draining all programs, no escrow is left and only the surplus stays in the contract. */
  lemma FullDrain(w: World, ids: seq<U64>)
    requires Inv(w) && (forall id :: id in ids <==> id in w.programs)
    requires AllDistinct(ids)
    ensures DrainAll(w, ids).Ok? && TotalEscrow(DrainAll(w, ids).value.0) == 0
    ensures BalanceOf(DrainAll(w, ids).value.0.ledger, w.contract) == BalanceOf(w.ledger, w.contract) - TotalEscrow(w)
  {
    DrainsInAnyOrder(w, ids);
    DrainKeepsSurplus(w, ids);
    SumOfZeroes(DrainAll(w, ids).value.0.programs, EscrowOf);
  }
}
