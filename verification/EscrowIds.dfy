/**
 Program ids, and why `initialize` has to come before the first program.
 */
module EscrowIds {
  import opened Containers
  import opened EscrowInvariant
  import opened EscrowRuns
  import opened EscrowSpec
  import opened EscrowSteps
  import opened Integers
  import opened Slugs
  import opened Token

  /** On a reachable state a creation takes the next id, which no program has. */
  lemma CreationIsFresh(w: World, auths: set<Address>, m: Address, repo: Text, ratio: I128, cap: Option<I128>)
    requires Inv(w) && CreateProgram(w, auths, m, repo, ratio, cap).Ok?
    ensures var (w', id) := CreateProgram(w, auths, m, repo, ratio, cap).value;
      && id == |w.programs| + 1
      && id !in w.programs && w'.programs.Keys == w.programs.Keys + {id}
      && (forall k :: k in w.contributors ==> k.0 != id)
      && (forall k :: k in w.processed ==> k.0 != id)
  {
    CountIds(w.programs.Keys, w.counter.value);
  }

  lemma {:induction false} CountIds(ids: set<U64>, n: int)
    requires 0 <= n <= U64_MAX && forall id: U64 :: id in ids <==> 1 <= id <= n
    ensures |ids| == n
  {
    if n > 0 {
      CountIds(ids - {n}, n - 1);
    } else {
      assert ids == {};
    }
  }

  /** What can be reached before `initialize`. */
  ghost predicate Early(w: World) {
    && w.gateway.None? && w.token.None? && w.processed == {}
    && (forall id: U64 :: id in w.programs <==> 1 <= id <= if w.counter.Some? then w.counter.value else 0)
    && (w.counter.Some? ==> w.counter.value > 0)
    && (w.counter.None? ==> w.programs == map[] && w.contributors == map[] && w.events == [])
    && ValidLedger(w.ledger)
  }

  lemma StepBeforeInitialize(s: Step)
    requires Effect(s) && Early(s.pre) && s.post.admin.None?
    ensures Early(s.post)
  {
    if s.tx.call.TokenTransfer? && s.out.Ok? {
      TransferConserves(s.pre.ledger, s.tx.call.from, s.tx.call.to, s.tx.call.amount);
    }
  }

  lemma AdminStays(s: Step)
    requires Effect(s) && s.pre.admin.Some?
    ensures s.post.admin.Some?
  {
  }

  lemma {:induction false} RunBeforeInitialize(start: World, run: seq<Step>, end: World)
    requires Deployed(start) && IsRun(start, run, end) && end.admin.None?
    ensures Early(end)
  {
    if run != [] {
      var prefix, last := run[..|run| - 1], run[|run| - 1];
      StepEffect(last);
      if last.pre.admin.Some? {
        AdminStays(last);
      }
      RunBeforeInitialize(start, prefix, last.pre);
      StepBeforeInitialize(last);
    }
  }

  /**
   Ids are dense after `initialize`, and the state is one that every theorem about runs starts
   from, if and only if no program was created before: the program counter was still unset.
   */
  lemma DenseIffNoEarlyProgram(start: World, run: seq<Step>, w: World, tx: Tx)
    requires Deployed(start) && IsRun(start, run, w)
    requires w.admin.None? && tx.call.CallInitialize? && Execute(w, tx).Ok?
    ensures var w' := Execute(w, tx).value.0;
      && (DenseIds(w') <==> w.counter.None?)
      && (Initialized(w') <==> w.counter.None?)
  {
    RunBeforeInitialize(start, run, w);
    if w.counter.Some? {
      assert 1 in w.programs;
    }
  }

  /**
   Otherwise the counter starts again at 0 while program 1 exists, and the next creation takes id 1
   once more: create, initialize, fund, create again, and the deposit is on no record.
   */
  lemma EscrowLostByLateInitialize()
    ensures var contract, admin, gateway, token, m := Address(0), Address(1), Address(2), Address(3), Address(4);
      var repo: Text := [97, SLASH, 98];
      var w0 := World(contract, None, None, None, None, map[], map[], {}, map[m := 10], []);
      && Deployed(w0)
      && CreateProgram(w0, {m}, m, repo, 1, None).Ok?
      && var w1 := CreateProgram(w0, {m}, m, repo, 1, None).value.0;
      && Initialize(w1, {admin}, admin, gateway, token).Ok?
      && var w2 := Initialize(w1, {admin}, admin, gateway, token).value.0;
      && Fund(w2, {m}, 1, m, 10).Ok?
      && var w3 := Fund(w2, {m}, 1, m, 10).value.0;
      && CreateProgram(w3, {m}, m, repo, 1, None).Ok?
      && var w4 := CreateProgram(w3, {m}, m, repo, 1, None).value.0;
      EscrowIn(w3, 1) == 10 && EscrowIn(w4, 1) == 0 && BalanceOf(w4.ledger, contract) == 10
  {
    var repo: Text := [97, SLASH, 98];
    assert repo[1..] == [SLASH, 98] && repo[1..][1..] == [98];
    assert CountSlashes([98]) == 0;
    assert CountSlashes(repo[1..]) == 1;
    assert ValidRepo(repo);
    var none: Ledger := map[];
    SumUpdate(none, Amount, Address(4), 10);
    assert ValidLedger(none[Address(4) := 10]);
  }
}
