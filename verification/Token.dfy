/**
 The payout token as a plain ledger with the `transfer` of the Interface section of SEP-41.
 */
module Token {
  import opened Containers
  import opened Integers

  datatype Address = Address(key: nat)

  type Ledger = map<Address, int>

  function BalanceOf(l: Ledger, a: Address): int {
    if a in l then l[a] else 0
  }

  /** What `a` gains when `amount` moves from `from` to `to`. */
  function Flow(a: Address, from: Address, to: Address, amount: int): int {
    (if a == to then amount else 0) - (if a == from then amount else 0)
  }

  /**
   Debit, then credit. Refused, which makes the host abort the caller, when the amount is
   negative, the sender is short or the receiver's balance would leave `i128`.
   */
  function Transfer(l: Ledger, from: Address, to: Address, amount: I128): (r: Option<Ledger>)
    ensures r.Some? ==> r.value.Keys == l.Keys + {from, to}
    ensures r.Some? ==> forall a :: BalanceOf(r.value, a) == BalanceOf(l, a) + Flow(a, from, to, amount)
  {
    if amount < 0 || BalanceOf(l, from) < amount then None
    else
      var debited := l[from := BalanceOf(l, from) - amount];
      if !FitsI128(BalanceOf(debited, to) + amount) then None
      else Some(debited[to := BalanceOf(debited, to) + amount])
  }

  function Amount(x: int): int { x }

  ghost function Supply(l: Ledger): int {
    Sum(l, Amount)
  }

  ghost predicate ValidLedger(l: Ledger) {
    && (forall a :: a in l ==> 0 <= l[a])
    && Supply(l) <= I128_MAX
  }

  lemma BalanceWithinSupply(l: Ledger, a: Address)
    requires ValidLedger(l)
    ensures 0 <= BalanceOf(l, a) <= Supply(l)
  {
    SumNonNegative(l, Amount);
    if a in l {
      SumAtLeast(l, Amount, a);
    }
  }

  /** Two different holders never have more than the supply between them. */
  lemma PairWithinSupply(l: Ledger, a: Address, b: Address)
    requires ValidLedger(l) && a != b
    ensures 0 <= BalanceOf(l, a) + BalanceOf(l, b) <= Supply(l)
  {
    BalanceWithinSupply(l, a);
    BalanceWithinSupply(l, b);
    if a in l && b in l {
      SumWithout(l, Amount, a);
      SumAtLeast(l - {a}, Amount, b);
    }
  }

  /**
   On a ledger whose supply fits, a transfer is refused exactly when the amount is negative
   or the sender is short: the receiver can never overflow.
   */
  lemma TransferSucceeds(l: Ledger, from: Address, to: Address, amount: I128)
    requires ValidLedger(l)
    ensures Transfer(l, from, to, amount).Some? <==> 0 <= amount <= BalanceOf(l, from)
  {
    if 0 <= amount <= BalanceOf(l, from) {
      BalanceWithinSupply(l, from);
      if from != to {
        PairWithinSupply(l, from, to);
      }
    }
  }

  /** A transfer keeps the ledger valid and conserves the supply. */
  lemma TransferConserves(l: Ledger, from: Address, to: Address, amount: I128)
    requires ValidLedger(l) && Transfer(l, from, to, amount).Some?
    ensures ValidLedger(Transfer(l, from, to, amount).value)
    ensures Supply(Transfer(l, from, to, amount).value) == Supply(l)
  {
    var debited := l[from := BalanceOf(l, from) - amount];
    SumUpdate(l, Amount, from, BalanceOf(l, from) - amount);
    SumUpdate(debited, Amount, to, BalanceOf(debited, to) + amount);
  }

  lemma SameLedger(l1: Ledger, l2: Ledger)
    requires l1.Keys == l2.Keys && forall a :: BalanceOf(l1, a) == BalanceOf(l2, a)
    ensures l1 == l2
  {
    assert forall a :: a in l1 ==> l1[a] == BalanceOf(l1, a) && l2[a] == BalanceOf(l2, a);
  }

  /** Two payments out of one account commute. */
  lemma PaymentsCommute(l: Ledger, from: Address, to1: Address, x1: I128, to2: Address, x2: I128)
    requires ValidLedger(l) && 0 <= x1 && 0 <= x2 && x1 + x2 <= BalanceOf(l, from)
    ensures Transfer(l, from, to1, x1).Some? && Transfer(l, from, to2, x2).Some?
    ensures Transfer(Transfer(l, from, to1, x1).value, from, to2, x2).Some?
    ensures Transfer(Transfer(l, from, to2, x2).value, from, to1, x1).Some?
    ensures Transfer(Transfer(l, from, to1, x1).value, from, to2, x2)
         == Transfer(Transfer(l, from, to2, x2).value, from, to1, x1)
  {
    TransferSucceeds(l, from, to1, x1);
    TransferSucceeds(l, from, to2, x2);
    TransferConserves(l, from, to1, x1);
    TransferConserves(l, from, to2, x2);
    var l1, l2 := Transfer(l, from, to1, x1).value, Transfer(l, from, to2, x2).value;
    TransferSucceeds(l1, from, to2, x2);
    TransferSucceeds(l2, from, to1, x1);
    var l12, l21 := Transfer(l1, from, to2, x2).value, Transfer(l2, from, to1, x1).value;
    SameLedger(l12, l21);
  }
}
