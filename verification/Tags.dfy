/**
 The transaction tag the gateway stores with a payout: a mode prefix, the on-chain program
 id and the PR number in decimal, joined by `-`.
 */
module Tags {

  datatype Mode = Simulated | DryRun

  function Prefix(mode: Mode): string {
    match mode
    case Simulated => "simulated-tx-"
    case DryRun => "dry-run-"
  }

  function Digit(d: nat): char
    requires d < 10
  {
    ['0', '1', '2', '3', '4', '5', '6', '7', '8', '9'][d]
  }

  function DigitValue(c: char): nat {
    if '0' <= c <= '9' then (c as int) - ('0' as int) else 0
  }

  function Decimal(n: nat): (s: string)
    ensures |s| > 0
  {
    if n < 10 then [Digit(n)] else Decimal(n / 10) + [Digit(n % 10)]
  }

  function ReadDecimal(s: string): nat {
    if s == "" then 0 else 10 * ReadDecimal(s[..|s| - 1]) + DigitValue(s[|s| - 1])
  }

  function Tag(mode: Mode, programId: nat, pr: nat): string {
    Prefix(mode) + (Decimal(programId) + "-" + Decimal(pr))
  }

  /** Reading back what was formatted gives the number. */
  lemma {:induction false} DecimalRoundTrip(n: nat)
    ensures ReadDecimal(Decimal(n)) == n
    ensures '-' !in Decimal(n)
  {
    var s := Decimal(n);
    assert ReadDecimal("") == 0;
    if n < 10 {
      assert s[..|s| - 1] == "";
    } else {
      DecimalRoundTrip(n / 10);
      assert s[..|s| - 1] == Decimal(n / 10);
    }
  }

  /** A text before the first `-` and the text after it are determined by the whole. */
  lemma {:induction false} FirstDash(a1: string, b1: string, a2: string, b2: string)
    requires '-' !in a1 && '-' !in a2
    requires a1 + "-" + b1 == a2 + "-" + b2
    ensures a1 == a2 && b1 == b2
  {
    var s := a1 + "-" + b1;
    assert s[|a1|] == '-' && s[|a2|] == '-';
    assert forall i :: 0 <= i < |a1| ==> s[i] == a1[i];
    assert forall i :: 0 <= i < |a2| ==> s[i] == a2[i];
    assert |a1| == |a2|;
    assert a1 == s[..|a1|] == a2;
    assert b1 == s[|a1| + 1..] == b2;
  }

  lemma AfterPrefix(p: string, a: string, b: string)
    requires p + a == p + b
    ensures a == b
  {
    assert a == (p + a)[|p|..] == (p + b)[|p|..] == b;
  }

  /** A tag determines its mode, its program and its PR. */
  lemma TagInjective(mode1: Mode, id1: nat, pr1: nat, mode2: Mode, id2: nat, pr2: nat)
    requires Tag(mode1, id1, pr1) == Tag(mode2, id2, pr2)
    ensures mode1 == mode2 && id1 == id2 && pr1 == pr2
  {
    assert Tag(mode1, id1, pr1)[0] == Prefix(mode1)[0];
    assert Tag(mode2, id2, pr2)[0] == Prefix(mode2)[0];
    AfterPrefix(Prefix(mode1), Decimal(id1) + "-" + Decimal(pr1), Decimal(id2) + "-" + Decimal(pr2));
    DecimalRoundTrip(id1);
    DecimalRoundTrip(id2);
    DecimalRoundTrip(pr1);
    DecimalRoundTrip(pr2);
    FirstDash(Decimal(id1), Decimal(pr1), Decimal(id2), Decimal(pr2));
  }

  /** What a tag starts with tells the mode. */
  lemma TagPrefix(mode: Mode, programId: nat, pr: nat)
    ensures "simulated-tx-" <= Tag(mode, programId, pr) <==> mode == Simulated
    ensures "dry-run-" <= Tag(mode, programId, pr) <==> mode == DryRun
  {
    var tag := Tag(mode, programId, pr);
    assert tag[0] == Prefix(mode)[0];
    assert Prefix(mode) <= tag;
    assert "simulated-tx-"[0] == 's' && "dry-run-"[0] == 'd';
  }

  lemma Pieces(p: string, a: string, b: string)
    ensures var tag := p + (a + "-" + b);
      && |p| + |a| < |tag| && tag[|p|..|p| + |a|] == a && tag[|p| + |a|] == '-' && tag[|p| + |a| + 1..] == b
  {
  }

  /** A dash with nothing but the program before it, behind the prefix, and the PR after it. */
  predicate SplitsAt(tag: string, start: nat, dash: nat, programId: nat, pr: nat) {
    && start <= dash < |tag| && tag[dash] == '-' && '-' !in tag[start..dash]
    && ReadDecimal(tag[start..dash]) == programId && ReadDecimal(tag[dash + 1..]) == pr
  }

  /** What follows is the program, a dash and the PR, in this order. */
  lemma TagReadsBack(mode: Mode, programId: nat, pr: nat)
    ensures exists dash :: SplitsAt(Tag(mode, programId, pr), |Prefix(mode)|, dash, programId, pr)
  {
    DecimalRoundTrip(programId);
    DecimalRoundTrip(pr);
    Pieces(Prefix(mode), Decimal(programId), Decimal(pr));
    assert SplitsAt(Tag(mode, programId, pr), |Prefix(mode)|, |Prefix(mode)| + |Decimal(programId)|, programId, pr);
  }
}
