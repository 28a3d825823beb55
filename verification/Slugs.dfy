/**
 The two repository-slug validators: the services split the text, the contract counts slashes.
 Text is a sequence of bytes; in UTF-8 a slash or a space byte is never part of another character.
 */
module Slugs {

  newtype Byte = x: int | 0 <= x < 256

  type Text = seq<Byte>

  const SLASH: Byte := 47
  const SPACE: Byte := 32

  function CountSlashes(s: Text): nat {
    if s == [] then 0 else (if s[0] == SLASH then 1 else 0) + CountSlashes(s[1..])
  }

  /** The contract's check. */
  predicate ValidRepo(repo: Text) {
    !(CountSlashes(repo) != 1 || |repo| == 0 || repo[0] == SLASH || repo[|repo| - 1] == SLASH)
  }

  /** The parts between slashes; a text without a slash is one part, possibly empty. */
  function Split(s: Text): (parts: seq<Text>)
    ensures |parts| >= 1
  {
    if s == [] then [[]]
    else if s[0] == SLASH then [[]] + Split(s[1..])
    else
      var rest := Split(s[1..]);
      [[s[0]] + rest[0]] + rest[1..]
  }

  function Join(parts: seq<Text>): Text {
    if |parts| == 0 then []
    else if |parts| == 1 then parts[0]
    else parts[0] + [SLASH] + Join(parts[1..])
  }

  /** The services' check. */
  predicate ValidGitHubRepo(repo: Text) {
    var parts := Split(repo);
    |parts| == 2 && forall p :: p in parts ==> |p| > 0 && SPACE !in p
  }

  lemma JoinLonger(c: Byte, first: Text, rest: seq<Text>)
    ensures Join([[c] + first] + rest) == [c] + Join([first] + rest)
  {
    var longer, parts := [[c] + first] + rest, [first] + rest;
    assert longer[1..] == rest && parts[1..] == rest;
    if rest != [] {
      assert Join(longer) == ([c] + first) + [SLASH] + Join(rest);
      assert Join(parts) == first + [SLASH] + Join(rest);
    }
  }

  lemma JoinEmptyFirst(rest: seq<Text>)
    requires |rest| >= 1
    ensures Join([[]] + rest) == [SLASH] + Join(rest)
  {
    assert ([[]] + rest)[1..] == rest;
  }

  /** Splitting is undone by joining, leaves no slash in a part and makes one part more than slashes. */
  lemma {:induction false} SplitJoin(s: Text)
    ensures Join(Split(s)) == s
    ensures |Split(s)| == CountSlashes(s) + 1
    ensures forall p :: p in Split(s) ==> SLASH !in p
  {
    if s != [] {
      SplitJoin(s[1..]);
      var rest := Split(s[1..]);
      assert rest == [rest[0]] + rest[1..];
      JoinLonger(s[0], rest[0], rest[1..]);
      JoinEmptyFirst(rest);
      assert forall p :: p in rest[1..] ==> p in rest;
      assert s == [s[0]] + s[1..];
    }
  }

  /**
   The two validators accept the same slugs except that only the contract accepts a space.
   */
  lemma ValidatorsAgree(repo: Text)
    ensures ValidGitHubRepo(repo) <==> ValidRepo(repo) && SPACE !in repo
  {
    SplitJoin(repo);
    var parts := Split(repo);
    if |parts| == 2 {
      var owner, name := parts[0], parts[1];
      assert parts == [owner, name];
      assert repo == owner + [SLASH] + name;
      assert SPACE in repo <==> SPACE in owner || SPACE in name;
      assert owner in parts && name in parts;
      assert |owner| == 0 <==> repo[0] == SLASH;
      assert |name| == 0 <==> repo[|repo| - 1] == SLASH;
    }
  }

  /** A slug only the contract accepts: `a/ `. */
  lemma SpaceTellsThemApart()
    ensures ValidRepo([97, SLASH, SPACE]) && !ValidGitHubRepo([97, SLASH, SPACE])
  {
    var repo: Text := [97, SLASH, SPACE];
    assert repo[1..] == [SLASH, SPACE] && repo[1..][1..] == [SPACE];
    assert CountSlashes([SPACE]) == 0;
    assert CountSlashes([SLASH, SPACE]) == 1;
    ValidatorsAgree(repo);
  }
}
