/** Longest common subsequences: the definition, the recurrence, and what rotating both strings changes. */
module LcsSpec {

  /** `z` picks the positions `at` of `s`, left to right. */
  ghost predicate Picks(z: string, s: string, at: seq<nat>) {
    && |at| == |z|
    && (forall k :: 0 <= k < |at| ==> at[k] < |s| && z[k] == s[at[k]])
    && (forall k, l :: 0 <= k < l < |at| ==> at[k] < at[l])
  }

  ghost predicate Subsequence(z: string, s: string) {
    exists at :: Picks(z, s, at)
  }

  ghost predicate Common(z: string, a: string, b: string) {
    Subsequence(z, a) && Subsequence(z, b)
  }

  /** `n` is the length of some common subsequence and of no longer one. */
  ghost predicate IsLongest(n: nat, a: string, b: string) {
    && (exists z :: Common(z, a, b) && |z| == n)
    && (forall z :: Common(z, a, b) ==> |z| <= n)
  }

  function Max(x: nat, y: nat): nat {
    if x < y then y else x
  }

  function Init(s: string): string
    requires s != ""
  {
    s[..|s| - 1]
  }

  function Last(s: string): char
    requires s != ""
  {
    s[|s| - 1]
  }

  /** The dynamic program's recurrence. */
  function Lcs(a: string, b: string): nat
    decreases |a| + |b|
  {
    if a == "" || b == "" then 0
    else if Last(a) == Last(b) then Lcs(Init(a), Init(b)) + 1
    else Max(Lcs(Init(a), b), Lcs(a, Init(b)))
  }

  // ------------------------------------------------------------ subsequences

  lemma PicksExtend(z: string, s: string, at: seq<nat>, c: char)
    requires Picks(z, s, at)
    ensures Picks(z, s + [c], at)
    ensures Picks(z + [c], s + [c], at + [|s|])
  {
  }

  lemma SubsequenceExtend(z: string, s: string, c: char)
    requires Subsequence(z, s)
    ensures Subsequence(z, s + [c]) && Subsequence(z + [c], s + [c])
  {
    var at :| Picks(z, s, at);
    PicksExtend(z, s, at, c);
  }

  /** A subsequence loses at most its last character when the string does. */
  lemma SubsequenceShrink(z: string, s: string)
    requires Subsequence(z, s) && z != "" && s != ""
    ensures Subsequence(Init(z), Init(s))
    ensures Last(z) != Last(s) ==> Subsequence(z, Init(s))
  {
    var at :| Picks(z, s, at);
    var n := |z| - 1;
    assert forall k :: 0 <= k < n ==> at[k] < at[n];
    assert Picks(Init(z), Init(s), at[..n]);
    if Last(z) != Last(s) {
      assert at[n] < |s| - 1;
      assert Picks(z, Init(s), at);
    }
  }

  lemma EmptyCommon(a: string, b: string)
    ensures Common("", a, b)
  {
    assert Picks("", a, []) && Picks("", b, []);
  }

  /** The recurrence is reached by some common subsequence. */
  lemma {:induction false} LcsWitness(a: string, b: string) returns (z: string)
    ensures Common(z, a, b) && |z| == Lcs(a, b)
    decreases |a| + |b|
  {
    hide Subsequence;
    if a == "" || b == "" {
      z := "";
      EmptyCommon(a, b);
    } else if Last(a) == Last(b) {
      var y := LcsWitness(Init(a), Init(b));
      z := y + [Last(a)];
      SubsequenceExtend(y, Init(a), Last(a));
      SubsequenceExtend(y, Init(b), Last(b));
      assert Init(a) + [Last(a)] == a && Init(b) + [Last(b)] == b;
    } else if Lcs(a, Init(b)) <= Lcs(Init(a), b) {
      z := LcsWitness(Init(a), b);
      SubsequenceExtend(z, Init(a), Last(a));
      assert Init(a) + [Last(a)] == a;
    } else {
      z := LcsWitness(a, Init(b));
      SubsequenceExtend(z, Init(b), Last(b));
      assert Init(b) + [Last(b)] == b;
    }
  }

  /** No common subsequence is longer than the recurrence says. */
  lemma {:induction false} LcsBound(a: string, b: string, z: string)
    requires Common(z, a, b)
    ensures |z| <= Lcs(a, b)
    decreases |a| + |b|
  {
    hide Subsequence;
    if a == "" || b == "" {
      SubsequenceOfEmpty(z, a);
      SubsequenceOfEmpty(z, b);
    } else if z != "" {
      SubsequenceShrink(z, a);
      SubsequenceShrink(z, b);
      if Last(a) == Last(b) {
        LcsBound(Init(a), Init(b), Init(z));
      } else if Last(z) != Last(a) {
        LcsBound(Init(a), b, z);
      } else {
        LcsBound(a, Init(b), z);
      }
    }
  }

  lemma SubsequenceOfEmpty(z: string, s: string)
    requires Subsequence(z, s)
    ensures s == "" ==> z == ""
  {
    var at :| Picks(z, s, at);
    if z != "" {
      assert at[0] < |s|;
    }
  }

  /** The recurrence computes the longest common subsequence, and only that number qualifies. */
  lemma LcsIsLongest(a: string, b: string, n: nat)
    ensures IsLongest(n, a, b) <==> n == Lcs(a, b)
  {
    hide Common;
    var z := LcsWitness(a, b);
    forall y | Common(y, a, b) ensures |y| <= Lcs(a, b) {
      LcsBound(a, b, y);
    }
  }

  // ------------------------------------------------------------ rotation

  /** The string with its last character moved to the front. */
  function Rotated(s: string): (r: string)
    ensures |r| == |s|
    ensures forall k :: 0 <= k < |s| ==> r[k] == if k == 0 then s[|s| - 1] else s[k - 1]
  {
    if s == "" then "" else [Last(s)] + Init(s)
  }

  lemma SubsequencePrepend(z: string, s: string, c: char)
    requires Subsequence(z, s)
    ensures Subsequence(z, [c] + s) && Subsequence([c] + z, [c] + s)
  {
    var at :| Picks(z, s, at);
    var shifted := seq(|at|, k requires 0 <= k < |at| => at[k] + 1);
    assert Picks(z, [c] + s, shifted);
    assert Picks([c] + z, [c] + s, [0] + shifted);
  }

  lemma SubsequenceBehead(z: string, s: string)
    requires Subsequence(z, s) && z != "" && s != ""
    ensures Subsequence(z[1..], s[1..])
  {
    var at :| Picks(z, s, at);
    assert forall k :: 1 <= k < |at| ==> at[0] < at[k];
    var shifted := seq(|at| - 1, k requires 0 <= k < |at| - 1 => at[k + 1] - 1);
    assert Picks(z[1..], s[1..], shifted);
  }

  /** A common first character counts once, like a common last one. */
  lemma LcsPrepend(a: string, b: string, c: char, d: char)
    ensures Lcs(a, b) <= Lcs([c] + a, [d] + b) <= Lcs(a, b) + 1
    ensures c == d ==> Lcs([c] + a, [d] + b) == Lcs(a, b) + 1
  {
    hide Subsequence, Lcs;
    var y := LcsWitness(a, b);
    SubsequencePrepend(y, a, c);
    SubsequencePrepend(y, b, d);
    LcsBound([c] + a, [d] + b, y);
    if c == d {
      LcsBound([c] + a, [d] + b, [c] + y);
    }
    var z := LcsWitness([c] + a, [d] + b);
    if z != "" {
      SubsequenceBehead(z, [c] + a);
      SubsequenceBehead(z, [d] + b);
      assert ([c] + a)[1..] == a && ([d] + b)[1..] == b;
      LcsBound(a, b, z[1..]);
    }
  }

  lemma LcsAppend(a: string, b: string, c: char, d: char)
    ensures Lcs(a, b) <= Lcs(a + [c], b + [d]) <= Lcs(a, b) + 1
    ensures c == d ==> Lcs(a + [c], b + [d]) == Lcs(a, b) + 1
  {
    hide Subsequence;
    assert Init(a + [c]) == a && Init(b + [d]) == b;
    var y := LcsWitness(a, b);
    SubsequenceExtend(y, a, c);
    SubsequenceExtend(y, b, d);
    LcsBound(a + [c], b + [d], y);
    var z := LcsWitness(a + [c], b + [d]);
    if z != "" {
      SubsequenceShrink(z, a + [c]);
      SubsequenceShrink(z, b + [d]);
      LcsBound(a, b, Init(z));
    }
  }

  /** Rotating both strings changes the answer by at most one, and not at all if they end alike. */
  lemma RotationError(x: string, y: string)
    requires x != "" && y != ""
    ensures -1 <= Lcs(Rotated(x), Rotated(y)) - Lcs(x, y) <= 1
    ensures Last(x) == Last(y) ==> Lcs(Rotated(x), Rotated(y)) == Lcs(x, y)
  {
    hide Lcs;
    assert x == Init(x) + [Last(x)] && y == Init(y) + [Last(y)];
    LcsPrepend(Init(x), Init(y), Last(x), Last(y));
    LcsAppend(Init(x), Init(y), Last(x), Last(y));
  }

  /** Rotation is harmless for all strings with the given last characters. */
  ghost predicate HarmlessFor(c: char, d: char) {
    forall x: string, y: string :: Lcs(Rotated(x + [c]), Rotated(y + [d])) == Lcs(x + [c], y + [d])
  }

  /** Exactly the strings that end alike are safe to rotate. */
  lemma RotationHarmless(c: char, d: char)
    ensures HarmlessFor(c, d) <==> c == d
  {
    if c == d {
      forall x: string, y: string ensures Lcs(Rotated(x + [c]), Rotated(y + [d])) == Lcs(x + [c], y + [d]) {
        RotationError(x + [c], y + [d]);
      }
    } else {
      var x, y := [d], [d, c];
      RotationCounterexample(c, d);
      assert Lcs(Rotated(x + [c]), Rotated(y + [d])) != Lcs(x + [c], y + [d]);
    }
  }

  /** With different last characters: "dc" and "dcd" share "dc", their rotations "cd" and "ddc" only one character. */
  lemma RotationCounterexample(c: char, d: char)
    requires c != d
    ensures Lcs([d, c], [d, c, d]) == 2
    ensures Lcs(Rotated([d] + [c]), Rotated([d, c] + [d])) == 1
    ensures Lcs(Rotated([d] + [c]), Rotated([d, c] + [d])) != Lcs([d] + [c], [d, c] + [d])
  {
    assert [d] + [c] == [d, c] && [d, c] + [d] == [d, c, d];
    assert Rotated([d, c]) == [c, d] && Rotated([d, c, d]) == [d, d, c];
    LcsSteps(c, d);
  }

  lemma LcsSteps(c: char, d: char)
    requires c != d
    ensures Lcs([d, c], [d, c, d]) == 2 && Lcs([c, d], [d, d, c]) == 1
  {
    assert Init([d, c, d]) == [d, c] && Init([d, c]) == [d] && Init([d]) == "";
    assert Init([c, d]) == [c] && Init([d, d, c]) == [d, d] && Init([d, d]) == [d] && Init([c]) == "";
    assert Lcs([d], [d]) == 1;
    assert Lcs([d], [d, c]) == 1 by {
      assert Lcs("", [d, c]) == 0;
    }
    assert Lcs([d, c], [d, c]) == 2;
    assert Lcs([d], [d, c, d]) == 1;
    assert Lcs([c], [d, d, c]) == 1;
    assert Lcs([c, d], [d, d]) == 1 by {
      assert Lcs([c], [d]) == 0;
    }
  }
}
