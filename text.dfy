/**
 * String predicates used by the client, over `string` as a sequence of characters and
 * with character-by-character comparison: String.Contains, which is ordinal in .NET, and
 * String.EndsWith, which .NET compares by the current culture and this model compares
 * character by character.
 */
module Text {

  /** `prefix` is an initial segment of `s`. */
  predicate StartsWith(s: string, prefix: string) {
    |prefix| <= |s| && s[..|prefix|] == prefix
  }

  /** `suffix` is a final segment of `s`. */
  predicate EndsWith(s: string, suffix: string) {
    |suffix| <= |s| && s[|s| - |suffix|..] == suffix
  }

  /** `sub` occurs in `s` starting at index `i`. */
  ghost predicate OccursAt(s: string, sub: string, i: int) {
    0 <= i && i + |sub| <= |s| && s[i..i + |sub|] == sub
  }

  /** String.Contains: scans `s` left to right for an occurrence of `sub`. */
  function Contains(s: string, sub: string): bool
    decreases |s|
  {
    if StartsWith(s, sub) then true
    else if s == [] then false
    else Contains(s[1..], sub)
  }

  /** An occurrence away from the front of `s` is an occurrence in `s[1..]`, one place earlier. */
  lemma ShiftOccurrences(s: string, sub: string)
    requires s != []
    ensures forall i :: OccursAt(s, sub, i) && i > 0 ==> OccursAt(s[1..], sub, i - 1)
    ensures forall j :: OccursAt(s[1..], sub, j) ==> OccursAt(s, sub, j + 1)
  {
    forall i | OccursAt(s, sub, i) && i > 0 ensures OccursAt(s[1..], sub, i - 1) {
      assert s[1..][i - 1..i - 1 + |sub|] == s[i..i + |sub|];
    }
    forall j | OccursAt(s[1..], sub, j) ensures OccursAt(s, sub, j + 1) {
      assert s[1..][j..j + |sub|] == s[j + 1..j + 1 + |sub|];
    }
  }

  /** The scan finds `sub` exactly when `sub` occurs somewhere in `s`. */
  lemma {:induction false} ContainsIff(s: string, sub: string)
    ensures Contains(s, sub) <==> exists i :: OccursAt(s, sub, i)
    decreases |s|
  {
    if StartsWith(s, sub) {
      assert OccursAt(s, sub, 0);
    } else if s != [] {
      ContainsIff(s[1..], sub);
      ShiftOccurrences(s, sub);
    }
  }

  /** An occurrence found in `s` is still there after anything is appended to `s`. */
  lemma {:induction false} ContainsAppend(s: string, t: string, sub: string)
    requires Contains(s, sub)
    ensures Contains(s + t, sub)
  {
    ContainsIff(s, sub);
    var i :| OccursAt(s, sub, i);
    assert (s + t)[i..i + |sub|] == s[i..i + |sub|];
    assert OccursAt(s + t, sub, i);
    ContainsIff(s + t, sub);
  }

  /** An occurrence of a two-character marker in `a + b` lies in `a`, in `b`, or across the join. */
  lemma PairOccurrenceInConcat(a: string, b: string, m: string, i: int)
    requires |m| == 2 && OccursAt(a + b, m, i)
    ensures OccursAt(a, m, i) || OccursAt(b, m, i - |a|) ||
      (i == |a| - 1 && a[|a| - 1] == m[0] && b[0] == m[1])
  {
    var ab := a + b;
    if i + 2 <= |a| {
      assert ab[i..i + 2] == a[i..i + 2];
    } else if i >= |a| {
      assert ab[i..i + 2] == b[i - |a|..i - |a| + 2];
    } else {
      assert ab[i] == ab[i..i + 2][0];
      assert ab[i + 1] == ab[i..i + 2][1];
    }
  }

  /** An occurrence in `b` is an occurrence in `a + b`, shifted by `|a|`. */
  lemma OccurrenceAfterPrefix(a: string, b: string, m: string, j: int)
    requires OccursAt(b, m, j)
    ensures OccursAt(a + b, m, |a| + j)
  {
    assert (a + b)[|a| + j..|a| + j + |m|] == b[j..j + |m|];
  }

  /** A marker whose characters end `a` and begin `b` occurs across the join of `a + b`. */
  lemma OccurrenceAcrossJoin(a: string, b: string, m: string)
    requires |m| == 2 && a != [] && b != [] && a[|a| - 1] == m[0] && b[0] == m[1]
    ensures OccursAt(a + b, m, |a| - 1)
  {
    assert (a + b)[|a| - 1..|a| + 1] == m;
  }

  /**
   * A two-character marker occurs in `a + b` exactly when it occurs in `a`, or in `b`,
   * or straddles the join (the last character of `a` followed by the first of `b`).
   */
  lemma {:induction false} ContainsPairConcat(a: string, b: string, c0: char, c1: char)
    ensures Contains(a + b, [c0, c1]) <==>
      Contains(a, [c0, c1]) || Contains(b, [c0, c1]) ||
      (a != [] && b != [] && a[|a| - 1] == c0 && b[0] == c1)
  {
    var m := [c0, c1];
    ContainsIff(a + b, m);
    ContainsIff(a, m);
    ContainsIff(b, m);
    if Contains(a + b, m) {
      var i :| OccursAt(a + b, m, i);
      PairOccurrenceInConcat(a, b, m, i);
    }
    if Contains(a, m) {
      ContainsAppend(a, b, m);
    }
    if Contains(b, m) {
      var j :| OccursAt(b, m, j);
      OccurrenceAfterPrefix(a, b, m, j);
    }
    if a != [] && b != [] && a[|a| - 1] == c0 && b[0] == c1 {
      OccurrenceAcrossJoin(a, b, m);
    }
  }

  /** An occurrence of a two-character marker starts with its first character. */
  lemma OccursAtHead(s: string, c0: char, c1: char)
    ensures forall i :: OccursAt(s, [c0, c1], i) ==> s[i] == c0
  {
    forall i | OccursAt(s, [c0, c1], i) ensures s[i] == c0 {
      assert s[i] == s[i..i + 2][0];
    }
  }

  /** A two-character marker cannot occur in a string that lacks its first character. */
  lemma {:induction false} PairAbsentWithoutFirst(s: string, c0: char, c1: char)
    requires c0 !in s
    ensures !Contains(s, [c0, c1])
  {
    ContainsIff(s, [c0, c1]);
    OccursAtHead(s, c0, c1);
  }
}
