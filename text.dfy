/** The string operations the application relies on: ASCII lower-casing
    (`toLowerCase`) and substring search (`includes`, and the
    case-insensitive regular-expression test of the device classifier). */
module Text {

  /** Lower-cases one ASCII letter; every other character is kept. */
  function LowerChar(c: char): (r: char)
    ensures 'A' <= c <= 'Z' ==> r as int == c as int + 32
    ensures !('A' <= c <= 'Z') ==> r == c
    ensures !('A' <= r <= 'Z')
  {
    if 'A' <= c <= 'Z' then (c as int + 32) as char else c
  }

  /** `s.toLowerCase()`, restricted to ASCII. */
  function Lower(s: string): (r: string)
    ensures |r| == |s|
  {
    if s == [] then [] else [LowerChar(s[0])] + Lower(s[1..])
  }

  /** Lower-casing works character by character. */
  lemma {:induction false} LowerAt(s: string, i: int)
    requires 0 <= i < |s|
    ensures Lower(s)[i] == LowerChar(s[i])
    decreases |s|
  {
    if i > 0 {
      LowerAt(s[1..], i - 1);
    }
  }

  /** Lower-casing twice is lower-casing once. */
  lemma LowerIdempotent(s: string)
    ensures Lower(Lower(s)) == Lower(s)
  {
    forall i | 0 <= i < |s|
      ensures Lower(Lower(s))[i] == Lower(s)[i]
    {
      LowerAt(s, i);
      LowerAt(Lower(s), i);
    }
  }

  /** A string without upper-case ASCII letters is its own lower case. */
  lemma {:induction false} LowerKeepsLowercase(s: string)
    requires forall i :: 0 <= i < |s| ==> !('A' <= s[i] <= 'Z')
    ensures Lower(s) == s
    decreases |s|
  {
    if s != [] {
      LowerKeepsLowercase(s[1..]);
      assert s == [s[0]] + s[1..];
    }
  }

  /** `t` is a prefix of `s`. */
  predicate IsPrefix(t: string, s: string)
  {
    |t| <= |s| && s[..|t|] == t
  }

  /** `s.includes(t)`: `t` occurs in `s` at some position. */
  function Contains(s: string, t: string): (r: bool)
    ensures t == [] ==> r
    ensures r ==> |t| <= |s|
    decreases |s|
  {
    IsPrefix(t, s) || (|s| > 0 && Contains(s[1..], t))
  }

  /** The occurrence relation `Contains` decides, stated by position. */
  ghost predicate OccursAt(s: string, t: string, i: int)
  {
    0 <= i && i + |t| <= |s| && s[i..i + |t|] == t
  }

  /** Dropping the first character moves every occurrence one place left. */
  lemma OccursShift(s: string, t: string, i: int)
    requires |s| > 0 && 0 <= i
    ensures OccursAt(s[1..], t, i) <==> OccursAt(s, t, i + 1)
  {
    if i + 1 + |t| <= |s| {
      assert s[1..][i..i + |t|] == s[i + 1..i + 1 + |t|];
    }
  }

  /** Contains answers exactly whether `t` occurs in `s` at some position. */
  lemma {:induction false} ContainsIff(s: string, t: string)
    ensures Contains(s, t) <==> exists i :: OccursAt(s, t, i)
    decreases |s|
  {
    if IsPrefix(t, s) {
      assert OccursAt(s, t, 0);
    } else if |s| == 0 {
      assert forall i :: !OccursAt(s, t, i);
    } else {
      ContainsIff(s[1..], t);
      assert !OccursAt(s, t, 0);
      if Contains(s[1..], t) {
        var i :| OccursAt(s[1..], t, i);
        OccursShift(s, t, i);
      } else {
        forall i | 0 < i
          ensures !OccursAt(s, t, i)
        {
          OccursShift(s, t, i - 1);
        }
      }
    }
  }

  /** A text lacking one of the characters of `t` does not contain `t`. */
  lemma MissingCharNotContained(s: string, t: string, k: int)
    requires 0 <= k < |t| && t[k] !in s
    ensures !Contains(s, t)
  {
    forall i | 0 <= i && i + |t| <= |s|
      ensures !OccursAt(s, t, i)
    {
      assert s[i..i + |t|][k] == s[i + k];
    }
    ContainsIff(s, t);
  }

  /** Every string contains itself. */
  lemma ContainsSelf(s: string)
    ensures Contains(s, s)
  {
    assert IsPrefix(s, s);
  }
}
