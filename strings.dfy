/**
 * String operations the app takes from Swift and Foundation, on `seq<char>`.
 * `lowercased()` and `localizedCaseInsensitiveContains` are modelled on ASCII
 * letters only.
 */
module Strings {

  function LowerChar(c: char): char {
    if 'A' <= c <= 'Z' then (c as int + 32) as char else c
  }

  /** `lowercased()`, for ASCII letters. */
  function Lower(s: string): (r: string)
    ensures |r| == |s|
    ensures forall i :: 0 <= i < |s| ==> r[i] == LowerChar(s[i])
  {
    seq(|s|, i requires 0 <= i < |s| => LowerChar(s[i]))
  }

  /** `s.contains(t)`: `t` occurs in `s` as a contiguous piece. */
  predicate Contains(s: string, t: string)
    decreases |s|
  {
    t <= s || (s != [] && Contains(s[1..], t))
  }

  /** `t` sits in `s` starting at offset `k`. */
  predicate OccursAt(s: string, t: string, k: nat) {
    k + |t| <= |s| && s[k..k + |t|] == t
  }

  /** `Contains` holds exactly when `t` sits at some offset of `s`. */
  lemma {:induction false} ContainsAtOffset(s: string, t: string)
    ensures Contains(s, t) <==> exists k: nat :: OccursAt(s, t, k)
    decreases |s|
  {
    if t <= s {
      assert OccursAt(s, t, 0);
    } else {
      if s != [] {
        ContainsAtOffset(s[1..], t);
        if Contains(s[1..], t) {
          var k: nat :| OccursAt(s[1..], t, k);
          assert s[k + 1..k + 1 + |t|] == s[1..][k..k + |t|];
          assert OccursAt(s, t, k + 1);
        }
      }
      if exists k: nat :: OccursAt(s, t, k) {
        var k: nat :| OccursAt(s, t, k);
        assert k != 0;
        assert s[1..][k - 1..k - 1 + |t|] == s[k..k + |t|];
        assert OccursAt(s[1..], t, k - 1);
      }
    }
  }

  /** A piece that holds a character `s` lacks cannot occur in `s`. */
  lemma {:induction false} MissingCharNotContained(s: string, t: string, c: char)
    requires c in t && c !in s
    ensures !Contains(s, t)
    decreases |s|
  {
    if s != [] {
      MissingCharNotContained(s[1..], t, c);
    }
  }

  /** A lower-case letter that `s` holds in neither case cannot occur in `Lower(s)`, nor can any piece holding it. */
  lemma MissingLetterNotContained(s: string, t: string, c: char)
    requires 'a' <= c <= 'z' && c in t
    requires c !in s && (c as int - 32) as char !in s
    ensures !Contains(Lower(s), t)
  {
    forall i | 0 <= i < |s|
      ensures Lower(s)[i] != c
    {
      assert s[i] in s;
    }
    MissingCharNotContained(Lower(s), t, c);
  }

  lemma OccursAtContains(s: string, t: string, k: nat)
    requires OccursAt(s, t, k)
    ensures Contains(s, t)
  {
    ContainsAtOffset(s, t);
  }

  /** A piece that `s` starts with, once lowered, occurs in `Lower(s)`. */
  lemma LowerPrefixContains(s: string, t: string)
    requires |t| <= |s|
    requires forall i :: 0 <= i < |t| ==> LowerChar(s[i]) == t[i]
    ensures Contains(Lower(s), t)
  {
    assert Lower(s)[..|t|] == t;
  }

  /**
   * `localizedCaseInsensitiveContains`, modelled as ASCII case folding. Like
   * Foundation's, it never finds the empty string.
   */
  predicate ContainsIgnoringCase(s: string, t: string) {
    t != [] && Contains(Lower(s), Lower(t))
  }

  /** How often `c` occurs in `s`. */
  function Occurrences(s: string, c: char): nat
    decreases |s|
  {
    if s == [] then 0
    else Occurrences(s[..|s| - 1], c) + (if s[|s| - 1] == c then 1 else 0)
  }

  lemma {:induction false} OccurrencesAppend(a: string, b: string, c: char)
    ensures Occurrences(a + b, c) == Occurrences(a, c) + Occurrences(b, c)
    decreases |b|
  {
    if b == [] {
      assert a + b == a;
    } else {
      var n := |b| - 1;
      assert (a + b)[..|a + b| - 1] == a + b[..n];
      OccurrencesAppend(a, b[..n], c);
    }
  }

  lemma {:induction false} OccurrencesAbsent(s: string, c: char)
    requires c !in s
    ensures Occurrences(s, c) == 0
    decreases |s|
  {
    if s != [] {
      OccurrencesAbsent(s[..|s| - 1], c);
    }
  }

  /** `parts.joined(separator: "\n")`. */
  function JoinLines(parts: seq<string>): string
    decreases |parts|
  {
    if parts == [] then ""
    else if |parts| == 1 then parts[0]
    else JoinLines(parts[..|parts| - 1]) + "\n" + parts[|parts| - 1]
  }

  /** Appending to the last part of a non-empty list appends to the joined string. */
  lemma JoinLinesExtendLast(parts: seq<string>, p: string, s: string)
    ensures JoinLines(parts + [p + s]) == JoinLines(parts + [p]) + s
  {
    if parts != [] {
      assert (parts + [p + s])[..|parts|] == parts;
      assert (parts + [p])[..|parts|] == parts;
    }
  }

  /** Starting a new (empty) last part appends a line break. */
  lemma JoinLinesNewPart(parts: seq<string>, p: string)
    ensures JoinLines(parts + [p] + [""]) == JoinLines(parts + [p]) + "\n"
  {
    var ps := parts + [p];
    assert (ps + [""])[..|ps|] == ps;
  }
}
