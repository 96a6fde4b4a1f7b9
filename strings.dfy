/** Substring search over strings, as JavaScript's `String.prototype.includes`
    performs it: the resolver's every decision is one such test. */
module Strings {

  /** `sub` occurs in `s` starting at index `i`. */
  ghost predicate OccursAt(s: string, sub: string, i: nat) {
    i + |sub| <= |s| && s[i..i + |sub|] == sub
  }

  predicate StartsWith(s: string, prefix: string) {
    |prefix| <= |s| && forall k :: 0 <= k < |prefix| ==> s[k] == prefix[k]
  }

  /** `s.includes(sub)`: scans `s` from the left for an occurrence of `sub`.
      The empty string is included in every string. */
  predicate Includes(s: string, sub: string)
    decreases |s|
  {
    if |s| < |sub| then false
    else if StartsWith(s, sub) then true
    else Includes(s[1..], sub)
  }

  /** The scan finds `sub` exactly when `sub` occurs somewhere in `s`. */
  lemma {:induction false} IncludesIff(s: string, sub: string)
    ensures Includes(s, sub) <==> exists i: nat :: OccursAt(s, sub, i)
    decreases |s|
  {
    if |s| < |sub| {
      forall i: nat ensures !OccursAt(s, sub, i) { }
    } else {
      OccursAtStart(s, sub);
      if !StartsWith(s, sub) {
        IncludesIff(s[1..], sub);
        forall i: nat | OccursAt(s[1..], sub, i) ensures OccursAt(s, sub, i + 1) {
          OccursAtShift(s, sub, i + 1);
        }
        forall i: nat | 0 < i && OccursAt(s, sub, i) ensures OccursAt(s[1..], sub, i - 1) {
          OccursAtShift(s, sub, i);
        }
      }
    }
  }

  /** An occurrence at the start is a prefix. */
  lemma OccursAtStart(s: string, sub: string)
    ensures OccursAt(s, sub, 0) <==> StartsWith(s, sub)
  {
    if |sub| <= |s| {
      assert forall k :: 0 <= k < |sub| ==> s[..|sub|][k] == s[k];
    }
  }

  /** Dropping the first character moves every later occurrence one place left. */
  lemma OccursAtShift(s: string, sub: string, i: nat)
    requires 0 < i && 0 < |s|
    ensures OccursAt(s, sub, i) <==> OccursAt(s[1..], sub, i - 1)
  {
    if i + |sub| <= |s| {
      assert s[1..][i - 1..i - 1 + |sub|] == s[i..i + |sub|];
    }
  }

  /** An occurrence at a known index is found by the scan. */
  lemma IncludesAt(s: string, sub: string, i: nat)
    requires OccursAt(s, sub, i)
    ensures Includes(s, sub)
  {
    IncludesIff(s, sub);
  }

  /** Every character of an included string occurs in the including one. */
  lemma IncludedCharsOccur(s: string, sub: string)
    ensures Includes(s, sub) ==> forall c :: c in sub ==> c in s
  {
    IncludesIff(s, sub);
    if Includes(s, sub) {
      var i: nat :| OccursAt(s, sub, i);
      forall c | c in sub ensures c in s {
        var j :| 0 <= j < |sub| && sub[j] == c;
        assert s[i..i + |sub|][j] == s[i + j];
      }
    }
  }

  /** A string lacking a character of `sub` does not include `sub`. */
  lemma ExcludedByChar(s: string, sub: string, c: char)
    requires c in sub && c !in s
    ensures !Includes(s, sub)
  {
    IncludedCharsOccur(s, sub);
  }
}
