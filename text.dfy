/** The two `java.lang.String` operations the method-name dispatch relies on:
    `toUpperCase` (restricted to ASCII letters) and `contains`. */
module Text {

  /** Upper-case one character: the ASCII letters a..z map to A..Z, everything else is kept. */
  function UpperChar(c: char): char
  {
    if 'a' <= c <= 'z' then (c as int - 32) as char else c
  }

  /** Lower-case one character: the ASCII letters A..Z map to a..z, everything else is kept. */
  function LowerChar(c: char): char
  {
    if 'A' <= c <= 'Z' then (c as int + 32) as char else c
  }

  /** `s.toUpperCase()`: every character upper-cased in place. */
  function ToUpper(s: string): string
  {
    seq(|s|, i requires 0 <= i < |s| => UpperChar(s[i]))
  }

  /** `s.toLowerCase()`: every character lower-cased in place. */
  function ToLower(s: string): string
  {
    seq(|s|, i requires 0 <= i < |s| => LowerChar(s[i]))
  }

  /** `t` occurs in `s` starting at index `i`. */
  predicate OccursAt(s: string, t: string, i: int)
  {
    0 <= i && i + |t| <= |s| && s[i..i + |t|] == t
  }

  /** `s.contains(t)`: `t` occurs somewhere in `s`. */
  predicate Contains(s: string, t: string)
  {
    exists i | 0 <= i <= |s| - |t| :: OccursAt(s, t, i)
  }

  /** Upper-casing twice is upper-casing once. */
  lemma ToUpperIdempotent(s: string)
    ensures ToUpper(ToUpper(s)) == ToUpper(s)
  {
  }

  /** Lower-casing first changes nothing once the result is upper-cased. */
  lemma ToUpperOfLower(s: string)
    ensures ToUpper(ToLower(s)) == ToUpper(s)
  {
  }

  /** `u` is the upper-cased form of `s` when it upper-cases `s` character by character. */
  lemma UpperOf(s: string, u: string)
    requires |s| == |u|
    requires forall i :: 0 <= i < |s| ==> UpperChar(s[i]) == u[i]
    ensures ToUpper(s) == u
  {
  }

  /** A two-character `t` occurs at `i` when its characters stand at `i` and `i + 1`. */
  lemma OccursAtPair(s: string, t: string, i: nat)
    requires |t| == 2 && i + 1 < |s| && s[i] == t[0] && s[i + 1] == t[1]
    ensures OccursAt(s, t, i)
  {
    assert s[i..i + 2] == [s[i], s[i + 1]];
  }

  /** An occurrence of `t` begins with the first two characters of `t`. */
  lemma OccurrenceStartsWith(s: string, t: string, i: int)
    ensures OccursAt(s, t, i) && |t| >= 2 ==> s[i] == t[0] && s[i + 1] == t[1]
  {
    if OccursAt(s, t, i) && |t| >= 2 {
      assert s[i..i + |t|][0] == s[i] && s[i..i + |t|][1] == s[i + 1];
    }
  }

  /** `t` (at least two characters long) is not contained in `s` when its first two
      characters never stand next to each other in `s`. */
  lemma AbsentPair(s: string, t: string)
    requires |t| >= 2
    requires forall i :: 0 <= i < |s| - 1 ==> s[i] != t[0] || s[i + 1] != t[1]
    ensures !Contains(s, t)
  {
    forall i | OccursAt(s, t, i) ensures false {
      OccurrenceStartsWith(s, t, i);
    }
  }

  /** Every character of an occurrence of `t` stands at its offset from the start. */
  lemma OccurrenceHas(s: string, t: string, i: int, k: int)
    ensures OccursAt(s, t, i) && 0 <= k < |t| ==> s[i + k] == t[k]
  {
    if OccursAt(s, t, i) && 0 <= k < |t| {
      assert s[i..i + |t|][k] == s[i + k];
    }
  }

  /** `t` is not contained in `s` when one of its characters does not occur in `s` at all. */
  lemma AbsentLetter(s: string, t: string, k: nat)
    requires k < |t| && t[k] !in s
    ensures !Contains(s, t)
  {
    forall i | OccursAt(s, t, i) ensures false {
      OccurrenceHas(s, t, i, k);
    }
  }
}
