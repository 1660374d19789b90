/**
 * The few JavaScript built-ins the ledger relies on, on exact numbers and on
 * strings as sequences of Unicode scalar values: `Math.round`, `Math.ceil`,
 * `String.prototype.toLowerCase` and `String.prototype.includes`.
 */
module JsBuiltins {

  /** `Math.round`: the nearest integer, a half rounded toward +infinity
      (so 2.5 gives 3 and -2.5 gives -2). */
  function Round(x: real): (r: int)
    ensures r as real - 0.5 <= x < r as real + 0.5
  {
    (x + 0.5).Floor
  }

  /** `Math.ceil`: the least integer not below `x`. */
  function Ceil(x: real): (r: int)
    ensures x <= r as real < x + 1.0
  {
    -((-x).Floor)
  }

  /** Halves go up, whatever the sign: this is where `Math.round` differs
      from rounding half away from zero and from rounding half to even. */
  lemma RoundHalfUp(n: int)
    ensures Round(n as real + 0.5) == n + 1
    ensures Round(n as real - 0.5) == n
  {
  }

  /** Shifting the argument by a whole number shifts `Math.round` by it. */
  lemma RoundShift(x: real, n: int)
    ensures Round(x + n as real) == Round(x) + n
  {
  }

  /** The upper-case letters `toLowerCase` changes in this model: the ASCII
      letters and the Latin-1 capitals from U+00C0 to U+00DE except U+00D7. */
  predicate IsUpper(c: char)
  {
    ('A' <= c <= 'Z') || ('\U{C0}' <= c <= '\U{DE}' && c != '\U{D7}')
  }

  function LowerChar(c: char): (r: char)
    ensures !IsUpper(r)
    ensures !IsUpper(c) ==> r == c
    ensures IsUpper(c) ==> r as int == c as int + 32
  {
    if IsUpper(c) then (c as int + 32) as char else c
  }

  /** `toLowerCase`, one character at a time. */
  function ToLower(s: string): (r: string)
    ensures |r| == |s|
  {
    if s == [] then [] else [LowerChar(s[0])] + ToLower(s[1..])
  }

  /** Every character is lowered on its own, in its place. */
  lemma {:induction false} ToLowerAt(s: string)
    ensures forall i :: 0 <= i < |s| ==> ToLower(s)[i] == LowerChar(s[i])
  {
    if s != [] {
      ToLowerAt(s[1..]);
      assert forall i :: 1 <= i < |s| ==> ToLower(s)[i] == ToLower(s[1..])[i - 1];
    }
  }

  /** `p` is found in `s` starting at index `k`. */
  predicate OccursAt(s: string, p: string, k: nat)
  {
    k + |p| <= |s| && s[k..k + |p|] == p
  }

  /** `s.includes(p)`: `p` is a prefix of `s` or of one of its suffixes. */
  function Includes(s: string, p: string): (r: bool)
    ensures r ==> |p| <= |s|
    ensures p == [] ==> r
    decreases |s|
  {
    |p| <= |s| && (s[..|p|] == p || Includes(s[1..], p))
  }

  /** `s.includes(p)` holds exactly when `p` occurs as a contiguous
      substring of `s`. */
  lemma {:induction false} IncludesIff(s: string, p: string)
    ensures Includes(s, p) <==> exists k: nat :: OccursAt(s, p, k)
    decreases |s|
  {
    if |p| > |s| {
      assert forall k: nat :: !OccursAt(s, p, k);
    } else if s[..|p|] == p {
      assert OccursAt(s, p, 0);
    } else {
      ShiftOccurrence(s, p);
      IncludesIff(s[1..], p);
    }
  }

  /** An occurrence in `s` past the first index is an occurrence in `s[1..]`,
      and the other way round. */
  lemma ShiftOccurrence(s: string, p: string)
    requires |s| > 0 && !OccursAt(s, p, 0)
    ensures (exists k: nat :: OccursAt(s, p, k)) <==> (exists k: nat :: OccursAt(s[1..], p, k))
  {
    forall k: nat | OccursAt(s, p, k)
      ensures k > 0 && OccursAt(s[1..], p, k - 1)
    {
      assert s[1..][k - 1..k - 1 + |p|] == s[k..k + |p|];
    }
    forall k: nat | OccursAt(s[1..], p, k)
      ensures OccursAt(s, p, k + 1)
    {
      assert s[1..][k..k + |p|] == s[k + 1..k + 1 + |p|];
    }
  }

  /** A string that lacks one of the characters of `p` cannot include `p`. */
  lemma MissingCharExcludes(s: string, p: string, c: char)
    requires c in p && c !in s
    ensures !Includes(s, p)
  {
    IncludesIff(s, p);
  }

  /** Only 'è' and 'È' lower to 'è'. */
  lemma {:induction false} LowerKeepsGraveAbsent(s: string)
    requires '\U{E8}' !in s && '\U{C8}' !in s
    ensures '\U{E8}' !in ToLower(s)
  {
    var t := ToLower(s);
    ToLowerAt(s);
    forall i | 0 <= i < |t|
      ensures t[i] != '\U{E8}'
    {
      assert t[i] == LowerChar(s[i]);
    }
  }
}
