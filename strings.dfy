/** The few string operations of Python's `str` the launcher relies on. */
module Strings {

  predicate IsLower(c: char) {
    'a' <= c <= 'z'
  }

  /** `c.upper()` for ASCII letters; every other character is kept. */
  function UpperChar(c: char): (u: char)
    ensures !IsLower(u)
    ensures IsLower(c) ==> u as int == c as int - 32
    ensures !IsLower(c) ==> u == c
  {
    if IsLower(c) then (c as int - 32) as char else c
  }

  /** `s.upper()`: the same string with every lower-case ASCII letter made upper-case. */
  function Upper(s: string): (u: string)
    ensures |u| == |s|
    ensures forall i :: 0 <= i < |s| ==> u[i] == UpperChar(s[i])
  {
    if s == [] then [] else [UpperChar(s[0])] + Upper(s[1..])
  }

  /** `s.lstrip(c)`: `s` without its leading run of the character `c`. */
  function LStrip(s: string, c: char): (r: string)
    ensures |r| <= |s| && r == s[|s| - |r|..]
    ensures r == [] || r[0] != c
    ensures forall i :: 0 <= i < |s| - |r| ==> s[i] == c
  {
    if s != [] && s[0] == c then LStrip(s[1..], c) else s
  }

  /** A run of `k` copies of `c`. */
  function Repeat(c: char, k: nat): (s: string)
    ensures |s| == k && forall i :: 0 <= i < k ==> s[i] == c
  {
    seq(k, _ => c)
  }

  /** Stripping removes exactly a leading run of `c` and nothing the caller wrote after it. */
  lemma {:induction false} LStripRun(c: char, k: nat, t: string)
    requires t == [] || t[0] != c
    ensures LStrip(Repeat(c, k) + t, c) == t
  {
    if k > 0 {
      assert (Repeat(c, k) + t)[1..] == Repeat(c, k - 1) + t;
      LStripRun(c, k - 1, t);
    } else {
      assert Repeat(c, k) + t == t;
    }
  }
}
