/** Strings as the sorter uses them: ASCII lowercasing (standing in for
    Python's `str.lower`) and Python's ordering of `str` values, which compares
    code points left to right and puts a proper prefix first. */
module Text {

  /** `c` is an upper-case ASCII letter. */
  predicate IsUpper(c: char)
  {
    'A' <= c <= 'Z'
  }

  /** The result is never an upper-case letter, and only upper-case letters
      change. */
  function LowerChar(c: char): (r: char)
    ensures !IsUpper(r)
    ensures r != c <==> IsUpper(c)
  {
    if IsUpper(c) then (c as int + 32) as char else c
  }

  /** ASCII lowercasing: same length, every letter A-Z replaced by a-z, every
      other character kept. */
  function Lower(s: string): (r: string)
    ensures |r| == |s|
    ensures forall i | 0 <= i < |s| :: r[i] == LowerChar(s[i])
  {
    seq(|s|, i requires 0 <= i < |s| => LowerChar(s[i]))
  }

  /** Lowercasing twice is lowercasing once. */
  lemma LowerIdempotent(s: string)
    ensures Lower(Lower(s)) == Lower(s)
  {
    assert forall i | 0 <= i < |s| :: Lower(Lower(s))[i] == Lower(s)[i];
  }

  /** Python's `a <= b` on strings: a prefix is below every extension of
      it, and nothing but "" is below "". */
  predicate LessEq(a: string, b: string)
    ensures a <= b ==> LessEq(a, b)
    ensures b == [] ==> (LessEq(a, b) <==> a == [])
    decreases |a|
  {
    a == [] || (b != [] && (a[0] < b[0] || (a[0] == b[0] && LessEq(a[1..], b[1..]))))
  }

  lemma {:induction false} LessEqReflexive(a: string)
    ensures LessEq(a, a)
    decreases |a|
  {
    if a != [] {
      LessEqReflexive(a[1..]);
    }
  }

  lemma {:induction false} LessEqTotal(a: string, b: string)
    ensures LessEq(a, b) || LessEq(b, a)
    decreases |a|
  {
    if a != [] && b != [] && a[0] == b[0] {
      LessEqTotal(a[1..], b[1..]);
    }
  }

  lemma {:induction false} LessEqAntisymmetric(a: string, b: string)
    requires LessEq(a, b) && LessEq(b, a)
    ensures a == b
    decreases |a|
  {
    if a != [] {
      LessEqAntisymmetric(a[1..], b[1..]);
      assert a == [a[0]] + a[1..] && b == [b[0]] + b[1..];
    }
  }

  lemma {:induction false} LessEqTransitive(a: string, b: string, c: string)
    requires LessEq(a, b) && LessEq(b, c)
    ensures LessEq(a, c)
    decreases |a|
  {
    if a != [] && a[0] == b[0] && b[0] == c[0] {
      LessEqTransitive(a[1..], b[1..], c[1..]);
    }
  }

  /** The empty string is below every string, and only the empty string is
      below it. */
  lemma EmptyIsLeast(a: string)
    ensures LessEq("", a)
    ensures LessEq(a, "") <==> a == ""
  {
  }
}
