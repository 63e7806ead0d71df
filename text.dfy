/**
 * String helpers used by the dashboard's data layer: ASCII lower-casing
 * (the model of `toLowerCase`), substring search (`includes`), joining and
 * splitting on a separator (`join`) and decimal rendering of counts (the
 * `${n}` of a template literal), each with the partner that pins it down.
 */
module Text {

  // ---------------------------------------------------------------------
  // Lower-casing

  /** `toLowerCase` on one character, restricted to ASCII. */
  function LowerChar(c: char): (r: char)
    ensures 'A' <= c <= 'Z' ==> r as int == c as int + 32
    ensures !('A' <= c <= 'Z') ==> r == c
    ensures !('A' <= r <= 'Z')
  {
    if 'A' <= c <= 'Z' then (c as int + 32) as char else c
  }

  /** `toLowerCase` on a string: character by character. */
  function Lower(s: string): (r: string)
    ensures |r| == |s|
    ensures forall i :: 0 <= i < |s| ==> r[i] == LowerChar(s[i])
  {
    seq(|s|, i requires 0 <= i < |s| => LowerChar(s[i]))
  }

  // ---------------------------------------------------------------------
  // Substring search

  predicate IsPrefix(p: string, s: string) {
    |p| <= |s| && s[..|p|] == p
  }

  /** `s.includes(p)`: `p` occurs in `s` at some position. */
  predicate Contains(s: string, p: string) {
    exists i :: 0 <= i <= |s| - |p| && IsPrefix(p, s[i..])
  }

  /** The empty string occurs in every string. */
  lemma ContainsEmpty(s: string)
    ensures Contains(s, "")
  {
    assert IsPrefix("", s[0..]);
  }

  /** A string never occurs in a shorter one. */
  lemma ContainsLonger(s: string, p: string)
    requires |s| < |p|
    ensures !Contains(s, p)
  {
  }

  // ---------------------------------------------------------------------
  // Join and split

  /** `xs.join(sep)`. */
  function Join(xs: seq<string>, sep: string): (r: string)
    ensures |xs| == 0 ==> r == ""
    ensures |xs| == 1 ==> r == xs[0]
  {
    if |xs| == 0 then ""
    else if |xs| == 1 then xs[0]
    else xs[0] + sep + Join(xs[1..], sep)
  }

  predicate Free(s: string, c: char) {
    forall i :: 0 <= i < |s| ==> s[i] != c
  }

  /** Every element is free of `c` and so is the separator: the join is too. */
  lemma {:induction false} JoinFree(xs: seq<string>, sep: string, c: char)
    requires forall k :: 0 <= k < |xs| ==> Free(xs[k], c)
    requires Free(sep, c)
    ensures Free(Join(xs, sep), c)
  {
    if |xs| > 1 {
      JoinFree(xs[1..], sep, c);
      var rest := Join(xs[1..], sep);
      assert Join(xs, sep) == xs[0] + sep + rest;
      forall i | 0 <= i < |Join(xs, sep)| ensures Join(xs, sep)[i] != c {
        if i < |xs[0]| {
          assert Join(xs, sep)[i] == xs[0][i];
        } else if i < |xs[0]| + |sep| {
          assert Join(xs, sep)[i] == sep[i - |xs[0]|];
        } else {
          assert Join(xs, sep)[i] == rest[i - |xs[0]| - |sep|];
        }
      }
    }
  }

  /** Index of the first `c` in `s`, or |s| when there is none. */
  function FirstIndex(s: string, c: char): (k: nat)
    ensures k <= |s|
    ensures k < |s| ==> s[k] == c
    ensures forall i :: 0 <= i < k ==> s[i] != c
  {
    if |s| == 0 then 0
    else if s[0] == c then 0
    else 1 + FirstIndex(s[1..], c)
  }

  /** Split `s` at every `c`; the inverse of joining with the one-character separator `[c]`. */
  function Split(s: string, c: char): (r: seq<string>)
    ensures |r| >= 1
    decreases |s|
  {
    var k := FirstIndex(s, c);
    if k == |s| then [s] else [s[..k]] + Split(s[k + 1..], c)
  }

  lemma {:induction false} FirstIndexOfJoin(x: string, rest: string, c: char)
    requires Free(x, c)
    ensures FirstIndex(x + [c] + rest, c) == |x|
  {
    if |x| > 0 {
      assert (x + [c] + rest)[1..] == x[1..] + [c] + rest;
      FirstIndexOfJoin(x[1..], rest, c);
    }
  }

  lemma {:induction false} FirstIndexOfFree(x: string, c: char)
    requires Free(x, c)
    ensures FirstIndex(x, c) == |x|
  {
    if |x| > 0 {
      FirstIndexOfFree(x[1..], c);
    }
  }

  /** Joining elements free of `c` with `c` and splitting at `c` gives them back. */
  lemma {:induction false} SplitJoin(xs: seq<string>, c: char)
    requires |xs| >= 1
    requires forall k :: 0 <= k < |xs| ==> Free(xs[k], c)
    ensures Split(Join(xs, [c]), c) == xs
  {
    if |xs| == 1 {
      FirstIndexOfFree(xs[0], c);
    } else {
      var rest := Join(xs[1..], [c]);
      var s := Join(xs, [c]);
      assert s == xs[0] + [c] + rest;
      FirstIndexOfJoin(xs[0], rest, c);
      assert s[..|xs[0]|] == xs[0];
      assert s[|xs[0]| + 1..] == rest;
      SplitJoin(xs[1..], c);
      assert [xs[0]] + xs[1..] == xs;
    }
  }

  // ---------------------------------------------------------------------
  // Decimal numbers

  function DigitChar(d: nat): (c: char)
    requires d < 10
    ensures '0' <= c <= '9'
  {
    ('0' as int + d) as char
  }

  function DigitValue(c: char): nat
  {
    if '0' <= c <= '9' then c as int - '0' as int else 0
  }

  predicate IsDigits(s: string) {
    forall i :: 0 <= i < |s| ==> '0' <= s[i] <= '9'
  }

  /** The decimal rendering of a count, as in the `${n}` of a template literal. */
  function NatToString(n: nat): (r: string)
    ensures |r| >= 1 && IsDigits(r)
  {
    if n < 10 then [DigitChar(n)] else NatToString(n / 10) + [DigitChar(n % 10)]
  }

  /** Reads a string of decimal digits back as a number. */
  function ParseNat(s: string): nat
  {
    if |s| == 0 then 0 else ParseNat(s[..|s| - 1]) * 10 + DigitValue(s[|s| - 1])
  }

  /** Parsing the rendering of `n` gives `n` back. */
  lemma {:induction false} ParseNatToString(n: nat)
    ensures ParseNat(NatToString(n)) == n
  {
    if n >= 10 {
      var s := NatToString(n);
      assert s[..|s| - 1] == NatToString(n / 10);
      ParseNatToString(n / 10);
    }
  }
}
