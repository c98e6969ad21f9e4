/** Small string helpers with the meaning of the Python built-ins the agent relies on:
    `str(n)` for a natural number, `sep.join(xs)` and `s.split(c)`. */
module Util {

  datatype Option<+T> = None | Some(value: T)

  /** The outcome of an operation that either yields a value or raises an exception whose
      text is `message`. */
  datatype Try<+T> = Ok(value: T) | Err(message: string)

  /** `xs` is a prefix of `ys`. */
  predicate IsPrefix<T(==)>(xs: seq<T>, ys: seq<T>)
  {
    |xs| <= |ys| && ys[..|xs|] == xs
  }

  /** The decimal digit for 0 <= d < 10. */
  function Digit(d: nat): (c: char)
    requires d < 10
    ensures '0' <= c <= '9'
  {
    "0123456789"[d]
  }

  /** The value of a string of decimal digits (the inverse of `NatToString`). */
  function DigitsValue(s: string): nat
    requires forall i :: 0 <= i < |s| ==> '0' <= s[i] <= '9'
  {
    if s == [] then 0 else 10 * DigitsValue(s[..|s| - 1]) + (s[|s| - 1] as int - '0' as int)
  }

  /** Python's `str(n)` for a natural number: its decimal digits, no sign and no leading zero. */
  function NatToString(n: nat): (s: string)
    ensures |s| >= 1
    ensures forall i :: 0 <= i < |s| ==> '0' <= s[i] <= '9'
    ensures |s| > 1 ==> s[0] != '0'
    decreases n
  {
    if n < 10 then [Digit(n)] else NatToString(n / 10) + [Digit(n % 10)]
  }

  /** Reading the digits back gives the number: `int(str(n)) == n`. */
  lemma {:induction false} NatToStringRoundTrip(n: nat)
    ensures DigitsValue(NatToString(n)) == n
    decreases n
  {
    DigitRoundTrip(n % 10);
    if n >= 10 {
      var q, r := n / 10, n % 10;
      var s := NatToString(n);
      assert s == NatToString(q) + [Digit(r)];
      assert s[..|s| - 1] == NatToString(q);
      NatToStringRoundTrip(q);
      assert DigitsValue(s) == 10 * q + r;
    }
  }

  /** A digit's character code, less the code of `0`, is the digit. */
  lemma DigitRoundTrip(d: nat)
    requires d < 10
    ensures Digit(d) as int - '0' as int == d
  {
    if d < 5 {
      if d == 0 {} else if d == 1 {} else if d == 2 {} else if d == 3 {} else {}
    } else {
      if d == 5 {} else if d == 6 {} else if d == 7 {} else if d == 8 {} else {}
    }
  }

  lemma NotInConcat<T>(x: T, a: seq<T>, b: seq<T>)
    requires x !in a && x !in b
    ensures x !in a + b
  {
  }

  /** Python's `sep.join(xs)`. */
  function JoinWith(sep: string, xs: seq<string>): string
  {
    if |xs| == 0 then "" else if |xs| == 1 then xs[0] else xs[0] + sep + JoinWith(sep, xs[1..])
  }

  /** Python's `s.split(c)` for a single-character separator. */
  function SplitOn(s: string, c: char): (r: seq<string>)
    ensures |r| >= 1
    ensures forall i :: 0 <= i < |r| ==> c !in r[i]
    decreases |s|
  {
    if |s| == 0 then
      [""]
    else
      var rest := SplitOn(s[1..], c);
      if s[0] == c then [""] + rest else [[s[0]] + rest[0]] + rest[1..]
  }

  /** Joining pieces that do not contain `c` with `c`, then splitting on `c`, gives the pieces back. */
  lemma {:induction false} JoinSplit(xs: seq<string>, c: char)
    requires |xs| >= 1
    requires forall i :: 0 <= i < |xs| ==> c !in xs[i]
    ensures SplitOn(JoinWith([c], xs), c) == xs
    decreases |xs|
  {
    if |xs| == 1 {
      NoSepSplit(xs[0], c);
    } else {
      JoinSplit(xs[1..], c);
      SplitAfterPiece(xs[0], JoinWith([c], xs[1..]), c);
      assert JoinWith([c], xs) == xs[0] + [c] + JoinWith([c], xs[1..]);
      assert [xs[0]] + xs[1..] == xs;
    }
  }

  /** A string without the separator splits into itself. */
  lemma {:induction false} NoSepSplit(s: string, c: char)
    requires c !in s
    ensures SplitOn(s, c) == [s]
    decreases |s|
  {
    if |s| > 0 {
      assert c !in s[1..] by {
        forall i | 0 <= i < |s[1..]| ensures s[1..][i] != c { assert s[1..][i] == s[i + 1]; }
      }
      NoSepSplit(s[1..], c);
      assert [s[0]] + s[1..] == s;
    }
  }

  /** Splitting `p + [c] + t`, where `p` does not contain `c`, gives `p` followed by the pieces of `t`. */
  lemma {:induction false} SplitAfterPiece(p: string, t: string, c: char)
    requires c !in p
    ensures SplitOn(p + [c] + t, c) == [p] + SplitOn(t, c)
    decreases |p|
  {
    if |p| == 0 {
      assert (p + [c] + t)[1..] == t;
    } else {
      assert c !in p[1..] by {
        forall i | 0 <= i < |p[1..]| ensures p[1..][i] != c { assert p[1..][i] == p[i + 1]; }
      }
      SplitAfterPiece(p[1..], t, c);
      assert (p + [c] + t)[1..] == p[1..] + [c] + t;
      assert [p[0]] + p[1..] == p;
    }
  }

  /** `JoinWith` over a concatenation of two non-empty lists puts one separator between the two joins. */
  lemma {:induction false} JoinWithAppend(sep: string, xs: seq<string>, ys: seq<string>)
    requires |xs| >= 1 && |ys| >= 1
    ensures JoinWith(sep, xs + ys) == JoinWith(sep, xs) + sep + JoinWith(sep, ys)
    decreases |xs|
  {
    if |xs| == 1 {
      assert (xs + ys)[1..] == ys;
    } else {
      assert (xs + ys)[1..] == xs[1..] + ys;
      JoinWithAppend(sep, xs[1..], ys);
    }
  }
}
