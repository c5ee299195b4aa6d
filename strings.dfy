/** String helpers with Python's meaning: `str.join`, `str(n)` for a
    natural number, `os.path.basename`, negative slicing `s[-n:]`. */
module Strings {

  /** `x` occurs in `s` as a contiguous piece. */
  ghost predicate Occurs(x: string, s: string) {
    exists k :: 0 <= k <= |s| && x <= s[k..]
  }

  /** `sep.join(xs)`. */
  function Join(sep: string, xs: seq<string>): string
  {
    if |xs| == 0 then ""
    else if |xs| == 1 then xs[0]
    else xs[0] + sep + Join(sep, xs[1..])
  }

  lemma OccursAsPrefix(x: string, t: string)
    ensures Occurs(x, x + t)
  {
    assert x <= (x + t)[0..];
  }

  lemma OccursInSuffix(x: string, p: string, s: string)
    requires Occurs(x, s)
    ensures Occurs(x, p + s)
  {
    var k :| 0 <= k <= |s| && x <= s[k..];
    assert (p + s)[|p| + k..] == s[k..];
  }

  /** `sep.join(xs)` drops no entry: each one occurs in the joined text. */
  lemma {:induction false} JoinContainsEach(sep: string, xs: seq<string>, i: nat)
    requires i < |xs|
    ensures Occurs(xs[i], Join(sep, xs))
  {
    if |xs| == 1 {
      assert xs[0] + "" == xs[0];
      OccursAsPrefix(xs[0], "");
    } else if i == 0 {
      OccursAsPrefix(xs[0], sep + Join(sep, xs[1..]));
      assert xs[0] + sep + Join(sep, xs[1..]) == xs[0] + (sep + Join(sep, xs[1..]));
    } else {
      JoinContainsEach(sep, xs[1..], i - 1);
      OccursInSuffix(xs[i], xs[0] + sep, Join(sep, xs[1..]));
    }
  }

  /** Joining one piece more: `sep.join(xs + [x])`. */
  lemma {:induction false} JoinSnoc(sep: string, xs: seq<string>, x: string)
    ensures Join(sep, xs + [x]) == if |xs| == 0 then x else Join(sep, xs) + sep + x
  {
    if |xs| == 0 {
      assert xs + [x] == [x];
    } else if |xs| == 1 {
      assert (xs + [x])[1..] == [x];
    } else {
      assert (xs + [x])[1..] == xs[1..] + [x];
      JoinSnoc(sep, xs[1..], x);
    }
  }

  function DigitChar(d: nat): (c: char)
    requires d < 10
    ensures '0' <= c <= '9'
    ensures c as int - '0' as int == d
  {
    ('0' as int + d) as char
  }

  /** The number a run of decimal digits spells, most significant digit first. */
  function DecimalValue(s: string): int
  {
    if |s| == 0 then 0 else 10 * DecimalValue(s[..|s| - 1]) + (s[|s| - 1] as int - '0' as int)
  }

  /** `str(n)` for a natural number: its decimal digits, without leading zeros. */
  function NatToString(n: nat): (s: string)
    ensures |s| >= 1
    ensures forall i :: 0 <= i < |s| ==> '0' <= s[i] <= '9'
    ensures n >= 10 ==> |s| >= 2
    ensures s[0] != '0' || n == 0
    ensures DecimalValue(s) == n
  {
    if n < 10 then [DigitChar(n)]
    else
      var p := NatToString(n / 10);
      assert (p + [DigitChar(n % 10)])[..|p|] == p;
      p + [DigitChar(n % 10)]
  }

  lemma DigitCharInjective(a: nat, b: nat)
    requires a < 10 && b < 10 && DigitChar(a) == DigitChar(b)
    ensures a == b
  {
  }

  /** Different numbers print differently, so dotted step numbers never collide. */
  lemma {:induction false} NatToStringInjective(a: nat, b: nat)
    requires NatToString(a) == NatToString(b)
    ensures a == b
  {
    var s := NatToString(a);
    if a < 10 && b < 10 {
      DigitCharInjective(a, b);
    } else if a >= 10 && b >= 10 {
      assert s[|s| - 1] == DigitChar(a % 10) && s[|s| - 1] == DigitChar(b % 10);
      DigitCharInjective(a % 10, b % 10);
      assert NatToString(a / 10) == s[..|s| - 1] == NatToString(b / 10);
      NatToStringInjective(a / 10, b / 10);
    }
  }

  /** `os.path.basename(p)`: the text after the last `/`. */
  function Basename(p: string): (r: string)
    ensures '/' !in r
    ensures |r| <= |p| && r == p[|p| - |r|..]
    ensures |r| < |p| ==> p[|p| - |r| - 1] == '/'
  {
    if |p| == 0 then ""
    else if p[|p| - 1] == '/' then ""
    else Basename(p[..|p| - 1]) + [p[|p| - 1]]
  }

  /** A name without `/` is its own basename. */
  lemma {:induction false} BasenameOfPlainName(p: string)
    requires '/' !in p
    ensures Basename(p) == p
  {
    if |p| > 0 {
      BasenameOfPlainName(p[..|p| - 1]);
      assert p[..|p| - 1] + [p[|p| - 1]] == p;
    }
  }

  /** `s[-n:]` for a positive `n`: the last `n` characters, or all of `s` when it is shorter. */
  function LastN(s: string, n: nat): (r: string)
    requires n > 0
    ensures |r| == if |s| <= n then |s| else n
    ensures s == s[..|s| - |r|] + r
  {
    if |s| <= n then s else s[|s| - n..]
  }
}
