/**
 * Decimal rendering of identifiers (`format!("{}", n)`) and the relative
 * paths the workspace is laid out with.
 */
module Paths {

  predicate IsDigit(c: char) {
    '0' <= c <= '9'
  }

  function DigitChar(d: nat): (c: char)
    requires d < 10
    ensures IsDigit(c) && DigitValue(c) == d
  {
    (48 + d) as char
  }

  function DigitValue(c: char): nat
    requires IsDigit(c)
  {
    (c as int) - 48
  }

  /** `format!("{}", n)` for an unsigned integer: no sign, no leading zero. */
  function Decimal(n: nat): (r: string)
    ensures |r| > 0 && (forall i :: 0 <= i < |r| ==> IsDigit(r[i]))
    ensures |r| > 1 ==> r[0] != '0'
  {
    if n < 10 then [DigitChar(n)] else Decimal(n / 10) + [DigitChar(n % 10)]
  }

  /** Reads a string of digits back as a number. */
  function ParseDecimal(s: string): nat
    requires forall i :: 0 <= i < |s| ==> IsDigit(s[i])
  {
    if s == [] then 0 else 10 * ParseDecimal(s[..|s| - 1]) + DigitValue(s[|s| - 1])
  }

  lemma {:induction false} DecimalRoundTrip(n: nat)
    ensures ParseDecimal(Decimal(n)) == n
  {
    if n >= 10 {
      var s := Decimal(n);
      assert s[..|s| - 1] == Decimal(n / 10);
      DecimalRoundTrip(n / 10);
    }
  }

  /** Distinct numbers get distinct names. */
  lemma DecimalInjective(a: nat, b: nat)
    requires Decimal(a) == Decimal(b)
    ensures a == b
  {
    DecimalRoundTrip(a);
    DecimalRoundTrip(b);
  }

  /** `Path::join` for a relative, non-empty component. */
  function Join(dir: string, name: string): string {
    dir + "/" + name
  }

  /** `format!("problems/{}", problem_id)`. */
  function ProblemDir(id: nat): string {
    "problems/" + Decimal(id)
  }

  /** `format!("{}/testcases", problem_dir)`. */
  function TestcasesDir(problemDir: string): string {
    Join(problemDir, "testcases")
  }

  /** A prefix cancels from both sides of an equation. */
  lemma CancelPrefix(p: string, a: string, b: string)
    requires p + a == p + b
    ensures a == b
  {
    assert a == (p + a)[|p|..];
    assert b == (p + b)[|p|..];
  }

  /** A suffix cancels from both sides of an equation. */
  lemma CancelSuffix(a: string, b: string, q: string)
    requires a + q == b + q
    ensures a == b
  {
    assert a == (a + q)[..|a|];
    assert b == (b + q)[..|b|];
  }

  lemma ProblemDirInjective(a: nat, b: nat)
    requires ProblemDir(a) == ProblemDir(b)
    ensures a == b
  {
    CancelPrefix("problems/", Decimal(a), Decimal(b));
    DecimalInjective(a, b);
  }
}
