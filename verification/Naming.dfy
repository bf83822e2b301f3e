/** Zero-padded names of directories and quarantine entries, and why no two of them collide. */
module Naming {

  function Digit(d: nat): char
    requires d < 10
  {
    "0123456789"[d]
  }

  function DigitValue(c: char): nat {
    if '0' <= c <= '9' then (c as int) - ('0' as int) else 0
  }

  function Digits(n: nat): string {
    if n < 10 then [Digit(n)] else Digits(n / 10) + [Digit(n % 10)]
  }

  function Zeros(k: nat): string {
    if k == 0 then "" else "0" + Zeros(k - 1)
  }

  /** The format `{n:0wd}`: at least `width` digits, more when the number needs them. */
  function Pad(n: nat, width: nat): string {
    var d := Digits(n);
    if |d| < width then Zeros(width - |d|) + d else d
  }

  /** Reads a digit string back. */
  function Value(s: string): nat {
    if s == "" then 0 else 10 * Value(s[..|s| - 1]) + DigitValue(s[|s| - 1])
  }

  lemma {:induction false} ValueOfDigits(n: nat)
    ensures Value(Digits(n)) == n
  {
    if n >= 10 {
      var s := Digits(n);
      assert s[..|s| - 1] == Digits(n / 10);
      ValueOfDigits(n / 10);
    }
  }

  lemma {:induction false} ValueSkipsZeros(k: nat, s: string)
    ensures Value(Zeros(k) + s) == Value(s)
    decreases k + |s|
  {
    var t := Zeros(k) + s;
    if s != "" {
      assert t[..|t| - 1] == Zeros(k) + s[..|s| - 1];
      ValueSkipsZeros(k, s[..|s| - 1]);
    } else if k > 0 {
      assert t == Zeros(k);
      ZerosSnoc(k - 1);
      assert t[..|t| - 1] == Zeros(k - 1) + "";
      ValueSkipsZeros(k - 1, "");
    } else {
      assert t == s;
    }
  }

  lemma {:induction false} ZerosSnoc(k: nat)
    ensures "0" + Zeros(k) == Zeros(k) + "0"
  {
    if k > 0 {
      ZerosSnoc(k - 1);
      assert "0" + Zeros(k) == "0" + (Zeros(k - 1) + "0") == ("0" + Zeros(k - 1)) + "0";
    }
  }

  lemma ValueOfPad(n: nat, width: nat)
    ensures Value(Pad(n, width)) == n
  {
    ValueOfDigits(n);
    var d := Digits(n);
    if |d| < width {
      ValueSkipsZeros(width - |d|, d);
    }
  }

  /** Zero padding never makes two numbers look alike. */
  lemma PadInjective(m: nat, n: nat, width: nat)
    requires Pad(m, width) == Pad(n, width)
    ensures m == n
  {
    ValueOfPad(m, width);
    ValueOfPad(n, width);
  }

  predicate NoSlash(s: string) {
    '/' !in s
  }

  lemma {:induction false} DigitsNoSlash(n: nat)
    ensures NoSlash(Digits(n))
  {
    if n >= 10 {
      DigitsNoSlash(n / 10);
    }
  }

  lemma {:induction false} ZerosNoSlash(k: nat)
    ensures NoSlash(Zeros(k))
  {
    if k > 0 {
      ZerosNoSlash(k - 1);
    }
  }

  lemma PadNoSlash(n: nat, width: nat)
    ensures NoSlash(Pad(n, width))
  {
    DigitsNoSlash(n);
    var d := Digits(n);
    if |d| < width {
      ZerosNoSlash(width - |d|);
    }
  }

  function ObsPart(oid: nat): string {
    "obs-" + Pad(oid, 6)
  }

  function RunPart(attempt: nat): string {
    "run-" + Pad(attempt, 3)
  }

  /** The product directory of one attempt, relative to the products root. */
  function RunDir(oid: nat, attempt: nat): string {
    ObsPart(oid) + "/" + RunPart(attempt)
  }

  lemma SamePrefix(p: string, a: string, b: string)
    requires p + a == p + b
    ensures a == b
  {
    assert a == (p + a)[|p|..];
    assert b == (p + b)[|p|..];
  }

  lemma SlashPosition(a: string, b: string, c: string, d: string)
    requires NoSlash(c)
    requires a + "/" + b == c + "/" + d
    ensures |c| <= |a|
  {
    assert (a + "/" + b)[|a|] == '/';
    assert forall i :: 0 <= i < |c| ==> (c + "/" + d)[i] == c[i];
  }

  lemma SplitAtSlash(a: string, b: string, c: string, d: string)
    requires NoSlash(a) && NoSlash(c)
    requires a + "/" + b == c + "/" + d
    ensures a == c && b == d
  {
    SlashPosition(a, b, c, d);
    SlashPosition(c, d, a, b);
    assert a == (a + "/" + b)[..|a|];
    assert c == (c + "/" + d)[..|c|];
    SamePrefix(a + "/", b, d);
  }

  lemma PartsNoSlash(oid: nat)
    ensures NoSlash(ObsPart(oid))
  {
    PadNoSlash(oid, 6);
  }

  /** Two attempts share a product directory only if they are the same attempt of the same observation. */
  lemma RunDirInjective(o1: nat, a1: nat, o2: nat, a2: nat)
    requires RunDir(o1, a1) == RunDir(o2, a2)
    ensures o1 == o2 && a1 == a2
  {
    PartsNoSlash(o1);
    PartsNoSlash(o2);
    SplitAtSlash(ObsPart(o1), RunPart(a1), ObsPart(o2), RunPart(a2));
    SamePrefix("obs-", Pad(o1, 6), Pad(o2, 6));
    SamePrefix("run-", Pad(a1, 3), Pad(a2, 3));
    PadInjective(o1, o2, 6);
    PadInjective(a1, a2, 3);
  }

  /** The n-th quarantine name tried for a label: the label itself, then `label.001`, `label.002`, ... */
  function Candidate(target: string, n: nat): string {
    if n == 0 then target else target + "." + Pad(n, 3)
  }

  lemma CandidateInjective(target: string, m: nat, n: nat)
    requires Candidate(target, m) == Candidate(target, n)
    ensures m == n
  {
    if m != 0 && n != 0 {
      SamePrefix(target + ".", Pad(m, 3), Pad(n, 3));
      PadInjective(m, n, 3);
    }
  }

  // ---------------------------------------------------------- what the names say

  /** Ten to the power of `k`. */
  function Pow10(k: nat): nat {
    if k == 0 then 1 else 10 * Pow10(k - 1)
  }

  /** `s` is the number in decimal, zero-padded to the width and longer only when the number needs it. */
  predicate IsNumber(s: string, n: nat, width: nat) {
    && (forall i :: 0 <= i < |s| ==> '0' <= s[i] <= '9')
    && Value(s) == n
    && |s| >= width
    && (|s| > width > 0 ==> s[0] != '0')
  }

  lemma {:induction false} DigitsAreDigits(n: nat)
    ensures forall i :: 0 <= i < |Digits(n)| ==> '0' <= Digits(n)[i] <= '9'
    ensures |Digits(n)| > 0 && (Digits(n)[0] == '0' ==> n == 0)
  {
    if n >= 10 {
      DigitsAreDigits(n / 10);
    }
  }

  lemma {:induction false} ZerosAreZeros(k: nat)
    ensures |Zeros(k)| == k && forall i :: 0 <= i < k ==> Zeros(k)[i] == '0'
  {
    if k > 0 {
      ZerosAreZeros(k - 1);
    }
  }

  /** The padded name of a number is that number. */
  lemma PadIsNumber(n: nat, width: nat)
    ensures IsNumber(Pad(n, width), n, width)
  {
    ValueOfPad(n, width);
    DigitsAreDigits(n);
    var d := Digits(n);
    if |d| < width {
      ZerosAreZeros(width - |d|);
    }
  }

  /** A number that is not padded beyond its width has just that many digits as long as it fits. */
  lemma {:induction false} LongNumbersAreLarge(s: string)
    requires s != "" && forall i :: 0 <= i < |s| ==> '0' <= s[i] <= '9'
    ensures s[0] != '0' ==> Value(s) >= Pow10(|s| - 1)
  {
    if |s| > 1 {
      LongNumbersAreLarge(s[..|s| - 1]);
    }
  }

  lemma NumberLength(s: string, n: nat, width: nat)
    requires IsNumber(s, n, width) && 1 <= width && n < Pow10(width)
    ensures |s| == width
  {
    if |s| > width {
      LongNumbersAreLarge(s);
      Pow10Grows(width, |s| - 1);
    }
  }

  lemma {:induction false} Pow10Grows(a: nat, b: nat)
    requires a <= b
    ensures Pow10(a) <= Pow10(b)
  {
    if a < b {
      Pow10Grows(a, b - 1);
    }
  }

  /** A directory name that says whose products it holds. */
  ghost predicate SaysRun(dir: string, oid: nat, attempt: nat) {
    exists x: string, y: string ::
      dir == "obs-" + x + "/run-" + y && IsNumber(x, oid, 6) && IsNumber(y, attempt, 3)
  }

  /** The product directory names observation and attempt, in this order, six and three digits wide as long as they fit. */
  lemma RunDirSays(oid: nat, attempt: nat)
    ensures SaysRun(RunDir(oid, attempt), oid, attempt)
    ensures oid < 1_000_000 && attempt < 1_000 ==>
      exists x: string, y: string ::
        RunDir(oid, attempt) == "obs-" + x + "/run-" + y && |x| == 6 && |y| == 3 && Value(x) == oid && Value(y) == attempt
  {
    var x, y := Pad(oid, 6), Pad(attempt, 3);
    PadIsNumber(oid, 6);
    PadIsNumber(attempt, 3);
    assert RunDir(oid, attempt) == "obs-" + x + "/run-" + y;
    if oid < 1_000_000 && attempt < 1_000 {
      assert Pow10(6) == 1_000_000 && Pow10(3) == 1_000;
      NumberLength(x, oid, 6);
      NumberLength(y, attempt, 3);
    }
  }

  /** A quarantine name that says which observation the data is of and why it is there. */
  ghost predicate SaysWhy(label_: string, oid: nat, why: string) {
    exists x: string :: label_ == "obs-" + x + why && IsNumber(x, oid, 6)
  }

  lemma LabelSays(oid: nat, why: string)
    ensures SaysWhy(ObsPart(oid) + why, oid, why)
  {
    PadIsNumber(oid, 6);
    assert ObsPart(oid) + why == "obs-" + Pad(oid, 6) + why;
  }

  /** The names tried for a label: the label itself, then the label, a dot and a number of at least three digits. */
  lemma CandidateSays(target: string, n: nat)
    ensures n == 0 ==> Candidate(target, n) == target
    ensures n > 0 ==> exists y: string :: Candidate(target, n) == target + "." + y && IsNumber(y, n, 3)
  {
    PadIsNumber(n, 3);
    if n > 0 {
      assert Candidate(target, n) == target + "." + Pad(n, 3);
    }
  }
}
