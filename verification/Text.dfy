/** Decimal numerals and display truncation. */
module Text {

  function DigitChar(d: nat): (c: char)
    requires d < 10
    ensures '0' <= c <= '9'
  {
    '0' + d as char
  }

  predicate IsDigit(c: char) { '0' <= c <= '9' }

  predicate AllDigits(s: string) { forall i :: 0 <= i < |s| ==> IsDigit(s[i]) }

  function Decimal(n: nat): (s: string)
    ensures |s| > 0 && AllDigits(s)
  {
    if n < 10 then [DigitChar(n)] else Decimal(n / 10) + [DigitChar(n % 10)]
  }

  lemma DecimalInjective(a: nat, b: nat)
    requires Decimal(a) == Decimal(b)
    ensures a == b
  {
    var s := Decimal(a);
    assert s[|s| - 1] == DigitChar(a % 10) == DigitChar(b % 10);
    if a >= 10 && b >= 10 {
      assert s[..|s| - 1] == Decimal(a / 10) == Decimal(b / 10);
      DecimalInjective(a / 10, b / 10);
    }
  }

  /** The place of the first `c`, or the length. */
  function IndexOf(s: string, c: char): (n: nat)
    ensures n <= |s| && c !in s[..n] && (n < |s| ==> s[n] == c)
  {
    if s == "" || s[0] == c then 0
    else
      assert s[..1 + IndexOf(s[1..], c)] == [s[0]] + s[1..][..IndexOf(s[1..], c)];
      1 + IndexOf(s[1..], c)
  }

  lemma {:induction false} IndexOfFirst(a: string, c: char, b: string)
    requires c !in a
    ensures IndexOf(a + [c] + b, c) == |a|
  {
    var s := a + [c] + b;
    if a != "" {
      assert s[0] == a[0] && s[1..] == a[1..] + [c] + b;
      IndexOfFirst(a[1..], c, b);
    }
  }

  lemma {:induction false} IndexOfNone(s: string, c: char)
    requires c !in s
    ensures IndexOf(s, c) == |s|
  {
    if s != "" {
      IndexOfNone(s[1..], c);
    }
  }

  /** The number a string of digits stands for. */
  function ValueOf(s: string): (n: nat)
    requires AllDigits(s)
  {
    if s == [] then 0 else 10 * ValueOf(s[..|s| - 1]) + (s[|s| - 1] - '0') as int
  }

  lemma {:induction false} ValueOfDecimal(n: nat)
    ensures ValueOf(Decimal(n)) == n
  {
    var s := Decimal(n);
    if n >= 10 {
      ValueOfDecimal(n / 10);
      assert s[..|s| - 1] == Decimal(n / 10);
    } else {
      assert s[..0] == [];
    }
  }

  /** A numeral filled up with zeros to at least `width` digits. */
  function Padded(n: nat, width: nat): (s: string)
    ensures AllDigits(s) && |s| >= width
  {
    Zeros(if |Decimal(n)| < width then width - |Decimal(n)| else 0) + Decimal(n)
  }

  function Zeros(k: nat): (s: string)
    ensures |s| == k && AllDigits(s)
  {
    seq(k, _ => '0')
  }

  lemma {:induction false} ValueOfZeros(k: nat, s: string)
    requires AllDigits(s)
    ensures ValueOf(Zeros(k) + s) == ValueOf(s)
    decreases |s|, k
  {
    var t := Zeros(k) + s;
    if s != [] {
      assert t[..|t| - 1] == Zeros(k) + s[..|s| - 1];
      ValueOfZeros(k, s[..|s| - 1]);
    } else if k > 0 {
      assert t[..|t| - 1] == Zeros(k - 1) + s;
      ValueOfZeros(k - 1, s);
    } else {
      assert t == s;
    }
  }

  lemma ValueOfPadded(n: nat, width: nat)
    ensures ValueOf(Padded(n, width)) == n
  {
    ValueOfDecimal(n);
    ValueOfZeros(if |Decimal(n)| < width then width - |Decimal(n)| else 0, Decimal(n));
  }

  function Power10(k: nat): nat {
    if k == 0 then 1 else 10 * Power10(k - 1)
  }

  /** A padded numeral keeps its width exactly when the number has no more digits. */
  lemma {:induction false} PaddedWidth(n: nat, width: nat)
    requires width > 0
    ensures |Padded(n, width)| == width <==> n < Power10(width)
  {
    DecimalWidth(n, width);
  }

  lemma {:induction false} DecimalWidth(n: nat, width: nat)
    requires width > 0
    ensures |Decimal(n)| <= width <==> n < Power10(width)
  {
    if width == 1 {
      assert Power10(1) == 10;
    } else if n >= 10 {
      DecimalWidth(n / 10, width - 1);
    } else {
      assert Power10(width) >= 10 by { PowerGrows(width); }
    }
  }

  lemma {:induction false} PowerGrows(k: nat)
    requires k > 0
    ensures Power10(k) >= 10
  {
    if k > 1 {
      PowerGrows(k - 1);
    }
  }

  /** The display bound in characters; smaller settings are refused. */
  type Limit = n: nat | 200 <= n witness 200

  const MARKER := "…[truncated]"

  function HeadChars(limit: Limit): nat { (limit - |MARKER| + 1) / 2 }

  function TailChars(limit: Limit): nat { (limit - |MARKER|) / 2 }

  /** `trunc`: head and tail of a long text around a marker. */
  function Truncate(s: string, limit: Limit): (r: string)
    ensures |s| <= limit ==> r == s
    ensures |s| > limit ==> |r| == limit && s[..HeadChars(limit)] <= r
    ensures |s| > limit ==> r[limit - TailChars(limit)..] == s[|s| - TailChars(limit)..]
  {
    if |s| <= limit then s
    else s[..HeadChars(limit)] + MARKER + s[|s| - TailChars(limit)..]
  }
}
