/** Strings as Go compares and formats them: the bytewise `<` on strings and the `%d` rendering of integers. */
module Text {

  /** Go's `<` on strings. */
  predicate LexLess(a: string, b: string) {
    |b| > 0 && (|a| == 0 || a[0] < b[0] || (a[0] == b[0] && LexLess(a[1..], b[1..])))
  }

  /** The texts agree up to position `n`, where `a` ends or has the smaller character. */
  predicate DiffersAt(a: string, b: string, n: nat) {
    n <= |a| && n < |b| && a[..n] == b[..n] && (n == |a| || a[n] < b[n])
  }

  /** `a` is a proper prefix of `b`, or has the smaller character where they first differ. */
  ghost predicate Smaller(a: string, b: string) {
    exists n: nat :: DiffersAt(a, b, n)
  }

  lemma {:induction false} LexLessDiffers(a: string, b: string) returns (n: nat)
    requires LexLess(a, b)
    ensures DiffersAt(a, b, n)
  {
    n := 0;
    if |a| > 0 && a[0] == b[0] {
      var m := LexLessDiffers(a[1..], b[1..]);
      n := m + 1;
      assert a[..n] == [a[0]] + a[1..][..m] && b[..n] == [b[0]] + b[1..][..m];
    }
  }

  lemma {:induction false} DiffersIsLexLess(a: string, b: string, n: nat)
    requires DiffersAt(a, b, n)
    ensures LexLess(a, b)
  {
    if n > 0 {
      assert a[..n][0] == a[0] && b[..n][0] == b[0];
      assert a[1..][..n - 1] == a[..n][1..] && b[1..][..n - 1] == b[..n][1..];
      DiffersIsLexLess(a[1..], b[1..], n - 1);
    }
  }

  /** The recursive comparison decides at the first difference. */
  lemma {:induction false} LexLessIff(a: string, b: string)
    ensures LexLess(a, b) <==> Smaller(a, b)
  {
    if LexLess(a, b) {
      var n := LexLessDiffers(a, b);
    }
    if n: nat :| DiffersAt(a, b, n) {
      DiffersIsLexLess(a, b, n);
    }
  }

  lemma {:induction false} LexTrichotomy(a: string, b: string)
    ensures a == b || LexLess(a, b) || LexLess(b, a)
    ensures !(LexLess(a, b) && LexLess(b, a))
    ensures a == b ==> !LexLess(a, b)
  {
    if |a| > 0 && |b| > 0 && a[0] == b[0] {
      LexTrichotomy(a[1..], b[1..]);
      assert a == [a[0]] + a[1..] && b == [b[0]] + b[1..];
    }
  }

  lemma {:induction false} LexTransitive(a: string, b: string, c: string)
    requires LexLess(a, b) && LexLess(b, c)
    ensures LexLess(a, c)
  {
    if |a| > 0 && a[0] == b[0] && b[0] == c[0] {
      LexTransitive(a[1..], b[1..], c[1..]);
    }
  }

  function Digit(d: nat): char
    requires d < 10
  {
    ('0' as int + d) as char
  }

  /** `%d` of a natural number. */
  function Decimal(n: nat): string {
    if n < 10 then [Digit(n)] else Decimal(n / 10) + [Digit(n % 10)]
  }

  /** `%d` of an integer. */
  function DecimalInt(i: int): string {
    if i < 0 then "-" + Decimal(-i) else Decimal(i)
  }

  function DigitValue(c: char): nat {
    if '0' <= c <= '9' then (c - '0') as nat else 0
  }

  function ValueOf(s: string): nat {
    if |s| == 0 then 0 else ValueOf(s[..|s| - 1]) * 10 + DigitValue(s[|s| - 1])
  }

  lemma {:induction false} DecimalRoundTrip(n: nat)
    ensures ValueOf(Decimal(n)) == n
    ensures forall i :: 0 <= i < |Decimal(n)| ==> '0' <= Decimal(n)[i] <= '9'
    ensures |Decimal(n)| > 0 && (Decimal(n)[0] == '0' ==> n == 0)
  {
    if n < 10 {
      assert Decimal(n)[..0] == "";
    } else {
      DecimalRoundTrip(n / 10);
      var front := Decimal(n / 10);
      assert Decimal(n)[..|front|] == front;
    }
  }

  function IntOf(s: string): int {
    if |s| > 0 && s[0] == '-' then 0 - ValueOf(s[1..]) else ValueOf(s)
  }

  /** The rendering of an integer reads back as that integer, and has no colon in it. */
  lemma {:induction false} DecimalIntRoundTrip(i: int)
    ensures IntOf(DecimalInt(i)) == i && ':' !in DecimalInt(i)
  {
    DecimalRoundTrip(if i < 0 then -i else i);
    if i < 0 {
      assert DecimalInt(i)[1..] == Decimal(-i);
    }
  }

  /** The text before the first colon. */
  function UpToColon(s: string): string {
    if |s| == 0 || s[0] == ':' then "" else [s[0]] + UpToColon(s[1..])
  }

  /** The text after the first colon. */
  function PastColon(s: string): string {
    if |s| == 0 then "" else if s[0] == ':' then s[1..] else PastColon(s[1..])
  }

  lemma {:induction false} SplitAtColon(a: string, b: string)
    requires ':' !in a
    ensures UpToColon(a + ":" + b) == a && PastColon(a + ":" + b) == b
  {
    var s := a + ":" + b;
    if |a| == 0 {
      assert s[1..] == b;
    } else {
      assert s[1..] == a[1..] + ":" + b;
      SplitAtColon(a[1..], b);
      assert a == [a[0]] + a[1..];
    }
  }
}
