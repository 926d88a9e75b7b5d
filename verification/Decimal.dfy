/** Unsigned numbers in decimal, as Python and printf's %u write them. */
module Decimal {

  predicate IsDigit(c: char) { '0' <= c <= '9' }

  predicate AllDigits(s: string) { forall i :: 0 <= i < |s| ==> IsDigit(s[i]) }

  function Digit(d: nat): char
    requires d < 10
  {
    ('0' as int + d) as char
  }

  function Text(n: nat): string {
    if n < 10 then [Digit(n)] else Text(n / 10) + [Digit(n % 10)]
  }

  /** The number a run of digits denotes, most significant first. */
  function Value(s: string): nat
    requires AllDigits(s)
  {
    if s == [] then 0 else Value(s[..|s| - 1]) * 10 + (s[|s| - 1] as int - '0' as int)
  }

  lemma {:induction false} ValueOfText(n: nat)
    ensures Text(n) != [] && AllDigits(Text(n)) && Value(Text(n)) == n
  {
    if n >= 10 {
      ValueOfText(n / 10);
      assert Text(n)[..|Text(n)| - 1] == Text(n / 10);
    }
  }

  /** n padded on the left with zeros to `width`, as %0*u does. */
  function Padded(n: nat, width: nat): string {
    if |Text(n)| < width then seq(width - |Text(n)|, _ => '0') + Text(n) else Text(n)
  }

  lemma {:induction false} ZerosInFront(zeros: string, s: string)
    requires AllDigits(s) && forall i :: 0 <= i < |zeros| ==> zeros[i] == '0'
    ensures AllDigits(zeros + s) && Value(zeros + s) == Value(s)
    decreases |s|, |zeros|
  {
    if s == [] {
      if zeros != [] {
        ZerosInFront(zeros[..|zeros| - 1], s);
        assert (zeros + s)[..|zeros + s| - 1] == zeros[..|zeros| - 1] + s;
      }
    } else {
      ZerosInFront(zeros, s[..|s| - 1]);
      assert (zeros + s)[..|zeros + s| - 1] == zeros + s[..|s| - 1];
    }
  }

  lemma ValueOfPadded(n: nat, width: nat)
    ensures AllDigits(Padded(n, width)) && Value(Padded(n, width)) == n
  {
    ValueOfText(n);
    if |Text(n)| < width { ZerosInFront(seq(width - |Text(n)|, _ => '0'), Text(n)); }
  }

  function Pow10(w: nat): nat { if w == 0 then 1 else 10 * Pow10(w - 1) }

  lemma {:induction false} TextLength(n: nat, w: nat)
    requires 0 < w && n < Pow10(w)
    ensures 1 <= |Text(n)| <= w
  {
    if n >= 10 { TextLength(n / 10, w - 1); }
  }

  lemma Uint32Length(n: nat)
    requires n < 0x1_0000_0000
    ensures 1 <= |Text(n)| <= 10 && |Padded(n, 10)| == 10
  {
    assert Pow10(10) == 10_000_000_000 by {
      assert Pow10(5) == 100_000;
    }
    TextLength(n, 10);
  }

  lemma {:induction false} ValueBelow(s: string)
    requires AllDigits(s)
    ensures Value(s) < Pow10(|s|)
  {
    if s != [] { ValueBelow(s[..|s| - 1]); }
  }

  /** A field of digits after its last `mark`, the mark not being a digit, can be told
      apart from what precedes it. */
  lemma LastFieldInjective(a: string, b: string, mark: char, x: string, y: string)
    requires !IsDigit(mark) && AllDigits(x) && AllDigits(y) && a + [mark] + x == b + [mark] + y
    ensures a == b && x == y
  {
    var s, t := a + [mark] + x, b + [mark] + y;
    assert s[|a|] == mark && t[|b|] == mark;
    assert forall k :: |a| < k < |s| ==> s[k] == x[k - |a| - 1];
    assert forall k :: |b| < k < |t| ==> t[k] == y[k - |b| - 1];
    assert s[..|a|] == a && t[..|b|] == b;
    assert s[|a| + 1..] == x && t[|b| + 1..] == y;
  }

  // ---- String order ----

  /** strcmp(a, b) < 0. */
  predicate Less(a: string, b: string) {
    if b == [] then false
    else if a == [] then true
    else if a[0] != b[0] then a[0] < b[0]
    else Less(a[1..], b[1..])
  }

  lemma {:induction false} LessAfterPrefix(p: string, a: string, b: string)
    ensures Less(p + a, p + b) == Less(a, b)
  {
    if p == [] {
      assert p + a == a && p + b == b;
    } else {
      LessAfterPrefix(p[1..], a, b);
      assert (p + a)[1..] == p[1..] + a && (p + b)[1..] == p[1..] + b;
    }
  }

  /** Strings of one length compare alike whatever follows, if they differ. */
  lemma {:induction false} LessBeforeSuffix(a: string, b: string, x: string, y: string)
    requires |a| == |b| && a != b
    ensures Less(a + x, b + y) == Less(a, b)
  {
    if a[0] == b[0] {
      assert a[1..] != b[1..] by {
        assert a == [a[0]] + a[1..] && b == [b[0]] + b[1..];
      }
      LessBeforeSuffix(a[1..], b[1..], x, y);
      assert (a + x)[1..] == a[1..] + x && (b + y)[1..] == b[1..] + y;
    }
  }

  lemma {:induction false} LeadingDigit(s: string)
    requires s != [] && AllDigits(s)
    ensures AllDigits(s[1..]) && Value(s) == (s[0] as int - '0' as int) * Pow10(|s| - 1) + Value(s[1..])
    decreases |s|
  {
    if |s| > 1 {
      var r := s[..|s| - 1];
      LeadingDigit(r);
      assert s[1..][..|s| - 2] == r[1..];
      TimesTen(s[0] as int - '0' as int, Pow10(|s| - 2));
    }
  }

  lemma TimesTen(d: nat, w: nat)
    ensures d * w * 10 == d * (10 * w)
  {
  }

  lemma LeadsDecide(x: nat, y: nat, w: nat, u: nat, v: nat)
    requires u < w && v < w
    ensures x * w + u < y * w + v <==> x < y || (x == y && u < v)
  {
    if x < y {
      assert (x + 1) * w <= y * w;
    } else if y < x {
      assert (y + 1) * w <= x * w;
    }
  }

  /** Digit strings of one length sort as their numbers. */
  lemma {:induction false} LessIsNumeric(a: string, b: string)
    requires |a| == |b| && AllDigits(a) && AllDigits(b)
    ensures Less(a, b) <==> Value(a) < Value(b)
  {
    if a != [] {
      LeadingDigit(a);
      LeadingDigit(b);
      LessIsNumeric(a[1..], b[1..]);
      ValueBelow(a[1..]);
      ValueBelow(b[1..]);
      hide Value, Pow10;
      LeadsDecide(a[0] as int - '0' as int, b[0] as int - '0' as int, Pow10(|a| - 1), Value(a[1..]), Value(b[1..]));
    }
  }
}
