/** Character classes, validated text and decimal numerals. */
module Text {

  predicate IsDigit(c: char) { '0' <= c <= '9' }

  predicate IsLower(c: char) { 'a' <= c <= 'z' }

  predicate IsUpper(c: char) { 'A' <= c <= 'Z' }

  predicate IsHexDigit(c: char) { IsDigit(c) || 'a' <= c <= 'f' }

  predicate AllDigits(s: string) {
    forall i | 0 <= i < |s| :: IsDigit(s[i])
  }

  predicate IsIdentifierChar(c: char) {
    IsDigit(c) || IsLower(c) || IsUpper(c) || c == '_' || c == '.' || c == ':' || c == '-'
  }

  /** Opaque identifiers: 1-128 characters, the first alphanumeric. */
  predicate IsIdentifier(s: string) {
    && 1 <= |s| <= 128
    && (IsDigit(s[0]) || IsLower(s[0]) || IsUpper(s[0]))
    && forall i | 0 <= i < |s| :: IsIdentifierChar(s[i])
  }

  predicate IsCurrency(s: string) {
    |s| == 3 && IsUpper(s[0]) && IsUpper(s[1]) && IsUpper(s[2])
  }

  predicate IsPaymentMethod(s: string) {
    && 1 <= |s| <= 32
    && IsLower(s[0])
    && forall i | 0 <= i < |s| :: IsLower(s[i]) || IsDigit(s[i]) || s[i] == '_' || s[i] == '-'
  }

  predicate IsHexDigest(s: string) {
    |s| == 64 && forall i | 0 <= i < |s| :: IsHexDigit(s[i])
  }

  /** The whitespace that Python's str.strip removes. */
  predicate IsSpace(c: char) {
    || '\t' <= c <= '\r'
    || '\U{1c}' <= c <= ' '
    || c in "\U{85}\U{a0}\U{1680}\U{2028}\U{2029}\U{202f}\U{205f}\U{3000}"
    || '\U{2000}' <= c <= '\U{200a}'
  }

  /** Non-empty, no outer whitespace, no control characters, bounded length. */
  predicate IsCleanText(s: string, maximum: nat) {
    && 1 <= |s| <= maximum
    && !IsSpace(s[0])
    && !IsSpace(s[|s| - 1])
    && forall i | 0 <= i < |s| :: s[i] >= ' ' && s[i] != '\U{7f}'
  }

  // ---- Decimal numerals ----

  function DigitChar(d: nat): (c: char)
    requires d < 10
    ensures IsDigit(c)
  {
    "0123456789"[d]
  }

  function DigitValue(c: char): nat
    requires IsDigit(c)
  {
    c as int - '0' as int
  }

  function RenderNat(n: nat): (s: string)
    ensures |s| >= 1 && AllDigits(s)
    ensures n > 0 ==> s[0] != '0'
  {
    if n < 10 then [DigitChar(n)] else RenderNat(n / 10) + [DigitChar(n % 10)]
  }

  function NatValue(s: string): nat
    requires AllDigits(s)
  {
    if s == "" then 0 else 10 * NatValue(s[..|s| - 1]) + DigitValue(s[|s| - 1])
  }

  function RenderInt(i: int): string {
    if i < 0 then "-" + RenderNat(-i) else RenderNat(i)
  }

  lemma {:induction false} RenderNatValue(n: nat)
    ensures NatValue(RenderNat(n)) == n
  {
    if n < 10 {
      assert [DigitChar(n)][..0] == "";
    } else {
      RenderNatValue(n / 10);
      var s := RenderNat(n);
      assert s[..|s| - 1] == RenderNat(n / 10);
    }
  }

  /** A numeral has no more digits than any power of ten above it. */
  lemma {:induction false} RenderNatWidth(n: nat, k: nat)
    requires n < Pow10(k) && k >= 1
    ensures |RenderNat(n)| <= k
  {
    if n >= 10 {
      RenderNatWidth(n / 10, k - 1);
    }
  }

  function Pow10(k: nat): (p: nat)
    ensures p >= 1
  {
    if k == 0 then 1 else 10 * Pow10(k - 1)
  }

  /** Fixed-width numeral, zero padded on the left. */
  function Padded(n: nat, width: nat): (s: string)
    ensures |s| == width && AllDigits(s)
  {
    if width == 0 then "" else Padded(n / 10, width - 1) + [DigitChar(n % 10)]
  }

  lemma {:induction false} PaddedValue(n: nat, width: nat)
    requires n < Pow10(width)
    ensures NatValue(Padded(n, width)) == n
  {
    if width > 0 {
      PaddedValue(n / 10, width - 1);
      var s := Padded(n, width);
      assert s[..width - 1] == Padded(n / 10, width - 1);
    }
  }

  function Quotient(n: nat, d: nat): nat
    requires d >= 1
  {
    n / d
  }

  function Remainder(n: nat, d: nat): (r: nat)
    requires d >= 1
    ensures r < d
  {
    n % d
  }

  /** units / 10^scale in fixed-point notation, with exactly `scale` digits after the point. */
  function FixedPoint(units: nat, scale: nat): string {
    if scale == 0 then RenderNat(units)
    else RenderNat(Quotient(units, Pow10(scale))) + "." + Padded(Remainder(units, Pow10(scale)), scale)
  }

  lemma ConsDrop(head: string, a: string, b: string)
    requires |head| == 1
    ensures (head + a + b)[0] == head[0] && (head + a + b)[1..] == a + b
  {}

  lemma Assoc(a: string, b: string, c: string)
    ensures a + b + c == a + (b + c)
  {}

  // ---- Ordering of strings by code point ----

  predicate Less(a: string, b: string) {
    if b == "" then false
    else if a == "" then true
    else a[0] < b[0] || (a[0] == b[0] && Less(a[1..], b[1..]))
  }

  lemma {:induction false} LessIrreflexive(a: string)
    ensures !Less(a, a)
  {
    if a != "" { LessIrreflexive(a[1..]); }
  }

  lemma {:induction false} LessTransitive(a: string, b: string, c: string)
    requires Less(a, b) && Less(b, c)
    ensures Less(a, c)
  {
    if a != "" && a[0] == b[0] && b[0] == c[0] {
      LessTransitive(a[1..], b[1..], c[1..]);
    }
  }

  lemma {:induction false} LessAsymmetric(a: string, b: string)
    requires Less(a, b)
    ensures !Less(b, a)
  {
    if a != "" && a[0] == b[0] { LessAsymmetric(a[1..], b[1..]); }
  }

  lemma {:induction false} LessTotal(a: string, b: string)
    ensures a == b || Less(a, b) || Less(b, a)
  {
    if a != "" && b != "" {
      LessTotal(a[1..], b[1..]);
      assert a == [a[0]] + a[1..] && b == [b[0]] + b[1..];
    }
  }

  /** Two strings that agree up to `k` are ordered by what follows. */
  lemma {:induction false} LessAt(a: string, b: string, k: nat)
    requires k <= |a| && k < |b| && a[..k] == b[..k]
    requires k == |a| || a[k] < b[k]
    ensures Less(a, b)
  {
    if k > 0 {
      assert a[..k][0] == b[..k][0];
      assert a[1..][..k - 1] == a[..k][1..] && b[1..][..k - 1] == b[..k][1..];
      LessAt(a[1..], b[1..], k - 1);
    }
  }
}
