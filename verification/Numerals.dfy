/** What the text of a BigInt literal means, and the decimal text of a number:
    tables of digits and positional notation, nothing else. */
module Numerals {
  const LowerDigits := "0123456789abcdef"
  const UpperDigits := "0123456789ABCDEF"
  const TenDigits := "0123456789"

  /** The text writes `n` in this base, with letters of either case; it may begin
      with zeros, and no text at all is zero. */
  predicate Writes(text: string, base: nat, n: nat)
    requires 2 <= base <= 16
  {
    if text == "" then n == 0
    else
      var k := |text| - 1;
      && (text[k] == LowerDigits[n % base] || text[k] == UpperDigits[n % base])
      && Writes(text[..k], base, n / base)
  }

  /** Prefix and base of a numeric notation. */
  predicate Notation(prefix: string, base: nat) {
    || (prefix == "" && base == 10)
    || ((prefix == "0b" || prefix == "0B") && base == 2)
    || ((prefix == "0o" || prefix == "0O") && base == 8)
    || ((prefix == "0x" || prefix == "0X") && base == 16)
  }

  /** `spaced` is the text with separators anywhere in it. */
  predicate Separated(text: string, spaced: string) {
    if spaced == "" then text == ""
    else if spaced[0] == '_' then Separated(text, spaced[1..])
    else text != "" && text[0] == spaced[0] && Separated(text[1..], spaced[1..])
  }

  /** `raw` is the text and its suffix, if it has one. */
  predicate Suffixed(text: string, raw: string) {
    raw == text + "n" || (raw == text && (raw == "" || raw[|raw| - 1] != 'n'))
  }

  /** The literal stands for `n`. */
  ghost predicate Denotes(raw: string, n: nat) {
    exists prefix, base: nat, digits, spaced :: Spells(raw, n, prefix, base, digits, spaced)
  }

  predicate Spells(raw: string, n: nat, prefix: string, base: nat, digits: string, spaced: string) {
    && Notation(prefix, base) && Writes(digits, base, n)
    && Separated(prefix + digits, spaced) && Suffixed(spaced, raw)
  }

  predicate WritesTen(text: string, n: nat) {
    if text == "" then n == 0
    else
      var k := |text| - 1;
      text[k] == TenDigits[n % 10] && WritesTen(text[..k], n / 10)
  }

  /** The decimal text of `n`: no zero in front, except of zero itself. */
  predicate DecimalText(text: string, n: nat) {
    text != "" && WritesTen(text, n) && (|text| > 1 ==> text[0] != '0')
  }

  // ----- one text for each number -----

  lemma {:induction false} WritesTenOnce(text: string, m: nat, n: nat)
    requires WritesTen(text, m) && WritesTen(text, n)
    ensures m == n
    decreases |text|
  {
    if text != "" {
      var k := |text| - 1;
      assert TenDigits[m % 10] == TenDigits[n % 10];
      TenDistinct(m % 10, n % 10);
      WritesTenOnce(text[..k], m / 10, n / 10);
    }
  }

  lemma TenDistinct(a: nat, b: nat)
    requires a < 10 && b < 10 && TenDigits[a] == TenDigits[b]
    ensures a == b
  {
    TenAt(a);
    TenAt(b);
  }

  lemma TenAt(d: nat)
    requires d < 10
    ensures TenDigits[d] == ('0' as int + d) as char
  {
    assert d == 0 || d == 1 || d == 2 || d == 3 || d == 4 || d == 5 || d == 6 || d == 7 || d == 8 || d == 9;
  }

  /** A number without zeros in front has as many digits as it needs. */
  lemma {:induction false} TextOnce(a: string, b: string, n: nat)
    requires DecimalText(a, n) && DecimalText(b, n)
    ensures a == b
    decreases |a|
  {
    var i, j := |a| - 1, |b| - 1;
    assert a == a[..i] + [a[i]] && b == b[..j] + [b[j]];
    if |a| > 1 && |b| > 1 {
      TextOnce(a[..i], b[..j], n / 10);
    } else if |a| > 1 {
      ShortBelowTen(b, n);
      LongNotZero(a[..i], n / 10);
    } else if |b| > 1 {
      ShortBelowTen(a, n);
      LongNotZero(b[..j], n / 10);
    }
  }

  lemma ShortBelowTen(text: string, n: nat)
    requires |text| == 1 && WritesTen(text, n)
    ensures n / 10 == 0
  {
    assert text[..0] == "";
  }

  lemma {:induction false} LongNotZero(text: string, n: nat)
    requires text != "" && WritesTen(text, n) && text[0] != '0'
    ensures n != 0
    decreases |text|
  {
    var k := |text| - 1;
    TenAt(n % 10);
    if k > 0 {
      LongNotZero(text[..k], n / 10);
    }
  }

  /** Two decimal texts are equal exactly when the numbers are. */
  lemma SameText(a: string, m: nat, b: string, n: nat)
    requires DecimalText(a, m) && DecimalText(b, n)
    ensures a == b <==> m == n
  {
    if a == b {
      WritesTenOnce(a, m, n);
    } else if m == n {
      TextOnce(a, b, n);
    }
  }
}
