/** BigInt literals: the digit loop that turns a literal of any radix and
    length into decimal, and why equal values give equal strings. */
module BigIntLiteral {
  import opened Syntax
  import opened Numerals

  newtype u8 = x: int | 0 <= x < 0x100
  newtype u32 = x: int | 0 <= x < 0x1_0000_0000

  // ----- what a literal means -----

  function Without(s: string, c: char): string {
    if s == "" then "" else (if s[0] == c then [] else [s[0]]) + Without(s[1..], c)
  }

  /** The literal without its suffix and its separators. */
  function Cleaned(raw: string): string {
    Without(if raw != "" && raw[|raw| - 1] == 'n' then raw[..|raw| - 1] else raw, '_')
  }

  function HasPrefix(s: string, lower: char, upper: char): bool {
    |s| >= 2 && s[0] == '0' && (s[1] == lower || s[1] == upper)
  }

  function Radix(cleaned: string): (r: u32)
    ensures r == 2 || r == 8 || r == 10 || r == 16
  {
    if HasPrefix(cleaned, 'x', 'X') then 16
    else if HasPrefix(cleaned, 'o', 'O') then 8
    else if HasPrefix(cleaned, 'b', 'B') then 2
    else 10
  }

  function Digits(cleaned: string): string {
    if Radix(cleaned) == 10 then cleaned else cleaned[2..]
  }

  /** The value of one digit, if it is one in this radix. */
  function DigitOf(c: char, radix: u32): (v: Option<u32>)
    ensures v.Some? ==> v.value < radix
  {
    var v := if '0' <= c <= '9' then (c as int - '0' as int) as u32
             else if 'a' <= c <= 'z' then (c as int - 'a' as int + 10) as u32
             else if 'A' <= c <= 'Z' then (c as int - 'A' as int + 10) as u32
             else 0xFFFF_FFFF;
    if v < radix then Some(v) else None
  }

  predicate AllDigits(digits: string, radix: u32) {
    forall i :: 0 <= i < |digits| ==> DigitOf(digits[i], radix).Some?
  }

  /** Positional value, most significant digit first. */
  function ValueOf(digits: string, radix: u32): nat
    requires AllDigits(digits, radix)
  {
    if digits == "" then 0
    else
      var n := |digits| - 1;
      ValueOf(digits[..n], radix) * radix as nat + DigitOf(digits[n], radix).value as nat
  }

  /** A literal that the lexer has validated. */
  predicate Validated(raw: string) {
    AllDigits(Digits(Cleaned(raw)), Radix(Cleaned(raw)))
  }

  function LiteralValue(raw: string): nat
    requires Validated(raw)
  {
    ValueOf(Digits(Cleaned(raw)), Radix(Cleaned(raw)))
  }

  // ----- decimal strings -----

  function DecimalDigit(d: nat): char
    requires d < 10
  {
    ('0' as int + d) as char
  }

  /** Canonical decimal: no leading zero except for zero itself. */
  function Decimal(n: nat): string {
    if n < 10 then [DecimalDigit(n)] else Decimal(n / 10) + [DecimalDigit(n % 10)]
  }

  // ----- little-endian digit vectors -----

  predicate Decimals(d: seq<u8>) {
    forall i :: 0 <= i < |d| ==> d[i] < 10
  }

  function Little(d: seq<u8>): nat {
    if d == [] then 0 else d[0] as nat + 10 * Little(d[1..])
  }

  function CarryDigits(carry: u32): seq<u8> {
    if carry == 0 then [] else [(carry % 10) as u8] + CarryDigits(carry / 10)
  }

  /** One place times the radix plus the carry fits easily, and leaves a carry
      below the radix again. */
  function Product(place: u8, radix: u32, carry: u32): (next: u32)
    requires place < 10 && carry < radix <= 16
    ensures next / 10 < radix && next as nat == place as nat * radix as nat + carry as nat
  {
    place as u32 * radix + carry
  }

  /** `d * radix + carry`, digit by digit. */
  function MulAdd(d: seq<u8>, radix: u32, carry: u32): seq<u8>
    requires Decimals(d) && carry < radix <= 16
  {
    if d == [] then CarryDigits(carry)
    else
      var next := Product(d[0], radix, carry);
      [(next % 10) as u8] + MulAdd(d[1..], radix, next / 10)
  }

  lemma {:induction false} CarryValue(carry: u32)
    ensures Decimals(CarryDigits(carry)) && Little(CarryDigits(carry)) == carry as nat
  {
    if carry != 0 {
      CarryValue(carry / 10);
      assert CarryDigits(carry)[1..] == CarryDigits(carry / 10);
    }
  }

  lemma {:induction false} MulAddValue(d: seq<u8>, radix: u32, carry: u32)
    requires Decimals(d) && carry < radix <= 16
    ensures Decimals(MulAdd(d, radix, carry)) && |MulAdd(d, radix, carry)| >= |d|
    ensures Little(MulAdd(d, radix, carry)) == Little(d) * radix as nat + carry as nat
  {
    if d == [] {
      CarryValue(carry);
    } else {
      var next := Product(d[0], radix, carry);
      MulAddValue(d[1..], radix, next / 10);
      assert MulAdd(d, radix, carry)[1..] == MulAdd(d[1..], radix, next / 10);
      Distribute(d[0] as nat, Little(d[1..]), radix as nat);
    }
  }

  lemma MulAddStep(d: seq<u8>, i: nat, radix: u32, carry: u32)
    requires Decimals(d) && carry < radix <= 16 && i < |d|
    ensures var next := Product(d[i], radix, carry);
            MulAdd(d[i..], radix, carry) == [(next % 10) as u8] + MulAdd(d[i + 1..], radix, next / 10)
  {
    assert d[i..][1..] == d[i + 1..];
  }

  lemma MulAddEnd(radix: u32)
    requires radix <= 16
    ensures forall carry: u32 :: carry < radix ==> MulAdd([], radix, carry) == CarryDigits(carry)
  {
  }

  lemma Distribute(a: nat, b: nat, r: nat)
    ensures (a + 10 * b) * r == a * r + 10 * (b * r)
  {
  }

  /** Most significant digit first, as characters. */
  function Render(d: seq<u8>): string
    requires Decimals(d)
  {
    if d == [] then "" else Render(d[1..]) + [DecimalDigit(d[0] as nat)]
  }

  predicate Trimmed(d: seq<u8>) {
    |d| == 1 || (|d| > 1 && d[|d| - 1] != 0)
  }

  lemma {:induction false} RenderTrimmed(d: seq<u8>)
    requires Decimals(d) && Trimmed(d)
    ensures Render(d) == Decimal(Little(d))
    ensures |d| > 1 ==> Little(d) >= 10
  {
    if |d| == 1 {
      assert d[1..] == [];
    } else {
      assert d[1..][|d[1..]| - 1] == d[|d| - 1];
      RenderTrimmed(d[1..]);
      if |d| == 2 {
        assert d[1..][1..] == [];
      }
    }
  }

  lemma {:induction false} DropZero(d: seq<u8>)
    requires d != [] && d[|d| - 1] == 0
    ensures Little(d[..|d| - 1]) == Little(d)
  {
    if |d| > 1 {
      DropZero(d[1..]);
      assert d[1..][..|d| - 2] == d[..|d| - 1][1..];
    }
  }

  // ----- the conversion loop -----

  /** One digit: multiply the vector by the radix and add, in place. */
  method Absorb(decimal: seq<u8>, radix: u32, value: u32) returns (r: seq<u8>)
    requires Decimals(decimal) && value < radix <= 16
    ensures r == MulAdd(decimal, radix, value)
  {
    hide MulAdd, Product, Little;
    MulAddEnd(radix);
    r := decimal;
    var carry := value;
    var i := 0;
    while i < |r|
      invariant 0 <= i <= |r| == |decimal| && carry < radix
      invariant forall k :: i <= k < |r| ==> r[k] == decimal[k]
      invariant r[..i] + MulAdd(decimal[i..], radix, carry) == MulAdd(decimal, radix, value)
    {
      var next := Product(r[i], radix, carry);
      MulAddStep(decimal, i, radix, carry);
      ghost var done := r[..i];
      r := r[i := (next % 10) as u8];
      assert r[..i + 1] == done + [(next % 10) as u8];
      carry := next / 10;
      i := i + 1;
    }
    assert decimal[i..] == [];
    assert r[..i] == r;
    while carry != 0
      invariant r + CarryDigits(carry) == MulAdd(decimal, radix, value)
      decreases carry
    {
      r := r + [(carry % 10) as u8];
      carry := carry / 10;
    }
  }

  /** The decimal form of a digit string, or nothing at the first character
      that is not a digit of the radix. */
  method Convert(digits: string, radix: u32) returns (r: Option<string>)
    requires radix <= 16
    ensures r.Some? <==> AllDigits(digits, radix)
    ensures r.Some? ==> r.value == Decimal(ValueOf(digits, radix))
  {
    var decimal: seq<u8> := [0];
    var i := 0;
    while i < |digits|
      invariant 0 <= i <= |digits| && Decimals(decimal) && |decimal| >= 1
      invariant AllDigits(digits[..i], radix) && Little(decimal) == ValueOf(digits[..i], radix)
    {
      match DigitOf(digits[i], radix)
      case None =>
        return None;
      case Some(value) =>
        MulAddValue(decimal, radix, value);
        decimal := Absorb(decimal, radix, value);
        assert digits[..i + 1][..i] == digits[..i];
        i := i + 1;
    }
    assert digits[..i] == digits;
    while |decimal| > 1 && decimal[|decimal| - 1] == 0
      invariant Decimals(decimal) && |decimal| >= 1 && Little(decimal) == ValueOf(digits, radix)
    {
      DropZero(decimal);
      decimal := decimal[..|decimal| - 1];
    }
    RenderTrimmed(decimal);
    return Some(Render(decimal));
  }

  // ----- the conversion is about the number that the text stands for -----

  lemma DigitAt(v: nat)
    requires v < 16
    ensures LowerDigits[v] == if v < 10 then ('0' as int + v) as char else ('a' as int + (v - 10)) as char
    ensures UpperDigits[v] == if v < 10 then ('0' as int + v) as char else ('A' as int + (v - 10)) as char
  {
    assert v == 0 || v == 1 || v == 2 || v == 3 || v == 4 || v == 5 || v == 6 || v == 7 || v == 8 || v == 9 || v == 10
           || v == 11 || v == 12 || v == 13 || v == 14 || v == 15;
  }

  lemma DigitMeans(c: char, base: nat, v: nat)
    requires 2 <= base <= 16 && v < base
    ensures c == LowerDigits[v] || c == UpperDigits[v] <==> DigitOf(c, base as u32) == Some(v as u32)
  {
    DigitAt(v);
  }

  /** Positional value and positional notation are the same. */
  lemma {:induction false} WritesValue(digits: string, base: nat, n: nat)
    requires 2 <= base <= 16
    ensures Writes(digits, base, n)
            <==> AllDigits(digits, base as u32) && ValueOf(digits, base as u32) == n
    decreases |digits|
  {
    hide DigitOf;
    if digits != "" {
      var k := |digits| - 1;
      var c := digits[k];
      DigitMeans(c, base, n % base);
      WritesValue(digits[..k], base, n / base);
      assert forall i :: 0 <= i < k ==> digits[..k][i] == digits[i];
      if AllDigits(digits, base as u32) {
        var v, w := DigitOf(c, base as u32).value as nat, ValueOf(digits[..k], base as u32);
        DigitBelow(c, base as u32);
        LastPlace(w, base, v, n);
      }
    }
  }

  lemma DigitBelow(c: char, radix: u32)
    ensures DigitOf(c, radix).Some? ==> DigitOf(c, radix).value < radix
  {
  }

  lemma LastPlace(w: nat, base: nat, v: nat, n: nat)
    requires base > 0 && v < base
    ensures w * base + v == n <==> w == n / base && v == n % base
  {
    var q := n / base;
    assert n == q * base + n % base;
    if w > q {
      TimesMore(q + 1, w, base);
    } else if w < q {
      TimesMore(w + 1, q, base);
    }
  }

  lemma TimesMore(x: nat, y: nat, base: nat)
    requires x <= y
    ensures x * base <= y * base
    ensures x > 0 ==> x * base == (x - 1) * base + base
  {
    assert y * base == x * base + (y - x) * base;
  }

  lemma {:induction false} SeparatedWithout(text: string, spaced: string)
    ensures Separated(text, spaced) <==> text == Without(spaced, '_')
    decreases |spaced|
  {
    if spaced != "" {
      if spaced[0] == '_' {
        SeparatedWithout(text, spaced[1..]);
      } else if text != "" {
        SeparatedWithout(text[1..], spaced[1..]);
        assert text == [text[0]] + text[1..];
      }
    }
  }

  lemma SuffixedOnce(text: string, raw: string)
    ensures Suffixed(text, raw) <==> text == if raw != "" && raw[|raw| - 1] == 'n' then raw[..|raw| - 1] else raw
  {
    if raw == text + "n" {
      assert raw[..|raw| - 1] == text;
    }
    if raw != "" && raw[|raw| - 1] == 'n' {
      assert raw == raw[..|raw| - 1] + "n";
    }
  }

  /** The literal without suffix and separators. */
  lemma CleanedExactly(text: string, spaced: string, raw: string)
    ensures Separated(text, spaced) && Suffixed(spaced, raw) ==> text == Cleaned(raw)
  {
    SeparatedWithout(text, spaced);
    SuffixedOnce(spaced, raw);
  }

  lemma CleanedHas(raw: string) returns (spaced: string)
    ensures Separated(Cleaned(raw), spaced) && Suffixed(spaced, raw)
  {
    spaced := if raw != "" && raw[|raw| - 1] == 'n' then raw[..|raw| - 1] else raw;
    SeparatedWithout(Cleaned(raw), spaced);
    SuffixedOnce(spaced, raw);
  }

  /** The prefix tells the base, and decimal digits have none. */
  lemma NotationOf(cleaned: string, prefix: string, base: nat, digits: string)
    requires Notation(prefix, base) && cleaned == prefix + digits && AllDigits(digits, base as u32)
    ensures Radix(cleaned) as nat == base && Digits(cleaned) == digits
  {
    if base == 10 && |digits| >= 2 {
      assert DigitOf(digits[1], 10).Some?;
    } else if base != 10 {
      assert cleaned[2..] == digits;
    }
  }

  lemma NotationHas(cleaned: string) returns (prefix: string)
    ensures Notation(prefix, Radix(cleaned) as nat) && cleaned == prefix + Digits(cleaned)
  {
    prefix := if Radix(cleaned) == 10 then "" else cleaned[..2];
    assert Radix(cleaned) != 10 ==> cleaned[..2] == [cleaned[0], cleaned[1]];
  }

  /** The literals that stand for a number are those that the lexer accepts, and
      the number is their positional value. */
  lemma DenotesExactly(raw: string, n: nat)
    ensures Denotes(raw, n) <==> Validated(raw) && LiteralValue(raw) == n
  {
    hide Writes, Separated, Suffixed, AllDigits, ValueOf, Radix, Digits, Cleaned;
    if Denotes(raw, n) {
      var prefix, base: nat, digits, spaced :| Spells(raw, n, prefix, base, digits, spaced);
      WritesValue(digits, base, n);
      CleanedExactly(prefix + digits, spaced, raw);
      NotationOf(Cleaned(raw), prefix, base, digits);
    }
    if Validated(raw) && LiteralValue(raw) == n {
      var c := Cleaned(raw);
      var spaced := CleanedHas(raw);
      var prefix := NotationHas(c);
      WritesValue(Digits(c), Radix(c) as nat, n);
      assert Spells(raw, n, prefix, Radix(c) as nat, Digits(c), spaced);
    }
  }

  /** The decimal string of a number is its decimal text. */
  lemma {:induction false} DecimalIsText(n: nat)
    ensures DecimalText(Decimal(n), n) && (n > 0 ==> Decimal(n)[0] != '0')
  {
    TenAt(n % 10);
    var s := Decimal(n);
    if n >= 10 {
      DecimalIsText(n / 10);
      assert s[..|s| - 1] == Decimal(n / 10);
    } else {
      assert s[..0] == "";
    }
  }

  /** The literal stands for a number; the result is its decimal text. */
  method FromLiteral(raw: string) returns (decimal: string)
    requires exists n :: Denotes(raw, n)
    ensures forall n :: Denotes(raw, n) ==> DecimalText(decimal, n)
  {
    hide Denotes, DecimalText, AllDigits, Radix, Digits, Cleaned, Decimal, ValueOf;
    ghost var m :| Denotes(raw, m);
    DenotesExactly(raw, m);
    var cleaned := Cleaned(raw);
    var r := Convert(Digits(cleaned), Radix(cleaned));
    decimal := r.value;
    DecimalIsText(m);
    forall n | Denotes(raw, n) ensures DecimalText(decimal, n) {
      DenotesExactly(raw, n);
    }
  }

  /** A BigInt literal used as a property key: its decimal text; a malformed one
      is kept, without suffix and separators. */
  method PropertyName(raw: string) returns (name: string)
    ensures forall n :: Denotes(raw, n) ==> DecimalText(name, n)
    ensures (exists n :: Denotes(raw, n)) || exists spaced :: Separated(name, spaced) && Suffixed(spaced, raw)
  {
    hide Denotes, DecimalText, AllDigits, Radix, Digits, Cleaned, Decimal, ValueOf, Separated, Suffixed;
    var cleaned := Cleaned(raw);
    var r := Convert(Digits(cleaned), Radix(cleaned));
    name := if r.Some? then r.value else cleaned;
    if Validated(raw) {
      DenotesExactly(raw, LiteralValue(raw));
      DecimalIsText(LiteralValue(raw));
    } else {
      ghost var spaced := CleanedHas(raw);
    }
    forall n | Denotes(raw, n) ensures DecimalText(name, n) {
      DenotesExactly(raw, n);
    }
  }

  /** Two literals, in whatever notation, have the same decimal text exactly when
      they stand for the same number. */
  lemma SameDecimalSameValue(a: string, m: nat, b: string, n: nat, s: string, t: string)
    requires Denotes(a, m) && Denotes(b, n) && DecimalText(s, m) && DecimalText(t, n)
    ensures s == t <==> m == n
    ensures forall k :: Denotes(a, k) ==> k == m
  {
    hide Denotes, DecimalText, Validated, LiteralValue;
    SameText(s, m, t, n);
    DenotesExactly(a, m);
    forall k | Denotes(a, k) ensures k == m {
      DenotesExactly(a, k);
    }
  }
}
