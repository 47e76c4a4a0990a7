/**
  Decimal integers as text: the `%d` / `strconv.Itoa` rendering, the zero-padded
  rendering used by time layouts, and `strconv.Atoi` on a 64-bit platform.
 */
module Decimal {
  import opened Wrappers

  const Int64Min: int := -0x8000_0000_0000_0000
  const Int64Max: int := 0x7FFF_FFFF_FFFF_FFFF

  predicate IsDigit(c: char) {
    '0' <= c <= '9'
  }

  predicate AllDigits(s: string) {
    forall i :: 0 <= i < |s| ==> IsDigit(s[i])
  }

  function DigitValue(c: char): (d: nat)
    requires IsDigit(c)
    ensures d < 10
  {
    c as int - '0' as int
  }

  function DigitChar(d: nat): (c: char)
    requires d < 10
    ensures IsDigit(c) && DigitValue(c) == d
  {
    ('0' as int + d) as char
  }

  /** The value of a string of decimal digits, most significant digit first. */
  function DigitsValue(s: string): nat
    requires AllDigits(s)
  {
    if s == [] then 0 else DigitsValue(s[..|s| - 1]) * 10 + DigitValue(s[|s| - 1])
  }

  /** The shortest decimal rendering of a natural number. */
  function NatToString(n: nat): (s: string)
    ensures |s| >= 1 && AllDigits(s)
    ensures DigitsValue(s) == n
    ensures |s| == 1 || s[0] != '0'
    decreases n
  {
    if n < 10 then [DigitChar(n)]
    else
      var prefix := NatToString(n / 10);
      var s := prefix + [DigitChar(n % 10)];
      assert s[..|s| - 1] == prefix;
      s
  }

  /** `%d` and `strconv.Itoa`: a minus sign for negative numbers, then the digits. */
  function IntToString(n: int): (s: string)
    ensures |s| >= 1
    ensures n >= 0 ==> s == NatToString(n)
    ensures n < 0 ==> s == "-" + NatToString(-n)
  {
    if n < 0 then "-" + NatToString(-n) else NatToString(n)
  }

  function Zeros(k: nat): (s: string)
    ensures |s| == k && AllDigits(s)
    ensures forall i :: 0 <= i < k ==> s[i] == '0'
  {
    if k == 0 then [] else Zeros(k - 1) + "0"
  }

  /** The digits of `n`, padded on the left with zeros to at least `width` characters. */
  function Pad(n: nat, width: nat): string {
    var s := NatToString(n);
    if |s| >= width then s else Zeros(width - |s|) + s
  }

  /** Leading zeros do not change the value of a digit string. */
  lemma {:induction false} LeadingZeros(k: nat, s: string)
    requires AllDigits(s)
    ensures AllDigits(Zeros(k) + s)
    ensures DigitsValue(Zeros(k) + s) == DigitsValue(s)
    decreases |s|
  {
    var z := Zeros(k);
    assert AllDigits(z + s);
    if s == [] {
      assert z + s == z;
      ZerosValue(k);
    } else {
      var init := s[..|s| - 1];
      assert (z + s)[..|z + s| - 1] == z + init;
      LeadingZeros(k, init);
    }
  }

  lemma {:induction false} ZerosValue(k: nat)
    ensures DigitsValue(Zeros(k)) == 0
  {
    if k > 0 {
      assert Zeros(k)[..k - 1] == Zeros(k - 1);
      ZerosValue(k - 1);
    }
  }

  /** Appending a digit to a positive number appends its character to the rendering. */
  lemma AppendDigit(n: nat, d: nat)
    requires n >= 1 && d < 10
    ensures NatToString(10 * n + d) == NatToString(n) + [DigitChar(d)]
  {
    assert (10 * n + d) / 10 == n && (10 * n + d) % 10 == d;
  }

  /** The rendering of a three-digit number, digit by digit. */
  lemma ThreeDigits(n: nat, a: nat, b: nat, c: nat)
    requires 1 <= a < 10 && b < 10 && c < 10 && n == 100 * a + 10 * b + c
    ensures NatToString(n) == [DigitChar(a), DigitChar(b), DigitChar(c)]
  {
    AppendDigit(a, b);
    AppendDigit(10 * a + b, c);
  }

  /** A padded rendering is all digits, is exactly `width` long when the number fits, and reads back as `n`. */
  lemma PadSpec(n: nat, width: nat)
    ensures AllDigits(Pad(n, width))
    ensures |Pad(n, width)| >= width
    ensures |NatToString(n)| <= width ==> |Pad(n, width)| == width
    ensures DigitsValue(Pad(n, width)) == n
  {
    var s := NatToString(n);
    if |s| < width {
      LeadingZeros(width - |s|, s);
    }
  }

  /** A number below 10^w has at most w digits. */
  lemma {:induction false} NatToStringLength(n: nat, w: nat)
    requires w >= 1 && n < Pow10(w)
    ensures |NatToString(n)| <= w
    decreases w
  {
    if n >= 10 {
      assert Pow10(1) == 10;
      NatToStringLength(n / 10, w - 1);
    }
  }

  function Pow10(w: nat): (p: nat)
    ensures p >= 1
  {
    if w == 0 then 1 else 10 * Pow10(w - 1)
  }

  /** Syntax accepted by `strconv.Atoi` and `strconv.ParseInt(s, 10, 64)`: an optional sign, then one or more digits. */
  predicate IsIntLiteral(s: string) {
    var body := if |s| > 0 && (s[0] == '-' || s[0] == '+') then s[1..] else s;
    |body| > 0 && AllDigits(body)
  }

  /**
    `strconv.Atoi` on a 64-bit platform (and `strconv.ParseInt(s, 10, 64)`):
    an optional sign followed by decimal digits, within the int64 range.
    Any other input, the empty string included, is an error.
   */
  function Atoi(s: string): (r: Option<int>)
    ensures r.Some? ==> IsIntLiteral(s) && Int64Min <= r.value <= Int64Max
    ensures !IsIntLiteral(s) ==> r.None?
  {
    if |s| == 0 then None
    else
      var neg := s[0] == '-';
      var body := if s[0] == '-' || s[0] == '+' then s[1..] else s;
      if |body| == 0 || !AllDigits(body) then None
      else
        var v: int := if neg then -(DigitsValue(body) as int) else DigitsValue(body);
        if Int64Min <= v <= Int64Max then Some(v) else None
  }

  /** Atoi reads back every int64 rendered by Itoa. */
  lemma AtoiIntToString(n: int)
    requires Int64Min <= n <= Int64Max
    ensures Atoi(IntToString(n)) == Some(n)
  {
    var s := IntToString(n);
    if n < 0 {
      var digits := NatToString(-n);
      assert s[1..] == digits;
    }
  }

  /** The cases the configuration tests name: "42", "0", "-10" parse; "", "not-a-number", "42.5" do not. */
  lemma AtoiExamples()
    ensures Atoi("42") == Some(42)
    ensures Atoi("0") == Some(0)
    ensures Atoi("-10") == Some(-10)
    ensures Atoi("+7") == Some(7)
    ensures Atoi("") == None
    ensures Atoi("not-a-number") == None
    ensures Atoi("42.5") == None
  {
    assert !IsDigit('n');
    assert "42.5"[2] == '.';
    assert !AllDigits("42.5");
    assert "-10"[1..] == "10";
    assert "+7"[1..] == "7";
    assert DigitsValue("42") == 42 by {
      assert "42"[..1] == "4";
    }
    assert DigitsValue("10") == 10 by {
      assert "10"[..1] == "1";
    }
  }
}
