/** Decimal numerals as the source prints and pads them. */
module Decimal {
  predicate IsDigit(c: char) { '0' <= c <= '9' }

  predicate AllDigits(s: string) { forall i :: 0 <= i < |s| ==> IsDigit(s[i]) }

  function Digit(d: nat): (c: char)
    requires d < 10
    ensures IsDigit(c) && (c as int) - ('0' as int) == d
  {
    ('0' as int + d) as char
  }

  /** The shortest decimal numeral. */
  function Digits(n: nat): (s: string)
    ensures s != "" && AllDigits(s)
  {
    if n < 10 then [Digit(n)] else Digits(n / 10) + [Digit(n % 10)]
  }

  function Value(s: string): nat
    requires AllDigits(s)
  {
    if s == "" then 0 else 10 * Value(s[..|s| - 1]) + (s[|s| - 1] as int - '0' as int)
  }

  function Zeros(n: nat): (s: string)
    ensures |s| == n && AllDigits(s)
  {
    if n == 0 then "" else "0" + Zeros(n - 1)
  }

  /** At least `width` digits, filled with zeros on the left. */
  function Padded(n: nat, width: nat): (s: string)
    ensures AllDigits(s) && |s| >= width
  {
    (if |Digits(n)| < width then Zeros(width - |Digits(n)|) else "") + Digits(n)
  }

  function Pow10(n: nat): nat { if n == 0 then 1 else 10 * Pow10(n - 1) }

  lemma {:induction false} ValueOfDigits(n: nat)
    ensures Value(Digits(n)) == n
  {
    if n >= 10 {
      ValueOfDigits(n / 10);
      assert Digits(n)[..|Digits(n)| - 1] == Digits(n / 10);
    } else {
      assert Digits(n)[..0] == "";
    }
  }

  lemma {:induction false} ValueOfZeros(n: nat, s: string)
    requires AllDigits(s)
    ensures Value(Zeros(n) + s) == Value(s)
    decreases |s|, n
  {
    if s != "" {
      var t := Zeros(n) + s;
      assert t[..|t| - 1] == Zeros(n) + s[..|s| - 1];
      ValueOfZeros(n, s[..|s| - 1]);
    } else if n > 0 {
      ZerosAtEnd(n);
      ValueOfZeros(n - 1, "");
      assert Zeros(n) + "" == Zeros(n) && Zeros(n - 1) + "" == Zeros(n - 1);
      assert Zeros(n)[..n - 1] == Zeros(n - 1);
    } else {
      assert Zeros(0) + "" == "";
    }
  }

  lemma {:induction false} ZerosAtEnd(n: nat)
    requires n > 0
    ensures Zeros(n) == Zeros(n - 1) + "0"
  {
    if n > 1 { ZerosAtEnd(n - 1); }
  }

  /** Padding does not change what a numeral reads as. */
  lemma ValueOfPadded(n: nat, width: nat)
    ensures Value(Padded(n, width)) == n
  {
    ValueOfDigits(n);
    if |Digits(n)| < width {
      ValueOfZeros(width - |Digits(n)|, Digits(n));
    } else {
      assert "" + Digits(n) == Digits(n);
    }
  }

  lemma {:induction false} DigitsFit(n: nat, width: nat)
    requires width >= 1
    ensures |Digits(n)| <= width <==> n < Pow10(width)
  {
    if n < 10 {
      Pow10Grows(width);
    } else if width == 1 {
      assert |Digits(n / 10)| >= 1;
      assert Pow10(1) == 10 by { assert Pow10(0) == 1; }
    } else {
      DigitsFit(n / 10, width - 1);
    }
  }

  lemma {:induction false} Pow10Grows(n: nat)
    requires n >= 1
    ensures Pow10(n) >= 10
  {
    if n > 1 { Pow10Grows(n - 1); } else { assert Pow10(0) == 1; }
  }

  /** A padded numeral has exactly its width as long as the number fits. */
  lemma PaddedWidth(n: nat, width: nat)
    requires width >= 1
    ensures |Padded(n, width)| == width <==> n < Pow10(width)
  {
    DigitsFit(n, width);
  }

  // ---- Reading digits back ------------------------------------------------------------------

  /** The end of the run of digits that starts at i. */
  function RunEnd(s: string, i: nat): (j: nat)
    requires i <= |s|
    ensures i <= j <= |s| && AllDigits(s[i..j]) && (j < |s| ==> !IsDigit(s[j]))
    decreases |s| - i
  {
    if i < |s| && IsDigit(s[i]) then
      var j := RunEnd(s, i + 1);
      assert s[i..j] == [s[i]] + s[i + 1..j];
      j
    else
      assert s[i..i] == "";
      i
  }

  /** The start of the run of digits that ends at i. */
  function RunStart(s: string, i: nat): (j: nat)
    requires i <= |s|
    ensures j <= i && AllDigits(s[j..i]) && (j > 0 ==> !IsDigit(s[j - 1]))
  {
    if i > 0 && IsDigit(s[i - 1]) then
      var j := RunStart(s, i - 1);
      assert s[j..i] == s[j..i - 1] + [s[i - 1]];
      j
    else
      assert s[i..i] == "";
      i
  }

  lemma RunEndIs(s: string, i: nat, j: nat)
    requires i <= j < |s| && AllDigits(s[i..j]) && !IsDigit(s[j])
    ensures RunEnd(s, i) == j
  {}
}
