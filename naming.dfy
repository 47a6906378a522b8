/**
 * The name of the n-th generated rent: "Sample  -" followed by the number right-aligned
 * in a field of 7 characters (the last 7 characters of 8 spaces and the decimal number).
 */
module Naming {
  import opened Wrappers

  /** Character of a decimal digit. */
  function DigitChar(d: int): (c: char)
    requires 0 <= d < 10
    ensures '0' <= c <= '9'
  {
    ('0' as int + d) as char
  }

  /** Value of a decimal digit character. */
  function DigitValue(c: char): int
  {
    c as int - '0' as int
  }

  /** `n.ToString()` for a non-negative number: its decimal digits, most significant first. */
  function Decimal(n: nat): (s: string)
    ensures 1 <= |s|
    ensures forall i :: 0 <= i < |s| ==> '0' <= s[i] <= '9'
    ensures s[0] == '0' ==> n == 0
  {
    if n < 10 then [DigitChar(n)] else Decimal(n / 10) + [DigitChar(n % 10)]
  }

  /** The number a string of decimal digits denotes. */
  function DecimalValue(s: string): int
  {
    if s == [] then 0 else DecimalValue(s[..|s| - 1]) * 10 + DigitValue(s[|s| - 1])
  }

  /** Reading the decimal digits of n gives back n. */
  lemma {:induction false} DecimalRoundTrip(n: nat)
    ensures DecimalValue(Decimal(n)) == n
  {
    var s := Decimal(n);
    if n < 10 {
      assert s[..0] == [];
    } else {
      DecimalRoundTrip(n / 10);
      assert s[..|s| - 1] == Decimal(n / 10);
    }
  }

  /** Powers of ten. */
  function Pow10(k: nat): nat
  {
    if k == 0 then 1 else 10 * Pow10(k - 1)
  }

  /** A number below 10^k has at most k digits. */
  lemma {:induction false} DecimalWidth(n: nat, k: nat)
    requires 1 <= k && n < Pow10(k)
    ensures |Decimal(n)| <= k
  {
    if n >= 10 {
      DecimalWidth(n / 10, k - 1);
    }
  }

  /** k space characters. */
  function Spaces(k: nat): (s: string)
    ensures |s| == k && forall i :: 0 <= i < k ==> s[i] == ' '
  {
    seq(k, _ => ' ')
  }

  /** Width of the right-aligned number field. */
  const FieldWidth := 7

  /** The generated rent name for sample number n. */
  function SampleName(n: nat): (name: string)
    ensures |name| == 9 + FieldWidth
  {
    var padded := "        " + Decimal(n);
    "Sample  -" + padded[|padded| - FieldWidth..]
  }

  /** Drops the leading spaces of a string. */
  function TrimStart(s: string): (t: string)
    ensures |t| <= |s|
  {
    if s != [] && s[0] == ' ' then TrimStart(s[1..]) else s
  }

  /** The sample number a generated name carries, if it has the generated shape. */
  function SampleNumber(name: string): Option<nat>
  {
    if |name| == 9 + FieldWidth && name[..9] == "Sample  -" then
      var v := DecimalValue(TrimStart(name[9..]));
      if v >= 0 then Some(v as nat) else None
    else None
  }

  /** Trimming padding spaces off a string that starts with a non-space leaves that string. */
  lemma {:induction false} TrimSpaces(k: nat, d: string)
    requires d != [] && d[0] != ' '
    ensures TrimStart(Spaces(k) + d) == d
  {
    if k > 0 {
      assert (Spaces(k) + d)[1..] == Spaces(k - 1) + d;
      TrimSpaces(k - 1, d);
    } else {
      assert Spaces(k) + d == d;
    }
  }

  /** For numbers of up to 7 digits the name is the prefix, padding spaces, then the digits. */
  lemma SampleNameLayout(n: nat)
    requires n < Pow10(FieldWidth)
    ensures |Decimal(n)| <= FieldWidth
    ensures SampleName(n) == "Sample  -" + Spaces(FieldWidth - |Decimal(n)|) + Decimal(n)
  {
    DecimalWidth(n, FieldWidth);
    var d := Decimal(n);
    var padded := "        " + d;
    assert "        " == Spaces(8);
    assert padded[|padded| - FieldWidth..] == Spaces(FieldWidth - |d|) + d;
  }

  /** Names of samples 0 .. 9999999 carry their number. */
  lemma SampleNameRoundTrip(n: nat)
    requires n < Pow10(FieldWidth)
    ensures SampleNumber(SampleName(n)) == Some(n)
  {
    SampleNameLayout(n);
    var d := Decimal(n);
    var name := SampleName(n);
    assert name[9..] == Spaces(FieldWidth - |d|) + d;
    assert name[..9] == "Sample  -";
    TrimSpaces(FieldWidth - |d|, d);
    DecimalRoundTrip(n);
  }

  /** Two different sample numbers of up to 7 digits never share a name. */
  lemma SampleNamesDistinct(a: nat, b: nat)
    requires a < Pow10(FieldWidth) && b < Pow10(FieldWidth) && a != b
    ensures SampleName(a) != SampleName(b)
  {
    SampleNameRoundTrip(a);
    SampleNameRoundTrip(b);
  }
}
