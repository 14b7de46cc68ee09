/**
 * The merge-patch body the agent sends: `fmt.Sprintf` with the verb `%d`
 * applied to an `int32` replica count, inside the fixed JSON text
 * `{"spec":{"replicas":N}}`. A small parser for the same text is the
 * partner that shows the body carries exactly the replica count.
 */
module Format {
  import opened Wrappers

  /** Go's int32. */
  newtype int32 = x: int | -0x8000_0000 <= x < 0x8000_0000

  predicate IsDigit(c: char) {
    '0' <= c <= '9'
  }

  function DigitChar(d: nat): (c: char)
    requires d < 10
    ensures IsDigit(c) && DigitValue(c) == d
  {
    ('0' as int + d) as char
  }

  function DigitValue(c: char): nat
    requires IsDigit(c)
  {
    c as int - '0' as int
  }

  /** The decimal digits of `n`, most significant first, without leading zeros. */
  function NatDigits(n: nat): (r: string)
    ensures |r| >= 1
    ensures forall i :: 0 <= i < |r| ==> IsDigit(r[i])
    ensures r[0] == '0' <==> n == 0
    ensures n < 10 ==> |r| == 1
  {
    if n < 10 then [DigitChar(n)] else NatDigits(n / 10) + [DigitChar(n % 10)]
  }

  /**
   * `%d`: an optional minus sign followed by the digits of the magnitude.
   * It loses nothing: every integer, negative ones included, is read back
   * from its text.
   */
  function Decimal(n: int): (r: string)
    ensures ParseDecimal(r) == Some(n)
  {
    if n < 0 then
      DigitsRoundTrip(-n);
      var r := "-" + NatDigits(-n);
      assert r[1..] == NatDigits(-n);
      r
    else
      DigitsRoundTrip(n);
      NatDigits(n)
  }

  predicate AllDigits(s: string) {
    forall i :: 0 <= i < |s| ==> IsDigit(s[i])
  }

  /** The number a non-empty run of digits denotes. */
  function DigitsValue(s: string): nat
    requires |s| >= 1 && AllDigits(s)
  {
    if |s| == 1 then DigitValue(s[0])
    else 10 * DigitsValue(s[..|s| - 1]) + DigitValue(s[|s| - 1])
  }

  /**
   * Reads back the text `Decimal` writes: an optional minus sign and a run
   * of digits with no leading zero, and no minus sign before zero.
   */
  function ParseDecimal(s: string): Option<int> {
    if |s| >= 2 && s[0] == '-' && s[1] != '0' && AllDigits(s[1..]) then Some(-(DigitsValue(s[1..]) as int))
    else if |s| >= 1 && AllDigits(s) && (s[0] == '0' ==> |s| == 1) then Some(DigitsValue(s))
    else None
  }

  lemma {:induction false} DigitsRoundTrip(n: nat)
    ensures DigitsValue(NatDigits(n)) == n
  {
    if n >= 10 {
      var s := NatDigits(n);
      DigitsRoundTrip(n / 10);
      assert s[..|s| - 1] == NatDigits(n / 10);
      assert s[|s| - 1] == DigitChar(n % 10);
    }
  }

  /** A run of digits without a leading zero is the text of the number it denotes. */
  lemma {:induction false} DigitsCanonical(t: string)
    requires |t| >= 1 && AllDigits(t) && (t[0] == '0' ==> |t| == 1)
    ensures NatDigits(DigitsValue(t)) == t
  {
    if |t| == 1 {
      assert DigitChar(DigitValue(t[0])) == t[0];
    } else {
      var init := t[..|t| - 1];
      DigitsCanonical(init);
      assert init[0] == t[0];
      var v := DigitsValue(t);
      assert v / 10 == DigitsValue(init) && v % 10 == DigitValue(t[|t| - 1]);
      assert DigitChar(DigitValue(t[|t| - 1])) == t[|t| - 1];
      assert t == init + [t[|t| - 1]];
    }
  }

  /**
   * The parser accepts only the text `%d` writes: a number has one spelling,
   * so `-0`, `+1` and `007` are refused.
   */
  lemma ParseDecimalCanonical(s: string, n: int)
    ensures ParseDecimal(s) == Some(n) <==> s == Decimal(n)
  {
    if ParseDecimal(s) == Some(n) {
      if s[0] == '-' {
        DigitsCanonical(s[1..]);
        assert s == "-" + s[1..];
      } else {
        DigitsCanonical(s);
      }
    }
  }

  /** Spellings of a number that `%d` never writes are refused. */
  lemma ParseDecimalRefusesOtherSpellings()
    ensures ParseDecimal("-0") == None
    ensures ParseDecimal("007") == None
    ensures ParseDecimal("+1") == None
    ensures ParseDecimal("") == None
  {
  }

  const PatchPrefix: string := "{\"spec\":{\"replicas\":"
  const PatchSuffix: string := "}}"

  /**
   * The merge-patch body that sets `spec.replicas` and nothing else; it
   * sets it to exactly the given count.
   */
  function PatchBody(replicas: int32): (r: string)
    ensures ParsePatchBody(r) == Some(replicas as int)
  {
    var d := Decimal(replicas as int);
    var body := PatchPrefix + d + PatchSuffix;
    assert body[..|PatchPrefix|] == PatchPrefix;
    assert body[|body| - |PatchSuffix|..] == PatchSuffix;
    assert body[|PatchPrefix|..|body| - |PatchSuffix|] == d;
    body
  }

  /** The replica count a body of the shape `{"spec":{"replicas":N}}` sets. */
  function ParsePatchBody(body: string): Option<int> {
    if |body| >= |PatchPrefix| + |PatchSuffix|
       && body[..|PatchPrefix|] == PatchPrefix
       && body[|body| - |PatchSuffix|..] == PatchSuffix
    then ParseDecimal(body[|PatchPrefix|..|body| - |PatchSuffix|])
    else None
  }

  /** Different counts give different bodies. */
  lemma PatchBodyInjective(a: int32, b: int32)
    ensures PatchBody(a) == PatchBody(b) <==> a == b
  {
  }

  /** The two bodies the agent ever sends, as literal text. */
  lemma PatchBodyText()
    ensures PatchBody(0) == "{\"spec\":{\"replicas\":0}}"
    ensures PatchBody(1) == "{\"spec\":{\"replicas\":1}}"
  {
  }
}
