/** The parts of Go's strconv package that haconfig/config.go relies on,
    with the arguments it passes: ParseBool, ParseInt(s, 10, 64) and
    ParseUint(s, 10, 64). A failed parse is None (the code only checks
    whether the error is nil). Also the truncation of reflect's SetInt and
    SetUint into narrower fields. */
module GoStrconv {
  import opened GoOption
  import opened GoStrings
  import opened HaconfigTypes

  const TrueLiterals: set<string> := {"1", "t", "T", "TRUE", "true", "True"}
  const FalseLiterals: set<string> := {"0", "f", "F", "FALSE", "false", "False"}

  /** strconv.ParseBool: exactly twelve spellings are accepted. */
  function ParseBool(s: string): (r: Option<bool>)
    ensures r == Some(true) <==> s in TrueLiterals
    ensures r == Some(false) <==> s in FalseLiterals
    ensures r == None <==> s !in TrueLiterals + FalseLiterals
  {
    match s
    case "1" => Some(true)
    case "t" => Some(true)
    case "T" => Some(true)
    case "TRUE" => Some(true)
    case "true" => Some(true)
    case "True" => Some(true)
    case "0" => Some(false)
    case "f" => Some(false)
    case "F" => Some(false)
    case "FALSE" => Some(false)
    case "false" => Some(false)
    case "False" => Some(false)
    case _ => None
  }

  /** strconv.FormatBool. */
  function FormatBool(b: bool): string
  {
    if b then "true" else "false"
  }

  lemma ParseFormatBool(b: bool)
    ensures ParseBool(FormatBool(b)) == Some(b)
  {
  }

  predicate AllDigits(s: string)
  {
    forall k :: 0 <= k < |s| ==> IsDigit(s[k])
  }

  function DigitValue(c: char): (d: nat)
    requires IsDigit(c)
    ensures d < 10 && DigitChar(d) == c
  {
    c as int - '0' as int
  }

  /** The number a string of decimal digits denotes, leading zeros
      allowed. */
  function DecimalValue(s: string): nat
    requires AllDigits(s)
  {
    if s == [] then 0 else DecimalValue(s[..|s| - 1]) * 10 + DigitValue(s[|s| - 1])
  }

  const MaxUint64Plus1: nat := 0x1_0000_0000_0000_0000
  const Int64Limit: nat := 0x8000_0000_0000_0000

  /** strconv.ParseUint(s, 10, 64): one or more decimal digits (no sign, no
      underscores, since the base is given), at most 2^64 - 1. */
  function ParseUint(s: string): (r: Option<nat>)
    ensures r.Some? <==> s != [] && AllDigits(s) && DecimalValue(s) < MaxUint64Plus1
    ensures r.Some? ==> r.value == DecimalValue(s)
  {
    if s != [] && AllDigits(s) && DecimalValue(s) < MaxUint64Plus1 then Some(DecimalValue(s)) else None
  }

  /** strconv.ParseInt(s, 10, 64): an optional '+' or '-', then what
      ParseUint accepts, within [-2^63, 2^63 - 1]. */
  function ParseInt(s: string): (r: Option<int>)
    ensures r.Some? ==> SignedFits(r.value, W64)
    ensures r.Some? <==>
              && s != []
              && var d := if s[0] == '+' || s[0] == '-' then s[1..] else s;
                 && d != [] && AllDigits(d)
                 && if s[0] == '-' then DecimalValue(d) <= Int64Limit else DecimalValue(d) < Int64Limit
    ensures r.Some? ==>
              var d := if s[0] == '+' || s[0] == '-' then s[1..] else s;
              r.value == if s[0] == '-' then -(DecimalValue(d) as int) else DecimalValue(d)
  {
    if s == [] then None
    else
      var neg := s[0] == '-';
      var digits := if s[0] == '+' || s[0] == '-' then s[1..] else s;
      match ParseUint(digits)
      case None => None
      case Some(un) =>
        if !neg && un >= Int64Limit then None
        else if neg && un > Int64Limit then None
        else if neg then Some(-(un as int)) else Some(un)
  }

  lemma {:induction false} DecimalValueOfDecimal(n: nat)
    ensures AllDigits(NatToDecimal(n)) && DecimalValue(NatToDecimal(n)) == n
    decreases n
  {
    var s := NatToDecimal(n);
    if n >= 10 {
      DecimalValueOfDecimal(n / 10);
      assert s[..|s| - 1] == NatToDecimal(n / 10);
    }
  }

  /** ParseUint reads back every number printed in decimal that fits in 64
      bits. */
  lemma ParseUintOfDecimal(n: nat)
    requires n < MaxUint64Plus1
    ensures ParseUint(NatToDecimal(n)) == Some(n)
  {
    DecimalValueOfDecimal(n);
  }

  /** ParseInt reads back every int64 printed in decimal. */
  lemma ParseIntOfDecimal(i: int)
    requires SignedFits(i, W64)
    ensures ParseInt(IntToDecimal(i)) == Some(i)
  {
    var s := IntToDecimal(i);
    if i < 0 {
      DecimalValueOfDecimal(-i);
      assert s[1..] == NatToDecimal(-i);
    } else {
      DecimalValueOfDecimal(i);
    }
  }

  /** A sign alone, or a sign before something non-numeric, is rejected;
      a leading '+' is accepted. */
  lemma ParseIntSign(n: nat)
    requires n < Int64Limit
    ensures ParseInt("+").None? && ParseInt("-").None?
    ensures ParseInt("+" + NatToDecimal(n)) == Some(n)
  {
    DecimalValueOfDecimal(n);
    assert ("+" + NatToDecimal(n))[1..] == NatToDecimal(n);
  }

  /** One more digit on the right: ten times the value, plus the digit. */
  lemma DecimalValueSnoc(s: string, c: char)
    requires AllDigits(s) && IsDigit(c)
    ensures AllDigits(s + [c]) && DecimalValue(s + [c]) == DecimalValue(s) * 10 + DigitValue(c)
  {
    assert (s + [c])[..|s|] == s;
  }

  /** Leading zeros and a leading '+' are accepted, "-0" is zero, and a
      trailing letter is rejected. */
  lemma ParseIntExamples()
    ensures ParseInt("+007") == Some(7)
    ensures ParseInt("-0") == Some(0)
    ensures ParseInt("12a").None?
  {
    DecimalValueSnoc("", '0');
    DecimalValueSnoc("0", '0');
    DecimalValueSnoc("00", '7');
    assert "+007"[1..] == "007" == "00" + ['7'];
    assert "-0"[1..] == "0" == "" + ['0'];
    assert !IsDigit("12a"[2]);
  }

  /** The range is exactly [-2^63, 2^63 - 1]: a number printed in decimal
      is accepted up to 2^63 - 1, and with a minus sign up to 2^63. */
  lemma ParseIntRange(n: nat)
    ensures ParseInt(NatToDecimal(n)).Some? <==> n < Int64Limit
    ensures ParseInt("-" + NatToDecimal(n)).Some? <==> n <= Int64Limit
    ensures n <= Int64Limit ==> ParseInt("-" + NatToDecimal(n)) == Some(-(n as int))
  {
    DecimalValueOfDecimal(n);
    assert ("-" + NatToDecimal(n))[1..] == NatToDecimal(n);
  }

  /** The conversion int8(x), int16(x), int32(x) of an int64: two's
      complement truncation. */
  function WrapSigned(i: int, w: IntWidth): (r: int)
    ensures SignedFits(r, w)
    ensures (r - i) % UnsignedLimit(w) == 0
    ensures SignedFits(i, w) ==> r == i
  {
    var m := UnsignedLimit(w);
    var h := SignedLimit(w);
    var r := (i + h) % m - h;
    assert (i + h) % m == i + h - m * ((i + h) / m);
    r
  }

  /** The conversion uint8(x), uint16(x), uint32(x) of a uint64. */
  function WrapUnsigned(u: nat, w: IntWidth): (r: nat)
    ensures r < UnsignedLimit(w)
    ensures (r - u) % UnsignedLimit(w) == 0
    ensures u < UnsignedLimit(w) ==> r == u
  {
    var m := UnsignedLimit(w);
    assert u % m == u - m * (u / m);
    u % m
  }
}
