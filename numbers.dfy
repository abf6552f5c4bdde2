/** Python numbers as the filter settings hold them: an int, or a float, with
    str() and float() on their texts. */
module Numbers {
  import opened Common

  /** An int, or a float given by the decimal m / 10^k that it prints as. */
  datatype Num = Int(i: int) | Float(m: int, k: nat)

  function Val(x: Num): real
  {
    match x
    case Int(i) => i as real
    case Float(m, k) => m as real / Pow10(k) as real
  }

  /** A float with no decimals is its numerator. */
  lemma WholeVal(m: int)
    ensures Val(Float(m, 0)) == m as real
  {
  }

  function Abs(m: int): nat
  {
    if m < 0 then -m else m
  }

  /** A float's value is negative exactly when its numerator is. */
  lemma FloatSign(m: int, k: nat)
    ensures Val(Float(m, k)) < 0.0 <==> m < 0
    ensures Val(Float(m, k)) > 0.0 <==> m > 0
  {
    var p := Pow10(k) as real;
    assert Val(Float(m, k)) * p == m as real;
  }

  /** The same decimal with no trailing zero after the point. */
  function {:induction false} Shortest(m: int, k: nat): (r: (int, nat))
    ensures r.1 <= k
    ensures Val(Float(r.0, r.1)) == Val(Float(m, k))
    ensures r.1 == 0 || r.0 % 10 != 0
    decreases k
  {
    if k > 0 && m % 10 == 0 then
      var r := Shortest(m / 10, k - 1);
      ShiftPoint(m / 10, k - 1);
      assert m == 10 * (m / 10);
      r
    else (m, k)
  }

  /** Writing a zero after a decimal keeps its value. */
  lemma ShiftPoint(q: int, k: nat)
    ensures Val(Float(10 * q, k + 1)) == Val(Float(q, k))
  {
    var p := Pow10(k) as real;
    assert Pow10(k + 1) as real == 10.0 * p;
    assert (10 * q) as real == 10.0 * q as real;
  }

  /** The k-digit, zero-padded text of n < 10^k. */
  function Padded(n: nat, k: nat): (s: string)
    requires n < Pow10(k)
    ensures |s| == k && forall i :: 0 <= i < k ==> IsDigit(s[i])
    decreases k
  {
    if k == 0 then "" else Padded(n / 10, k - 1) + [DigitChar(n % 10)]
  }

  /** Leading zeros do not change what a padded text reads as. */
  lemma {:induction false} PaddedValue(n: nat, k: nat)
    requires n < Pow10(k)
    ensures DigitsValue(Padded(n, k)) == n
    decreases k
  {
    if k > 0 {
      PaddedValue(n / 10, k - 1);
      var s := Padded(n, k);
      assert s[..|s| - 1] == Padded(n / 10, k - 1);
    }
  }

  /** str(i) for an int. */
  function IntText(i: int): (s: string)
    ensures |s| >= 1
  {
    (if i < 0 then "-" else "") + NatToString(Abs(i))
  }

  /** Digits and points only. */
  predicate DecimalChars(s: string)
  {
    forall i :: 0 <= i < |s| ==> IsDigit(s[i]) || s[i] == '.'
  }

  lemma DecimalCharsJoin(a: string, b: string)
    requires DecimalChars(a) && DecimalChars(b)
    ensures DecimalChars(a + b)
  {
    forall i | 0 <= i < |a + b|
      ensures IsDigit((a + b)[i]) || (a + b)[i] == '.'
    {
      if i < |a| { assert (a + b)[i] == a[i]; } else { assert (a + b)[i] == b[i - |a|]; }
    }
  }

  /** The digits of a float's text after its sign: the whole part, a point,
      and the decimals, at least one of them. */
  function FloatDigits(a: nat, k: nat): string
  {
    if k == 0 then NatToString(a) + ".0"
    else
      var p := Pow10(k);
      NatToString(Whole(a, p)) + "." + Padded(Frac(a, p), k)
  }

  /** The whole part of a / p. */
  function Whole(a: nat, p: nat): (q: nat)
    requires p >= 1
    ensures q * p <= a
  {
    a / p
  }

  /** The remainder of a / p: what the whole part leaves over. */
  function Frac(a: nat, p: nat): (r: nat)
    requires p >= 1
    ensures r < p && Whole(a, p) * p + r == a
  {
    a % p
  }

  lemma FloatDigitsShape(a: nat, k: nat)
    ensures var s := FloatDigits(a, k);
      |s| >= 3 && '.' in s && DecimalChars(s)
  {
    if k == 0 {
      var w := NatToString(a);
      DecimalCharsJoin(w, ".0");
      assert (w + ".0")[|w|] == '.';
    } else {
      var p := Pow10(k);
      var w, f := NatToString(Whole(a, p)), Padded(Frac(a, p), k);
      DecimalCharsJoin(w, ".");
      DecimalCharsJoin(w + ".", f);
      assert w + "." + f == FloatDigits(a, k);
      assert (w + "." + f)[|w|] == '.';
    }
  }

  /** str(x) for a float written m / 10^k, in positional notation: a minus
      sign when negative, then at least one decimal and no trailing zero
      after the first. */
  function FloatText(m: int, k: nat): string
  {
    var r := Shortest(m, k);
    (if r.0 < 0 then "-" else "") + FloatDigits(Abs(r.0), r.1)
  }

  /** The characters str() writes for a number: digits, a point, and a minus
      sign only in front. */
  predicate NumberChars(s: string)
  {
    |s| >= 1 && forall i :: 0 <= i < |s| ==> IsDigit(s[i]) || s[i] == '.' || (i == 0 && s[i] == '-')
  }

  /** str(x). */
  function Text(x: Num): (s: string)
    ensures NumberChars(s)
    ensures s[0] == '-' <==> Val(x) < 0.0
    ensures x.Float? ==> '.' in s
  {
    match x
    case Int(i) => IntTextShape(i); IntText(i)
    case Float(m, k) => FloatTextShape(m, k); FloatText(m, k)
  }

  lemma IntTextShape(i: int)
    ensures NumberChars(IntText(i))
    ensures IntText(i)[0] == '-' <==> i < 0
  {
    var w := NatToString(Abs(i));
    if i < 0 {
      assert IntText(i) == "-" + w;
    } else {
      assert IntText(i) == w && IsDigit(w[0]);
    }
  }

  lemma FloatTextShape(m: int, k: nat)
    ensures NumberChars(FloatText(m, k))
    ensures FloatText(m, k)[0] == '-' <==> Val(Float(m, k)) < 0.0
    ensures '.' in FloatText(m, k)
  {
    var r := Shortest(m, k);
    FloatSign(m, k);
    FloatSign(r.0, r.1);
    var d := FloatDigits(Abs(r.0), r.1);
    FloatDigitsShape(Abs(r.0), r.1);
    if r.0 < 0 {
      assert FloatText(m, k) == "-" + d;
      assert FloatText(m, k)[1..] == d;
    } else {
      assert FloatText(m, k) == d && (IsDigit(d[0]) || d[0] == '.');
    }
  }

  // ---------------------------------------------------------------------------
  // float()

  /** float(s) for a decimal literal: an optional sign, digits with at most
      one point and at least one digit, and an optional exponent ("e" or "E",
      an optional sign and digits). None where float() raises a ValueError. */
  function ParseFloat(s: string): (r: Option<Num>)
    ensures r.Some? ==> r.value.Float?
    ensures r.Some? ==> |s| >= 1
  {
    if |s| > 0 && (s[0] == '-' || s[0] == '+') then
      match ParseUnsigned(s[1..])
      case Some(d) => Some(Float(if s[0] == '-' then -d.0 else d.0, d.1))
      case None => None
    else
      match ParseUnsigned(s)
      case Some(d) => Some(Float(d.0, d.1))
      case None => None
  }

  /** The position of the first "e" or "E", or the length when there is none. */
  function ExpAt(s: string): (e: nat)
    ensures e <= |s|
    ensures forall j :: 0 <= j < e ==> s[j] != 'e' && s[j] != 'E'
    ensures e < |s| ==> s[e] == 'e' || s[e] == 'E'
  {
    if |s| == 0 || s[0] == 'e' || s[0] == 'E' then 0 else 1 + ExpAt(s[1..])
  }

  /** An unsigned literal as a decimal m / 10^k. */
  function ParseUnsigned(s: string): (r: Option<(int, nat)>)
    ensures r.Some? ==> |s| >= 1
  {
    var e := ExpAt(s);
    if e == |s| then ParseMantissa(s)
    else
      match (ParseMantissa(s[..e]), ParseExponent(s[e + 1..]))
      case (Some(d), Some(x)) => Some(Scaled(d.0, d.1, x))
      case _ => None
  }

  /** Digits with at most one point, at least one digit, as m / 10^k with k
      the number of digits after the point. */
  function ParseMantissa(s: string): (r: Option<(int, nat)>)
    ensures r.Some? ==> |s| >= 1
  {
    var parts := Split(s, '.');
    if |parts| == 1 then
      (match ParseNat(s) case Some(n) => Some((n, 0)) case None => None)
    else if |parts| == 2 then ParseDotted(parts[0], parts[1])
    else None
  }

  /** The digits before and after the point, either run possibly empty but
      not both. */
  function ParseDotted(w: string, f: string): (r: Option<(int, nat)>)
    ensures r.Some? ==> |w| + |f| >= 1
  {
    var whole := if |w| == 0 then Some(0) else ParseNat(w);
    var frac := if |f| == 0 then Some(0) else ParseNat(f);
    if |w| + |f| == 0 || whole.None? || frac.None? then None
    else Some((Shifted(whole.value, |f|) + frac.value, |f|))
  }

  /** a * 10^k. */
  function Shifted(a: nat, k: nat): nat
  {
    a * Pow10(k)
  }

  /** The exponent after "e": an optional sign and digits. */
  function ParseExponent(s: string): (r: Option<int>)
  {
    if |s| > 0 && (s[0] == '-' || s[0] == '+') then
      match ParseNat(s[1..])
      case Some(n) => Some(if s[0] == '-' then -(n as int) else n)
      case None => None
    else
      match ParseNat(s)
      case Some(n) => Some(n)
      case None => None
  }

  /** m / 10^k times 10^x, again as a decimal. */
  function Scaled(m: int, k: nat, x: int): (int, nat)
  {
    if x >= k then (m * Pow10(x - k), 0) else (m, k - x)
  }

  /** A text of digits holds no point, sign or exponent letter. */
  lemma DigitsOnly(s: string)
    requires forall i :: 0 <= i < |s| ==> IsDigit(s[i])
    ensures '.' !in s && 'e' !in s && 'E' !in s
  {
    assert forall i :: 0 <= i < |s| ==> s[i] != '.' && s[i] != 'e' && s[i] != 'E';
  }

  /** Digits and points hold no exponent, so only the mantissa is read. */
  lemma NoExponent(s: string)
    requires DecimalChars(s)
    ensures ParseUnsigned(s) == ParseMantissa(s)
  {
    assert forall i :: 0 <= i < |s| ==> s[i] != 'e' && s[i] != 'E';
  }

  /** Two runs of digits joined by a point read as one decimal. */
  lemma MantissaOfParts(w: string, f: string, a: nat, b: nat)
    requires ParseNat(w) == Some(a) && ParseNat(f) == Some(b)
    ensures ParseMantissa(w + "." + f) == Some((Shifted(a, |f|) + b, |f|))
  {
    DigitsOnly(w);
    DigitsOnly(f);
    SplitTwo(w, f, '.');
    assert w + "." + f == w + ['.'] + f;
    MantissaOfSplit(w + "." + f, w, f, a, b);
  }

  lemma MantissaOfSplit(s: string, w: string, f: string, a: nat, b: nat)
    requires Split(s, '.') == [w, f] && ParseNat(w) == Some(a) && ParseNat(f) == Some(b)
    ensures ParseMantissa(s) == Some((Shifted(a, |f|) + b, |f|))
  {
    assert ParseDotted(w, f) == Some((Shifted(a, |f|) + b, |f|));
  }

  /** The unsigned part of a text reads back as its decimal. */
  lemma ReadFloatDigits(a: nat, k: nat)
    ensures ParseUnsigned(FloatDigits(a, k)) == Some(if k == 0 then (a * 10, 1) else (a, k))
  {
    FloatDigitsShape(a, k);
    NoExponent(FloatDigits(a, k));
    if k == 0 {
      ParseNatToString(a);
      assert ParseNat("0") == Some(0);
      MantissaOfParts(NatToString(a), "0", a, 0);
      assert NatToString(a) + "." + "0" == FloatDigits(a, 0);
    } else {
      var p := Pow10(k);
      ParseNatToString(Whole(a, p));
      PaddedValue(Frac(a, p), k);
      MantissaOfParts(NatToString(Whole(a, p)), Padded(Frac(a, p), k), Whole(a, p), Frac(a, p));
    }
  }

  /** float(str(x)) == x for every int and every float. */
  lemma ParseText(x: Num)
    ensures ParseFloat(Text(x)).Some? && Val(ParseFloat(Text(x)).value) == Val(x)
  {
    match x
    case Int(i) => ParseIntText(i);
    case Float(m, k) => ParseFloatText(m, k);
  }

  lemma ParseIntText(i: int)
    ensures ParseFloat(IntText(i)) == Some(Float(i, 0))
  {
    var a := Abs(i);
    var w := NatToString(a);
    DigitsOnly(w);
    SplitNoSep(w, '.');
    assert forall j :: 0 <= j < |w| ==> w[j] != 'e' && w[j] != 'E';
    assert ExpAt(w) == |w|;
    ParseNatToString(a);
    assert ParseUnsigned(w) == Some((a, 0));
    if i < 0 {
      assert IntText(i) == "-" + w && IntText(i)[1..] == w;
    } else {
      assert IntText(i) == w && IsDigit(w[0]);
    }
  }

  lemma ParseFloatText(m: int, k: nat)
    ensures ParseFloat(FloatText(m, k)).Some? && Val(ParseFloat(FloatText(m, k)).value) == Val(Float(m, k))
  {
    var r := Shortest(m, k);
    var a := Abs(r.0);
    var d := FloatDigits(a, r.1);
    var u: (int, nat) := if r.1 == 0 then (a * 10, 1) else (a, r.1);
    ReadFloatDigits(a, r.1);
    if r.1 == 0 {
      ShiftPoint(a, 0);
    }
    assert Val(Float(u.0, u.1)) == Val(Float(a, r.1));
    if r.0 < 0 {
      assert FloatText(m, k) == "-" + d;
      ParseMinus(d, u);
      NegVal(u.0, u.1);
      NegVal(a, r.1);
    } else {
      assert FloatText(m, k) == d;
      FloatDigitsShape(a, r.1);
      ParsePlain(d, u);
    }
  }

  lemma ParseMinus(d: string, u: (int, nat))
    requires ParseUnsigned(d) == Some(u)
    ensures ParseFloat("-" + d) == Some(Float(-u.0, u.1))
  {
    assert ("-" + d)[1..] == d;
  }

  lemma ParsePlain(d: string, u: (int, nat))
    requires ParseUnsigned(d) == Some(u) && DecimalChars(d)
    ensures ParseFloat(d) == Some(Float(u.0, u.1))
  {
    assert IsDigit(d[0]) || d[0] == '.';
  }

  lemma NegVal(m: int, k: nat)
    ensures Val(Float(-m, k)) == -Val(Float(m, k))
  {
  }

  /** Ints print without a point and floats with one: 30 is "30" and 30.0
      is "30.0", however many zeros it was given with. */
  lemma WholeTextExamples()
    ensures Text(Int(30)) == "30" && Text(Float(30, 0)) == "30.0" && Text(Float(300, 1)) == "30.0"
  {
    assert NatToString(30) == "30";
    assert Shortest(300, 1) == (30, 0);
  }

  /** A negative float keeps its sign: -5.0 is "-5.0". */
  lemma NegativeTextExample()
    ensures Text(Float(-5, 0)) == "-5.0"
  {
    assert Shortest(-5, 0) == (-5, 0);
    assert NatToString(5) == "5";
    assert FloatDigits(5, 0) == "5.0";
  }

  /** A fraction keeps its decimals: 31.25 is "31.25". */
  lemma FractionTextExample()
    ensures Text(Float(3125, 2)) == "31.25"
  {
    assert Shortest(3125, 2) == (3125, 2);
    assert Pow10(2) == 100;
    assert Whole(3125, 100) == 31 && Frac(3125, 100) == 25;
    assert NatToString(31) == "31";
    assert Padded(25, 2) == "25";
    assert FloatDigits(3125, 2) == "31" + "." + "25";
  }

  /** float() reads a sign: "-5.0" is -5. */
  lemma ParseSignExample()
    ensures ParseFloat("-5.0") == Some(Float(-50, 1)) && Val(Float(-50, 1)) == -5.0
  {
    assert ParseNat("5") == Some(5) && ParseNat("0") == Some(0);
    MantissaOfParts("5", "0", 5, 0);
    assert "5" + "." + "0" == "5.0";
    NoExponent("5.0");
    ParseMinus("5.0", (50, 1));
    assert "-" + "5.0" == "-5.0";
  }

  /** float() reads an exponent: "1e2" is 100. */
  lemma ParseExponentExample()
    ensures ParseFloat("1e2") == Some(Float(100, 0))
  {
    assert ExpAt("1e2") == 1;
    assert "1e2"[..1] == "1" && "1e2"[2..] == "2";
    assert Split("1", '.') == ["1"] by { SplitNoSep("1", '.'); }
    assert ParseNat("1") == Some(1) && ParseNat("2") == Some(2);
    assert ParseMantissa("1") == Some((1, 0));
    assert ParseExponent("2") == Some(2);
    assert Scaled(1, 0, 2) == (100, 0);
  }

  /** An empty text and a lone point are not numbers. */
  lemma ParseRejectsExamples()
    ensures ParseFloat("").None? && ParseFloat(".").None?
  {
    assert Split(".", '.') == ["", ""] by { SplitTwo("", "", '.'); }
  }
}
