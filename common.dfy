/** Values and string operations shared by the viewer's modules: the optional and
    error-carrying results that stand for Python's None and raised exceptions, and
    the few pieces of Python's str and list behaviour that the viewer relies on
    (upper(), find(), split() on one character, join(), str() and int() of a
    non-negative integer, and truncation of a float toward zero). */
module Common {

  datatype Option<T> = None | Some(value: T)

  /** The outcome of an operation that can raise: Failure carries a short reason. */
  datatype Result<T> = Success(value: T) | Failure(error: string)

  // ---------------------------------------------------------------------------
  // Characters and case

  function UpperChar(c: char): char
  {
    if 'a' <= c <= 'z' then (c as int - 32) as char else c
  }

  /** str.upper() restricted to ASCII letters. */
  function ToUpper(s: string): (r: string)
    ensures |r| == |s|
    ensures forall i :: 0 <= i < |s| ==> r[i] == UpperChar(s[i])
  {
    seq(|s|, i requires 0 <= i < |s| => UpperChar(s[i]))
  }

  predicate IsUpper(s: string)
  {
    forall i :: 0 <= i < |s| ==> UpperChar(s[i]) == s[i]
  }

  lemma UpperIsIdempotent(s: string)
    ensures IsUpper(ToUpper(s))
    ensures IsUpper(s) ==> ToUpper(s) == s
  {
  }

  /** str.replace(a, b) for single characters. */
  function ReplaceChar(s: string, a: char, b: char): (r: string)
    ensures |r| == |s|
    ensures forall i :: 0 <= i < |s| ==> r[i] == (if s[i] == a then b else s[i])
  {
    seq(|s|, i requires 0 <= i < |s| => if s[i] == a then b else s[i])
  }

  // ---------------------------------------------------------------------------
  // Substrings

  predicate OccursAt(s: string, sub: string, i: int)
  {
    0 <= i && i + |sub| <= |s| && s[i..i + |sub|] == sub
  }

  /** str.find(sub, from): the first index at or after `from` where `sub` occurs, or -1. */
  function FindFrom(s: string, sub: string, from: nat): (r: int)
    ensures r == -1 || (from <= r && OccursAt(s, sub, r))
    ensures r == -1 ==> forall i :: from <= i ==> !OccursAt(s, sub, i)
    ensures r != -1 ==> forall i :: from <= i < r ==> !OccursAt(s, sub, i)
    decreases |s| - from
  {
    if from + |sub| > |s| then -1
    else if s[from..from + |sub|] == sub then from
    else FindFrom(s, sub, from + 1)
  }

  /** str.find(sub). */
  function Find(s: string, sub: string): (r: int)
    ensures r == -1 || OccursAt(s, sub, r)
    ensures r == -1 <==> forall i :: !OccursAt(s, sub, i)
    ensures r != -1 ==> forall i :: 0 <= i < r ==> !OccursAt(s, sub, i)
  {
    FindFrom(s, sub, 0)
  }

  /** `sub in s` for strings. */
  predicate Contains(s: string, sub: string)
  {
    Find(s, sub) != -1
  }

  lemma ContainsSelf(s: string)
    ensures Contains(s, s)
  {
    assert OccursAt(s, s, 0);
  }

  predicate EndsWith(s: string, suffix: string)
  {
    |suffix| <= |s| && s[|s| - |suffix|..] == suffix
  }

  /** s[k:] with Python's reading of a negative k (counted from the end, clamped at 0). */
  function PySliceFrom(s: string, k: int): string
  {
    if k >= 0 then (if k <= |s| then s[k..] else [])
    else if |s| + k >= 0 then s[|s| + k..]
    else s
  }

  /** `s[len(s) - n:] == suffix`, the suffix test written in the source, agrees
      with EndsWith whenever the suffix is exactly n characters long. */
  lemma {:induction false} SuffixSliceIsEndsWith(s: string, suffix: string)
    requires |suffix| > 0
    ensures (PySliceFrom(s, |s| - |suffix|) == suffix) <==> EndsWith(s, suffix)
  {
    if |s| < |suffix| {
      var t := PySliceFrom(s, |s| - |suffix|);
      if |s| + (|s| - |suffix|) >= 0 {
        assert |t| == |suffix| - |s|;
      } else {
        assert t == s;
      }
      assert |t| < |suffix|;
    }
  }

  // ---------------------------------------------------------------------------
  // split / join on one separator character

  /** str.split(sep) for a one-character separator: always at least one part,
      empty parts kept ("".split(" ") == [""], "a  b".split(" ") == ["a", "", "b"]). */
  function Split(s: string, sep: char): (parts: seq<string>)
    ensures |parts| >= 1
    decreases |s|
  {
    if |s| == 0 then [""]
    else
      var rest := Split(s[1..], sep);
      if s[0] == sep then [""] + rest
      else [[s[0]] + rest[0]] + rest[1..]
  }

  /** A string holding the separator splits into at least two parts. */
  lemma {:induction false} SplitHasTwo(s: string, sep: char)
    requires sep in s
    ensures |Split(s, sep)| >= 2
    decreases |s|
  {
    if s[0] != sep {
      assert sep in s[1..] by {
        var i :| 0 <= i < |s| && s[i] == sep;
        assert s[1..][i - 1] == sep;
      }
      SplitHasTwo(s[1..], sep);
    }
  }

  /** find() of a one-character string is -1 exactly when the character is absent. */
  lemma FindChar(s: string, c: char)
    ensures Find(s, [c]) != -1 <==> c in s
  {
    if c in s {
      var i :| 0 <= i < |s| && s[i] == c;
      assert OccursAt(s, [c], i);
    }
    if Find(s, [c]) != -1 {
      var i := Find(s, [c]);
      assert s[i..i + 1][0] == s[i];
    }
  }

  /** find() is -1 when some character of sub never occurs in s. */
  lemma FindAbsent(s: string, sub: string, k: nat)
    requires k < |sub| && sub[k] !in s
    ensures Find(s, sub) == -1
  {
    forall i | 0 <= i && i + |sub| <= |s|
      ensures !OccursAt(s, sub, i)
    {
      assert s[i..i + |sub|][k] == s[i + k];
    }
  }

  /** find() is i when sub occurs at i and nowhere before. */
  lemma FindAt(s: string, sub: string, i: nat)
    requires OccursAt(s, sub, i)
    requires forall j :: 0 <= j < i ==> !OccursAt(s, sub, j)
    ensures Find(s, sub) == i
  {
  }

  /** The elements of s in reverse order. */
  function Reverse<T>(s: seq<T>): (r: seq<T>)
    ensures |r| == |s| && forall i :: 0 <= i < |s| ==> r[i] == s[|s| - 1 - i]
  {
    seq(|s|, i requires 0 <= i < |s| => s[|s| - 1 - i])
  }

  /** sep.join(parts). */
  function Join(parts: seq<string>, sep: char): string
    requires |parts| >= 1
  {
    if |parts| == 1 then parts[0] else parts[0] + [sep] + Join(parts[1..], sep)
  }

  /** Three parts joined: the first, the separator, the second, the separator, the third. */
  lemma Join3(a: string, b: string, c: string, sep: char)
    ensures Join([a, b, c], sep) == a + [sep] + b + [sep] + c
  {
    assert [a, b, c][1..] == [b, c];
    assert [b, c][1..] == [c];
    assert Join([b, c], sep) == b + [sep] + c;
    assert Join([a, b, c], sep) == a + [sep] + (b + [sep] + c);
  }

  /** "".join(parts). */
  function Concat(parts: seq<string>): string
  {
    if |parts| == 0 then "" else parts[0] + Concat(parts[1..])
  }

  lemma {:induction false} SplitNoSep(p: string, sep: char)
    requires sep !in p
    ensures Split(p, sep) == [p]
    decreases |p|
  {
    if |p| > 0 {
      SplitNoSep(p[1..], sep);
      assert [p[0]] + p[1..] == p;
    }
  }

  lemma {:induction false} SplitAfterPart(p: string, r: string, sep: char)
    requires sep !in p
    ensures Split(p + [sep] + r, sep) == [p] + Split(r, sep)
    decreases |p|
  {
    var s := p + [sep] + r;
    if |p| == 0 {
      assert s[0] == sep && s[1..] == r;
    } else {
      assert s[0] == p[0];
      assert s[1..] == p[1..] + [sep] + r;
      SplitAfterPart(p[1..], r, sep);
      assert [p[0]] + p[1..] == p;
    }
  }

  /** Two separator-free texts joined by the separator split back into the two. */
  lemma SplitTwo(a: string, b: string, sep: char)
    requires sep !in a && sep !in b
    ensures Split(a + [sep] + b, sep) == [a, b]
  {
    SplitAfterPart(a, b, sep);
    SplitNoSep(b, sep);
  }

  /** No part of a split holds the separator. */
  lemma {:induction false} SplitPartsFree(s: string, sep: char)
    ensures forall i :: 0 <= i < |Split(s, sep)| ==> sep !in Split(s, sep)[i]
    decreases |s|
  {
    if |s| > 0 {
      SplitPartsFree(s[1..], sep);
    }
  }

  /** The last part of a split is decided by the text after the last separator. */
  lemma {:induction false} SplitLastAppend(a: string, b: string, sep: char)
    ensures var parts := Split(a + [sep] + b, sep);
      parts[|parts| - 1] == Split(b, sep)[|Split(b, sep)| - 1]
    decreases |a|
  {
    var s := a + [sep] + b;
    if |a| == 0 {
      assert s[0] == sep && s[1..] == b;
    } else {
      assert s[0] == a[0];
      assert s[1..] == a[1..] + [sep] + b;
      SplitLastAppend(a[1..], b, sep);
      assert sep in s[1..] by {
        assert s[1..][|a| - 1] == sep;
      }
      SplitHasTwo(s[1..], sep);
    }
  }

  /** Splitting a join gives back the parts, provided no part holds the separator. */
  lemma {:induction false} SplitJoin(parts: seq<string>, sep: char)
    requires |parts| >= 1
    requires forall i :: 0 <= i < |parts| ==> sep !in parts[i]
    ensures Split(Join(parts, sep), sep) == parts
    decreases |parts|
  {
    if |parts| == 1 {
      SplitNoSep(parts[0], sep);
    } else {
      SplitJoin(parts[1..], sep);
      SplitAfterPart(parts[0], Join(parts[1..], sep), sep);
      assert [parts[0]] + parts[1..] == parts;
    }
  }

  /** Joining never loses a character and adds one separator between parts. */
  lemma {:induction false} JoinLength(parts: seq<string>, sep: char)
    requires |parts| >= 1
    ensures |Join(parts, sep)| == |Concat(parts)| + |parts| - 1
    decreases |parts|
  {
    if |parts| > 1 {
      JoinLength(parts[1..], sep);
    } else {
      assert Concat(parts[1..]) == "";
    }
  }

  // ---------------------------------------------------------------------------
  // Numbers as text

  predicate IsDigit(c: char)
  {
    '0' <= c <= '9'
  }

  function DigitChar(d: nat): char
    requires d < 10
  {
    ('0' as int + d) as char
  }

  /** str(n) for a non-negative integer. */
  function NatToString(n: nat): (s: string)
    ensures |s| >= 1
    ensures forall i :: 0 <= i < |s| ==> IsDigit(s[i])
    decreases n
  {
    if n < 10 then [DigitChar(n)] else NatToString(n / 10) + [DigitChar(n % 10)]
  }

  function Pow10(n: nat): (r: nat)
    ensures r >= 1
  {
    if n == 0 then 1 else 10 * Pow10(n - 1)
  }

  /** A number is below 10 to the power of the length of its decimal text. */
  lemma {:induction false} NatToStringBound(n: nat)
    ensures n < Pow10(|NatToString(n)|)
    decreases n
  {
    if n >= 10 {
      NatToStringBound(n / 10);
    }
  }

  lemma {:induction false} Pow10Mono(a: nat, b: nat)
    requires a <= b
    ensures Pow10(a) <= Pow10(b)
    decreases b
  {
    if a < b {
      Pow10Mono(a, b - 1);
    }
  }

  /** str() is injective on non-negative integers. */
  lemma NatToStringInjective(a: nat, b: nat)
    requires NatToString(a) == NatToString(b)
    ensures a == b
  {
    DigitsValueOfNatToString(a);
    DigitsValueOfNatToString(b);
  }

  function DigitsValue(s: string): nat
    requires forall i :: 0 <= i < |s| ==> IsDigit(s[i])
  {
    if |s| == 0 then 0
    else
      assert IsDigit(s[|s| - 1]);
      DigitsValue(s[..|s| - 1]) * 10 + (s[|s| - 1] as int - '0' as int)
  }

  /** int(s) for a string of decimal digits (leading zeros allowed); None where
      Python's int() would raise. Signs and surrounding blanks are not modelled. */
  function ParseNat(s: string): (r: Option<nat>)
    ensures r.Some? <==> (|s| >= 1 && forall i :: 0 <= i < |s| ==> IsDigit(s[i]))
  {
    if |s| >= 1 && forall i :: 0 <= i < |s| ==> IsDigit(s[i]) then Some(DigitsValue(s)) else None
  }

  lemma {:induction false} DigitsValueOfNatToString(n: nat)
    ensures DigitsValue(NatToString(n)) == n
    decreases n
  {
    var s := NatToString(n);
    if n >= 10 {
      DigitsValueOfNatToString(n / 10);
      assert s[..|s| - 1] == NatToString(n / 10);
    }
  }

  /** int(str(n)) == n. */
  lemma ParseNatToString(n: nat)
    ensures ParseNat(NatToString(n)) == Some(n)
  {
    DigitsValueOfNatToString(n);
  }

  /** The two-digit, zero-padded text of n < 100 ("07", "42"). */
  function TwoDigits(n: nat): (s: string)
    requires n < 100
    ensures |s| == 2 && IsDigit(s[0]) && IsDigit(s[1])
  {
    [DigitChar(n / 10), DigitChar(n % 10)]
  }

  lemma TwoDigitsParse(n: nat)
    requires n < 100
    ensures ParseNat(TwoDigits(n)) == Some(n)
  {
    var s := TwoDigits(n);
    assert s[..1] == [DigitChar(n / 10)];
    assert s[..1][..0] == [];
    assert DigitsValue(s[..1]) == n / 10;
    assert DigitsValue(s) == (n / 10) * 10 + n % 10;
  }

  /** The four-digit, zero-padded text of n < 10000. */
  function FourDigits(n: nat): (s: string)
    requires n < 10000
    ensures |s| == 4
    ensures forall i :: 0 <= i < 4 ==> IsDigit(s[i])
  {
    TwoDigits(n / 100) + TwoDigits(n % 100)
  }

  lemma FourDigitsParse(n: nat)
    requires n < 10000
    ensures ParseNat(FourDigits(n)) == Some(n)
  {
    var s := FourDigits(n);
    var hi, lo := n / 100, n % 100;
    assert s[..3][..2] == TwoDigits(hi);
    assert s[..2] == TwoDigits(hi);
    TwoDigitsParse(hi);
    assert s[..3][..2][..1] == [DigitChar(hi / 10)];
    assert DigitsValue(s[..2]) == hi;
    assert DigitsValue(s[..3]) == hi * 10 + lo / 10;
    assert DigitsValue(s) == (hi * 10 + lo / 10) * 10 + lo % 10;
  }

  // ---------------------------------------------------------------------------
  // Reals

  /** int(x) for a float: truncation toward zero. */
  function Trunc(x: real): int
  {
    if x >= 0.0 then x.Floor else -((-x).Floor)
  }

  lemma TruncOfNat(n: nat)
    ensures Trunc(n as real) == n
  {
  }
}
