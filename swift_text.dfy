/** The few Swift/Foundation string primitives the tracker relies on:
    `Int(String)` on a 64-bit platform, `String.components(separatedBy:)`
    with a one-character separator, `String.contains` and the decimal
    rendering of an `Int`. Strings are sequences of characters. */
module SwiftText {

  /** Swift's `Optional`. */
  datatype Option<+T> = None | Some(value: T)

  /** Bounds of Swift's `Int` on 64-bit Apple platforms. */
  const IntMin: int := -0x8000_0000_0000_0000
  const IntMax: int := 0x7FFF_FFFF_FFFF_FFFF

  predicate InIntRange(n: int) {
    IntMin <= n <= IntMax
  }

  // ---------------------------------------------------------------------
  // Decimal digits

  predicate IsDigit(c: char) {
    '0' <= c <= '9'
  }

  predicate AllDigits(s: string) {
    forall i :: 0 <= i < |s| ==> IsDigit(s[i])
  }

  function DigitValue(c: char): (d: nat)
    requires IsDigit(c)
    ensures d <= 9
  {
    c as int - '0' as int
  }

  function DigitChar(d: nat): (c: char)
    requires d <= 9
    ensures IsDigit(c) && DigitValue(c) == d
  {
    ('0' as int + d) as char
  }

  /** The value of a string of decimal digits, most significant first. */
  function DigitsValue(s: string): nat
    requires AllDigits(s)
  {
    if |s| == 0 then 0 else DigitsValue(s[..|s| - 1]) * 10 + DigitValue(s[|s| - 1])
  }

  // ---------------------------------------------------------------------
  // Int(String)

  /** `Int(text)`: an optional `+` or `-`, then one or more ASCII digits and
      nothing else (no spaces); a value outside the 64-bit range gives nil. */
  function ParseInt(text: string): (r: Option<int>)
    ensures r.Some? ==> InIntRange(r.value)
    ensures r.Some? ==> |text| > 0 && (r.value < 0 ==> text[0] == '-')
    ensures r.Some? ==> text[0] == '+' || text[0] == '-' || IsDigit(text[0])
    ensures r.Some? ==> IsDigit(text[|text| - 1])
    ensures r.Some? ==> forall i :: 1 <= i < |text| ==> IsDigit(text[i])
  {
    if |text| == 0 then None
    else
      var signed := text[0] == '+' || text[0] == '-';
      var digits := if signed then text[1..] else text;
      if |digits| == 0 || !AllDigits(digits) then None
      else
        var magnitude: int := DigitsValue(digits);
        var value: int := if text[0] == '-' then -magnitude else magnitude;
        if InIntRange(value) then Some(value) else None
  }

  /** Decimal rendering of a natural number, without sign or leading zeros. */
  function NaturalDecimal(n: nat): (s: string)
    ensures |s| > 0 && AllDigits(s)
    ensures |s| > 1 ==> s[0] != '0'
    decreases n
  {
    if n < 10 then [DigitChar(n)] else NaturalDecimal(n / 10) + [DigitChar(n % 10)]
  }

  /** `String(n)`: the decimal rendering of an integer, `-` for negatives. */
  function Decimal(n: int): string {
    if n < 0 then "-" + NaturalDecimal(-n) else NaturalDecimal(n)
  }

  lemma {:induction false} NaturalDecimalValue(n: nat)
    ensures DigitsValue(NaturalDecimal(n)) == n
    decreases n
  {
    var s := NaturalDecimal(n);
    if n >= 10 {
      NaturalDecimalValue(n / 10);
      assert s[..|s| - 1] == NaturalDecimal(n / 10);
    }
  }

  /** `Int(String(n))` gives back `n` exactly when `n` fits in 64 bits. */
  lemma ParseDecimal(n: int)
    ensures ParseInt(Decimal(n)) == if InIntRange(n) then Some(n) else None
  {
    if n < 0 {
      var text := Decimal(n);
      assert text[0] == '-' && text[1..] == NaturalDecimal(-n);
      NaturalDecimalValue(-n);
      ParseSigned(text);
    } else {
      NaturalDecimalValue(n);
      ParseUnsigned(Decimal(n));
    }
  }

  /** Leading zeros do not change the value parsed. */
  lemma {:induction false} LeadingZeroValue(s: string)
    requires AllDigits(s)
    ensures AllDigits("0" + s) && DigitsValue("0" + s) == DigitsValue(s)
    decreases |s|
  {
    if |s| > 0 {
      var t := "0" + s;
      assert t[..|t| - 1] == "0" + s[..|s| - 1];
      LeadingZeroValue(s[..|s| - 1]);
    }
  }

  /** With `ParseSigned`, the converse of `ParseInt`'s contract: digits
      alone give their value whenever it fits in 64 bits, and nil otherwise. */
  lemma ParseUnsigned(digits: string)
    requires |digits| > 0 && AllDigits(digits)
    ensures ParseInt(digits) == if InIntRange(DigitsValue(digits)) then Some(DigitsValue(digits) as int) else None
  {
    assert IsDigit(digits[0]);
  }

  /** A sign followed by digits gives the signed value of the digits
      whenever it fits in 64 bits, and nil otherwise. */
  lemma ParseSigned(text: string)
    requires |text| > 1 && (text[0] == '+' || text[0] == '-') && AllDigits(text[1..])
    ensures var m := DigitsValue(text[1..]) as int;
      var v := if text[0] == '-' then -m else m;
      ParseInt(text) == if InIntRange(v) then Some(v) else None
  {
  }

  /** `Int("0" + d)` equals `Int(d)`: a leading zero changes nothing. */
  lemma ParseLeadingZero(digits: string)
    requires |digits| > 0 && AllDigits(digits)
    ensures ParseInt("0" + digits) == ParseInt(digits)
  {
    LeadingZeroValue(digits);
    ParseUnsigned("0" + digits);
    ParseUnsigned(digits);
  }

  // ---------------------------------------------------------------------
  // components(separatedBy:)

  /** Number of occurrences of `c` in `s`. */
  function Count(s: string, c: char): nat {
    if |s| == 0 then 0 else (if s[0] == c then 1 else 0) + Count(s[1..], c)
  }

  /** The inverse of `Split`: the parts glued back together with `sep`. */
  function Join(parts: seq<string>, sep: char): string {
    if |parts| == 0 then ""
    else if |parts| == 1 then parts[0]
    else parts[0] + [sep] + Join(parts[1..], sep)
  }

  /** `s.components(separatedBy: String(sep))`: the maximal runs of `s`
      between occurrences of `sep`, empty runs included, so that the empty
      string gives one empty component. */
  function Split(s: string, sep: char): (parts: seq<string>)
    ensures |parts| > 0
    ensures forall i :: 0 <= i < |parts| ==> sep !in parts[i]
    ensures Join(parts, sep) == s
    decreases |s|
  {
    if |s| == 0 then [""]
    else
      var rest := Split(s[1..], sep);
      if s[0] == sep then
        assert s == [sep] + s[1..];
        [""] + rest
      else
        var parts := [[s[0]] + rest[0]] + rest[1..];
        assert parts[1..] == rest[1..];
        assert s == [s[0]] + s[1..];
        parts
  }

  /** One more separator, one more component. */
  lemma {:induction false} SplitCount(s: string, sep: char)
    ensures |Split(s, sep)| == Count(s, sep) + 1
    decreases |s|
  {
    if |s| > 0 {
      SplitCount(s[1..], sep);
    }
  }

  /** A string free of the separator is a single component. */
  lemma {:induction false} SplitWithout(a: string, sep: char)
    requires sep !in a
    ensures Split(a, sep) == [a]
    decreases |a|
  {
    if |a| > 0 {
      SplitWithout(a[1..], sep);
    }
  }

  /** A separator-free prefix followed by the separator is the first component. */
  lemma {:induction false} SplitAfter(a: string, t: string, sep: char)
    requires sep !in a
    ensures Split(a + [sep] + t, sep) == [a] + Split(t, sep)
    decreases |a|
  {
    var s := a + [sep] + t;
    if |a| == 0 {
      assert s[1..] == t;
    } else {
      assert s[1..] == a[1..] + [sep] + t;
      SplitAfter(a[1..], t, sep);
      assert [a[0]] + a[1..] == a;
    }
  }

  /** Splitting undoes joining separator-free parts. */
  lemma {:induction false} SplitJoin(parts: seq<string>, sep: char)
    requires |parts| > 0
    requires forall i :: 0 <= i < |parts| ==> sep !in parts[i]
    ensures Split(Join(parts, sep), sep) == parts
    decreases |parts|
  {
    if |parts| == 1 {
      SplitWithout(parts[0], sep);
    } else {
      SplitJoin(parts[1..], sep);
      SplitAfter(parts[0], Join(parts[1..], sep), sep);
    }
  }

  // ---------------------------------------------------------------------
  // String.contains

  predicate OccursAt(s: string, sub: string, i: nat) {
    i + |sub| <= |s| && s[i..i + |sub|] == sub
  }

  /** `s.contains(sub)`: `sub` occurs somewhere in `s`. */
  predicate Contains(s: string, sub: string) {
    exists i: nat :: i <= |s| && OccursAt(s, sub, i)
  }

  /** A text contains its own prefix. */
  lemma ContainsPrefix(sub: string, rest: string)
    ensures Contains(sub + rest, sub)
  {
    assert OccursAt(sub + rest, sub, 0);
  }

  /** A string lacking the first character of `sub` does not contain `sub`. */
  lemma NotContainsWithoutHead(s: string, sub: string)
    requires |sub| > 0 && sub[0] !in s
    ensures !Contains(s, sub)
  {
    forall i: nat | i + |sub| <= |s|
      ensures !OccursAt(s, sub, i)
    {
      assert s[i..i + |sub|][0] == s[i];
    }
  }
}
