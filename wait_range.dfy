/** The estimated-wait text of a tracking record, `"<min>-<max>"`, and how
    the second request handler turns it into two minute counts: split on
    `-`, then exactly two components, both accepted by `Int(String)`. */
module WaitRange {
  import opened SwiftText

  /** The minimum and maximum estimated minutes. No order between them is
      enforced. */
  datatype WaitWindow = WaitWindow(min: int, max: int)

  /** The wait window in `text`, or `None` when the split on `-` does not
      give exactly two components that both parse as `Int`. */
  function ParseWaitRange(text: string): (r: Option<WaitWindow>)
    ensures r.Some? ==> 0 <= r.value.min <= IntMax && 0 <= r.value.max <= IntMax
  {
    var parts := Split(text, '-');
    if |parts| == 2 && ParseInt(parts[0]).Some? && ParseInt(parts[1]).Some? then
      Some(WaitWindow(ParseInt(parts[0]).value, ParseInt(parts[1]).value))
    else
      None
  }

  /** The text the tracker service sends for a window of natural numbers. */
  function FormatWaitRange(w: WaitWindow): string
    requires w.min >= 0 && w.max >= 0
  {
    Decimal(w.min) + "-" + Decimal(w.max)
  }

  /** Text around a single hyphen: accepted exactly when both sides parse,
      and then the window is the two parsed values, in the order written. */
  lemma WaitRangeOfParts(a: string, b: string)
    requires '-' !in a && '-' !in b
    ensures ParseWaitRange(a + "-" + b) ==
      if ParseInt(a).Some? && ParseInt(b).Some? then Some(WaitWindow(ParseInt(a).value, ParseInt(b).value))
      else None
  {
    SplitAfter(a, b, '-');
    SplitWithout(b, '-');
  }

  /** Text with no hyphen, or with more than one, is always refused. */
  lemma WaitRangeNeedsOneHyphen(text: string)
    requires Count(text, '-') != 1
    ensures ParseWaitRange(text) == None
  {
    SplitCount(text, '-');
  }

  /** Any accepted text has exactly one hyphen. */
  lemma WaitRangeHasOneHyphen(text: string)
    requires ParseWaitRange(text).Some?
    ensures Count(text, '-') == 1
  {
    SplitCount(text, '-');
  }

  /** Rendering a window the service can send and parsing it back gives the
      same window, whether or not `min <= max`. */
  lemma WaitRangeRoundTrip(w: WaitWindow)
    requires 0 <= w.min <= IntMax && 0 <= w.max <= IntMax
    ensures ParseWaitRange(FormatWaitRange(w)) == Some(w)
  {
    var a, b := Decimal(w.min), Decimal(w.max);
    assert '-' !in a by { assert AllDigits(a); }
    assert '-' !in b by { assert AllDigits(b); }
    ParseDecimal(w.min);
    ParseDecimal(w.max);
    WaitRangeOfParts(a, b);
  }

  /** "5-10" gives a window from 5 to 10 minutes. */
  lemma FiveToTen()
    ensures ParseWaitRange("5-10") == Some(WaitWindow(5, 10))
  {
    assert Decimal(5) == "5" && Decimal(10) == "10";
    assert FormatWaitRange(WaitWindow(5, 10)) == "5-10";
    WaitRangeRoundTrip(WaitWindow(5, 10));
  }

  /** A descending range is accepted as written: min 10, max 5. */
  lemma DescendingAccepted()
    ensures ParseWaitRange("10-5") == Some(WaitWindow(10, 5))
  {
    assert Decimal(5) == "5" && Decimal(10) == "10";
    assert FormatWaitRange(WaitWindow(10, 5)) == "10-5";
    WaitRangeRoundTrip(WaitWindow(10, 5));
  }

  /** Text without a hyphen is one component, so it is refused. */
  lemma NoHyphenRefused()
    ensures ParseWaitRange("5") == None
    ensures ParseWaitRange("garbage") == None
  {
    SplitWithout("5", '-');
    SplitWithout("garbage", '-');
  }

  /** Three components are refused even though each one is a number. */
  lemma ThreePartsRefused()
    ensures ParseWaitRange("5-10-15") == None
  {
    assert Join(["5", "10", "15"], '-') == "5-10-15";
    SplitJoin(["5", "10", "15"], '-');
  }

  /** An empty side does not parse: "-5" and "5-" are refused. */
  lemma EmptySideRefused()
    ensures ParseWaitRange("-5") == None
    ensures ParseWaitRange("5-") == None
  {
    assert "-5" == "" + "-" + "5";
    WaitRangeOfParts("", "5");
    assert "5-" == "5" + "-" + "";
    WaitRangeOfParts("5", "");
  }

  /** `Int(String)` does not skip spaces, so " 5-10" is refused. */
  lemma SpaceRefused()
    ensures ParseWaitRange(" 5-10") == None
  {
    assert " 5-10" == " 5" + "-" + "10";
    WaitRangeOfParts(" 5", "10");
  }

  /** `Int(String)` takes a leading `+`, so "+5-+10" is accepted. */
  lemma PlusSignsAccepted()
    ensures ParseWaitRange("+5-+10") == Some(WaitWindow(5, 10))
  {
    assert "+5-+10" == "+5" + "-" + "+10";
    WaitRangeOfParts("+5", "+10");
    assert "+5"[1..] == Decimal(5) && "+10"[1..] == Decimal(10);
    NaturalDecimalValue(5);
    NaturalDecimalValue(10);
    ParseSigned("+5");
    ParseSigned("+10");
  }

  /** A side too large for a 64-bit `Int`, on either side of the hyphen,
      makes the whole text refused. */
  lemma OverflowRefused(n: int, b: string)
    requires n > IntMax && '-' !in b
    ensures ParseWaitRange(Decimal(n) + "-" + b) == None
    ensures ParseWaitRange(b + "-" + Decimal(n)) == None
  {
    ParseDecimal(n);
    assert AllDigits(Decimal(n));
    WaitRangeOfParts(Decimal(n), b);
    WaitRangeOfParts(b, Decimal(n));
  }
}
