/** `TrackerView`: the screen that starts a lookup and shows whether it
    failed or started a live activity. Its two flags are latches: each
    value the helper's publishers emit may switch one on, and nothing
    switches it off. */
module TrackerScreen {
  import opened SwiftText
  import opened WaitRange
  import opened Tracking

  /** The Start button is enabled only for a phone number of exactly ten
      characters; what the characters are is not checked. */
  predicate StartEnabled(phoneNumber: string) {
    |phoneNumber| == 10
  }

  /** The word whose presence in `result` counts as an error. */
  const ErrorWord := "Error"

  /** `showError` after the `result` values `signals` were received, one by
      one, starting from `false`. */
  function ErrorLatched(signals: seq<string>): bool {
    if |signals| == 0 then false
    else ErrorLatched(signals[..|signals| - 1]) || Contains(signals[|signals| - 1], ErrorWord)
  }

  /** A wait pair that switches `activityStarted` on. */
  predicate BothNonZero(p: WaitPair) {
    p.min != 0 && p.max != 0
  }

  /** `activityStarted` after the wait pairs `pairs` were received, one by
      one, starting from `false`. */
  function StartedLatched(pairs: seq<WaitPair>): bool {
    if |pairs| == 0 then false
    else StartedLatched(pairs[..|pairs| - 1]) || BothNonZero(pairs[|pairs| - 1])
  }

  /** The latch is on exactly when some received value contains "Error". */
  lemma {:induction false} ErrorLatchedSome(signals: seq<string>)
    ensures ErrorLatched(signals) <==> exists i :: 0 <= i < |signals| && Contains(signals[i], ErrorWord)
    decreases |signals|
  {
    if |signals| > 0 {
      var init := signals[..|signals| - 1];
      ErrorLatchedSome(init);
      if ErrorLatched(init) {
        var i :| 0 <= i < |init| && Contains(init[i], ErrorWord);
        assert signals[i] == init[i];
      }
      if exists i :: 0 <= i < |signals| && Contains(signals[i], ErrorWord) {
        var i :| 0 <= i < |signals| && Contains(signals[i], ErrorWord);
        if i < |init| {
          assert init[i] == signals[i];
        }
      }
    }
  }

  /** The latch is on exactly when some received pair has both times non-zero. */
  lemma {:induction false} StartedLatchedSome(pairs: seq<WaitPair>)
    ensures StartedLatched(pairs) <==> exists i :: 0 <= i < |pairs| && BothNonZero(pairs[i])
    decreases |pairs|
  {
    if |pairs| > 0 {
      var init := pairs[..|pairs| - 1];
      StartedLatchedSome(init);
      if StartedLatched(init) {
        var i :| 0 <= i < |init| && BothNonZero(init[i]);
        assert pairs[i] == init[i];
      }
      if exists i :: 0 <= i < |pairs| && BothNonZero(pairs[i]) {
        var i :| 0 <= i < |pairs| && BothNonZero(pairs[i]);
        if i < |init| {
          assert init[i] == pairs[i];
        }
      }
    }
  }

  /** Receiving more values can only switch the latch on: it is on after
      `a + b` exactly when it is on after `a` or after `b` alone. */
  lemma {:induction false} ErrorLatchedAppend(a: seq<string>, b: seq<string>)
    ensures ErrorLatched(a + b) == (ErrorLatched(a) || ErrorLatched(b))
    decreases |b|
  {
    if |b| > 0 {
      assert (a + b)[..|a + b| - 1] == a + b[..|b| - 1];
      ErrorLatchedAppend(a, b[..|b| - 1]);
    } else {
      assert a + b == a;
    }
  }

  lemma {:induction false} StartedLatchedAppend(a: seq<WaitPair>, b: seq<WaitPair>)
    ensures StartedLatched(a + b) == (StartedLatched(a) || StartedLatched(b))
    decreases |b|
  {
    if |b| > 0 {
      assert (a + b)[..|a + b| - 1] == a + b[..|b| - 1];
      StartedLatchedAppend(a, b[..|b| - 1]);
    } else {
      assert a + b == a;
    }
  }

  // ---------------------------------------------------------------------
  // What a Start tap does to the flags

  /** Only error messages contain "Error": the three other messages a
      lookup can end with do not. */
  lemma NonErrorMessages()
    ensures !Contains(InvalidUrlMessage, ErrorWord)
    ensures !Contains(FirstSuccessMessage, ErrorWord)
    ensures !Contains(SecondSuccessMessage, ErrorWord)
  {
    NotContainsWithoutHead(InvalidUrlMessage, ErrorWord);
    NotContainsWithoutHead(FirstSuccessMessage, ErrorWord);
    NotContainsWithoutHead(SecondSuccessMessage, ErrorWord);
  }

  /** Every failure message contains "Error". */
  lemma ErrorMessagesContainError(error: Option<string>, reason: string)
    ensures Contains(TransportMessage(error), ErrorWord)
    ensures Contains(ParsingMessage(reason), ErrorWord)
    ensures Contains(NoTrackingDataMessage, ErrorWord)
    ensures Contains(WaitFormatMessage, ErrorWord)
  {
    StartsWithError("Error: ", ErrorDescription(error));
    StartsWithError("Error parsing JSON: ", reason);
    StartsWithError("Error: ", "No tracking data found");
    StartsWithError("Error: ", "Estimated wait time format is incorrect");
  }

  /** A message whose head begins with "Error" contains it. */
  lemma StartsWithError(head: string, rest: string)
    requires StartsWith(head, ErrorWord)
    ensures Contains(head + rest, ErrorWord)
  {
    assert head + rest == ErrorWord + (head[5..] + rest);
    ContainsPrefix(ErrorWord, head[5..] + rest);
  }

  /** A lookup ends with `result` set to one of three plain messages or to
      a message that contains "Error". */
  lemma LookupResults(
    s: Session, phoneNumber: string,
    response: Exchange<seq<TrackingData>>, second: Exchange<PizzaTrackingData>)
    ensures var r := FirstRequest(s, phoneNumber, response, second);
      Contains(r.result, ErrorWord) <==>
        r.result != InvalidUrlMessage && r.result != FirstSuccessMessage && r.result != SecondSuccessMessage
  {
    NonErrorMessages();
    var r := FirstRequest(s, phoneNumber, response, second);
    match response {
      case InvalidUrl =>
      case TransportFailure(e) =>
        ErrorMessagesContainError(e, "");
        ErrorIsNotSuccess(r.result);
      case DecodeFailure(e) =>
        ErrorMessagesContainError(None, e);
        ErrorIsNotSuccess(r.result);
      case Decoded(orders) =>
        if |orders| == 0 {
          ErrorMessagesContainError(None, "");
        } else {
          match second {
            case InvalidUrl =>
            case TransportFailure(_) =>
            case DecodeFailure(e) =>
              ErrorMessagesContainError(None, e);
              ErrorIsNotSuccess(r.result);
            case Decoded(d) =>
              ErrorMessagesContainError(None, "");
          }
        }
    }
  }

  /** After a lookup, `showError` is on exactly when it already was or the
      final `result` contains "Error": the only intermediate value,
      "First Request Successful", never switches it on. */
  lemma LookupShowsError(
    s: Session, phoneNumber: string,
    response: Exchange<seq<TrackingData>>, second: Exchange<PizzaTrackingData>)
    ensures var r := FirstRequest(s, phoneNumber, response, second);
      ErrorLatched(r.resultSignals) == (ErrorLatched(s.resultSignals) || Contains(r.result, ErrorWord))
  {
    var r := FirstRequest(s, phoneNumber, response, second);
    NonErrorMessages();
    if response.Decoded? && |response.body| > 0 {
      var order := response.body[0];
      var s1 := WithResult(
        WithRequest(s, OrdersUrl(phoneNumber))
          .(serviceMethod := order.orderDescription, startTime := order.orderTakeCompleteTime),
        FirstSuccessMessage);
      assert ErrorLatched(s1.resultSignals) == ErrorLatched(s.resultSignals);
      if r.resultSignals != s1.resultSignals {
        assert r.resultSignals == s1.resultSignals + [r.result];
      }
    }
  }

  /** An unbuildable lookup URL never switches `showError` on, although
      the lookup has failed. */
  lemma InvalidUrlShowsNoError(s: Session, phoneNumber: string, second: Exchange<PizzaTrackingData>)
    ensures ErrorLatched(FirstRequest(s, phoneNumber, InvalidUrl, second).resultSignals) == ErrorLatched(s.resultSignals)
  {
    LookupShowsError(s, phoneNumber, InvalidUrl, second);
    NonErrorMessages();
  }

  /** Every other failure of the lookup switches `showError` on. */
  lemma LookupFailureShowsError(
    s: Session, phoneNumber: string,
    response: Exchange<seq<TrackingData>>, second: Exchange<PizzaTrackingData>)
    requires response.TransportFailure? || response.DecodeFailure? || response == Decoded([])
    ensures ErrorLatched(FirstRequest(s, phoneNumber, response, second).resultSignals)
  {
    LookupShowsError(s, phoneNumber, response, second);
    ErrorMessagesContainError(if response.TransportFailure? then response.error else None,
                              if response.DecodeFailure? then response.reason else "");
  }

  /** The detail request decides `activityStarted`. Setting the minimum
      first emits it with the previous maximum, so the latch switches on
      when the new minimum is non-zero and either the new or the previous
      maximum is; a failed detail request emits no wait pair. */
  lemma DetailStartsActivity(s: Session, trackURL: string, response: Exchange<PizzaTrackingData>)
    ensures var r := SecondRequest(s, trackURL, response);
      StartedLatched(r.waitSignals) ==
        (StartedLatched(s.waitSignals) ||
         (response.Decoded? && ParseWaitRange(response.body.estimatedWaitMinutes).Some? &&
          var w := ParseWaitRange(response.body.estimatedWaitMinutes).value;
          w.min != 0 && (s.maxWaitTime != 0 || w.max != 0)))
  {
    var r := SecondRequest(s, trackURL, response);
    if response.Decoded? && ParseWaitRange(response.body.estimatedWaitMinutes).Some? {
      var w := ParseWaitRange(response.body.estimatedWaitMinutes).value;
      var added := [WaitPair(w.min, s.maxWaitTime), WaitPair(w.min, w.max)];
      assert r.waitSignals == s.waitSignals + added;
      StartedLatchedAppend(s.waitSignals, added);
      assert added[..1] == [WaitPair(w.min, s.maxWaitTime)];
      assert [WaitPair(w.min, s.maxWaitTime)][..0] == [];
    }
  }

  /** A window whose minimum is 0, such as "0-10", never switches
      `activityStarted` on, although the live activity is requested. */
  lemma ZeroMinimumStartsNothing(s: Session, trackURL: string, d: PizzaTrackingData)
    requires ParseWaitRange(d.estimatedWaitMinutes).Some?
    requires ParseWaitRange(d.estimatedWaitMinutes).value.min == 0
    ensures var r := SecondRequest(s, trackURL, Decoded(d));
      StartedLatched(r.waitSignals) == StartedLatched(s.waitSignals)
      && |r.activities| == |s.activities| + 1
  {
    DetailStartsActivity(s, trackURL, Decoded(d));
  }

  /** "0-10" is such a window. */
  lemma ZeroToTenStartsNothing(s: Session, trackURL: string, d: PizzaTrackingData)
    requires d.estimatedWaitMinutes == "0-10"
    ensures StartedLatched(SecondRequest(s, trackURL, Decoded(d)).waitSignals) == StartedLatched(s.waitSignals)
  {
    assert Decimal(0) == "0" && Decimal(10) == "10";
    assert FormatWaitRange(WaitWindow(0, 10)) == "0-10";
    WaitRangeRoundTrip(WaitWindow(0, 10));
    ZeroMinimumStartsNothing(s, trackURL, d);
  }

  /** A window "5-0" received while the previous maximum is non-zero does
      switch `activityStarted` on, through the pair emitted between the two
      assignments, though both final times are not non-zero. */
  lemma StaleMaximumStartsActivity(s: Session, trackURL: string, d: PizzaTrackingData)
    requires d.estimatedWaitMinutes == "5-0" && s.maxWaitTime != 0
    ensures var r := SecondRequest(s, trackURL, Decoded(d));
      StartedLatched(r.waitSignals) && r.maxWaitTime == 0
  {
    assert Decimal(5) == "5" && Decimal(0) == "0";
    assert FormatWaitRange(WaitWindow(5, 0)) == "5-0";
    WaitRangeRoundTrip(WaitWindow(5, 0));
    DetailStartsActivity(s, trackURL, Decoded(d));
  }

  // ---------------------------------------------------------------------
  // The screen

  class TrackerView {
    var phoneNumber: string
    var showError: bool
    var activityStarted: bool
    /** How many values of each publisher this screen has received. */
    var resultSeen: nat
    var waitSeen: nat
    const activityHelper: ActivityHelper

    ghost predicate Valid()
      reads this, activityHelper
    {
      && activityHelper.Valid()
      && resultSeen <= |activityHelper.resultSignals|
      && waitSeen <= |activityHelper.waitSignals|
      && showError == ErrorLatched(activityHelper.resultSignals[..resultSeen])
      && activityStarted == StartedLatched(activityHelper.waitSignals[..waitSeen])
    }

    /** Every value published so far has been received. */
    ghost predicate UpToDate()
      reads this, activityHelper
    {
      resultSeen == |activityHelper.resultSignals| && waitSeen == |activityHelper.waitSignals|
    }

    /** The screen is created together with its helper, so it subscribes
        while the helper still holds its initial values. */
    constructor (phoneNumber: string, activityHelper: ActivityHelper)
      requires activityHelper.Valid() && activityHelper.State() == Initial
      ensures Valid()
      ensures this.phoneNumber == phoneNumber && this.activityHelper == activityHelper
      ensures !showError && !activityStarted
    {
      this.phoneNumber := phoneNumber;
      this.activityHelper := activityHelper;
      showError, activityStarted := false, false;
      resultSeen, waitSeen := 0, 0;
    }

    /** `.onReceive(activityHelper.$result)`. */
    method ReceiveResult(result: string)
      modifies this`showError
      ensures showError == (old(showError) || Contains(result, ErrorWord))
    {
      if Contains(result, ErrorWord) {
        showError := true;
      }
    }

    /** `.onReceive($minWaitTime.combineLatest($maxWaitTime))`. */
    method ReceiveWaitTimes(minWaitTime: int, maxWaitTime: int)
      modifies this`activityStarted
      ensures activityStarted == (old(activityStarted) || (minWaitTime != 0 && maxWaitTime != 0))
    {
      if minWaitTime != 0 && maxWaitTime != 0 {
        activityStarted := true;
      }
    }

    /** Receives, in order, every value published since the last delivery. */
    method Deliver()
      requires Valid()
      modifies this`showError, this`activityStarted, this`resultSeen, this`waitSeen
      ensures Valid() && UpToDate()
      ensures showError == ErrorLatched(activityHelper.resultSignals)
      ensures activityStarted == StartedLatched(activityHelper.waitSignals)
    {
      DeliverResults();
      DeliverWaitTimes();
    }

    /** Feeds every `result` value not yet received to `ReceiveResult`. */
    method DeliverResults()
      requires Valid()
      modifies this`showError, this`resultSeen
      ensures Valid() && resultSeen == |activityHelper.resultSignals|
      ensures showError == ErrorLatched(activityHelper.resultSignals)
    {
      var signals := activityHelper.resultSignals;
      while resultSeen < |signals|
        invariant Valid()
        decreases |signals| - resultSeen
      {
        ReceiveResult(signals[resultSeen]);
        resultSeen := resultSeen + 1;
        assert signals[..resultSeen][..resultSeen - 1] == signals[..resultSeen - 1];
      }
      assert signals[..resultSeen] == signals;
    }

    /** Feeds every wait pair not yet received to `ReceiveWaitTimes`. */
    method DeliverWaitTimes()
      requires Valid()
      modifies this`activityStarted, this`waitSeen
      ensures Valid() && waitSeen == |activityHelper.waitSignals|
      ensures activityStarted == StartedLatched(activityHelper.waitSignals)
    {
      var pairs := activityHelper.waitSignals;
      while waitSeen < |pairs|
        invariant Valid()
        decreases |pairs| - waitSeen
      {
        ReceiveWaitTimes(pairs[waitSeen].min, pairs[waitSeen].max);
        waitSeen := waitSeen + 1;
        assert pairs[..waitSeen][..waitSeen - 1] == pairs[..waitSeen - 1];
      }
      assert pairs[..waitSeen] == pairs;
    }

    /** The phone number text field. */
    method EditPhoneNumber(text: string)
      modifies this`phoneNumber
      ensures phoneNumber == text
    {
      phoneNumber := text;
    }

    /** A tap on Start, then delivery of what the helper published. A
        disabled button ignores the tap. */
    method TapStart(response: Exchange<seq<TrackingData>>, second: Exchange<PizzaTrackingData>)
      requires Valid()
      modifies this`showError, this`activityStarted, this`resultSeen, this`waitSeen, activityHelper
      ensures Valid() && UpToDate()
      ensures activityHelper.State() ==
        if StartEnabled(phoneNumber) then FirstRequest(old(activityHelper.State()), phoneNumber, response, second)
        else old(activityHelper.State())
      ensures showError == ErrorLatched(activityHelper.resultSignals)
      ensures activityStarted == StartedLatched(activityHelper.waitSignals)
    {
      if StartEnabled(phoneNumber) {
        ghost var before := activityHelper.State();
        FirstPreservesConsistent(before, phoneNumber, response, second);
        activityHelper.PerformFirstAPIRequest(phoneNumber, response, second);
        assert activityHelper.resultSignals[..resultSeen] == before.resultSignals[..resultSeen];
        assert activityHelper.waitSignals[..waitSeen] == before.waitSignals[..waitSeen];
      }
      Deliver();
    }
  }
}
