/** `ActivityHelper`: the object that runs the two tracker requests and
    holds what they produced. The network and JSON decoding are not
    modelled; what each request came back with is an input (`Exchange`).
    The `@Published` properties are fields; the values their publishers
    emit are kept as logs, because the tracker screen reacts to every
    emission and not only to the last one. */
module Tracking {
  import opened SwiftText
  import opened WaitRange

  // ---------------------------------------------------------------------
  // Decoded records: only the fields the handlers read

  datatype ActionsData = ActionsData(track: string)

  /** One element of the order-lookup response array. */
  datatype TrackingData = TrackingData(
    storeID: string,
    orderID: string,
    orderDescription: string,
    orderTakeCompleteTime: string,
    actions: ActionsData)

  /** The order-detail response. */
  datatype PizzaTrackingData = PizzaTrackingData(
    startTime: string,
    serviceMethod: string,
    estimatedWaitMinutes: string)

  /** What one request came back with, as its completion handler sees it. */
  datatype Exchange<T> =
    | InvalidUrl                               // `URL(string:)` gave nil: no task is started
    | TransportFailure(error: Option<string>)  // no data, or an error (its localized description)
    | DecodeFailure(reason: string)            // `JSONDecoder` threw (its localized description)
    | Decoded(body: T)

  // ---------------------------------------------------------------------
  // Requests

  datatype Request = Request(httpMethod: string, url: string, headers: seq<(string, string)>)

  const TrackerBase := "https://tracker.dominos.com/tracker-presentation-service"
  const OrdersUrlPrefix := "https://tracker.dominos.com/tracker-presentation-service/v2/orders?phonenumber="
  const RequestHeaders: seq<(string, string)> := [
    ("Accept", "application/json"),
    ("Content-Type", "application/json; charset=utf-8"),
    ("dpz-language", "en"),
    ("dpz-market", "UNITED_STATES")]

  /** The order-lookup URL: the fixed prefix, then the phone number as is. */
  function OrdersUrl(phoneNumber: string): (url: string)
    ensures |url| == |OrdersUrlPrefix| + |phoneNumber|
    ensures url[..|OrdersUrlPrefix|] == OrdersUrlPrefix && url[|OrdersUrlPrefix|..] == phoneNumber
  {
    OrdersUrlPrefix + phoneNumber
  }

  /** The order-detail URL: the service base, then the track path from the
      lookup response, unescaped. */
  function TrackUrl(trackURL: string): (url: string)
    ensures |url| == |TrackerBase| + |trackURL|
    ensures url[..|TrackerBase|] == TrackerBase && url[|TrackerBase|..] == trackURL
  {
    TrackerBase + trackURL
  }

  /** Both requests go to the same service: the lookup URL is a track URL. */
  lemma OrdersUrlUnderTrackerBase(phoneNumber: string)
    ensures OrdersUrl(phoneNumber) == TrackUrl("/v2/orders?phonenumber=" + phoneNumber)
  {
    assert OrdersUrlPrefix == TrackerBase + "/v2/orders?phonenumber=";
  }

  /** Different phone numbers are looked up at different URLs. */
  lemma OrdersUrlInjective(a: string, b: string)
    requires OrdersUrl(a) == OrdersUrl(b)
    ensures a == b
  {
    assert a == OrdersUrl(a)[|OrdersUrlPrefix|..];
  }

  function GetRequest(url: string): Request {
    Request("GET", url, RequestHeaders)
  }

  // ---------------------------------------------------------------------
  // Status messages written to `result`

  const InvalidUrlMessage := "Invalid URL"
  const NoTrackingDataMessage := "Error: " + "No tracking data found"
  const FirstSuccessMessage := "First Request Successful"
  const SecondSuccessMessage := "Second Request Successful"
  const WaitFormatMessage := "Error: " + "Estimated wait time format is incorrect"

  /** `error?.localizedDescription ?? "Unknown error"`. */
  function ErrorDescription(error: Option<string>): string {
    match error
    case Some(d) => d
    case None => "Unknown error"
  }

  function TransportMessage(error: Option<string>): string {
    "Error: " + ErrorDescription(error)
  }

  function ParsingMessage(description: string): string {
    "Error parsing JSON: " + description
  }

  predicate StartsWith(s: string, prefix: string) {
    |prefix| <= |s| && s[..|prefix|] == prefix
  }

  /** A message starting with 'E' is none of the three plain messages. */
  lemma ErrorIsNotSuccess(m: string)
    requires |m| > 0 && m[0] == 'E'
    ensures m != FirstSuccessMessage && m != SecondSuccessMessage && m != InvalidUrlMessage
  {
  }

  // ---------------------------------------------------------------------
  // Live activities (only what is handed to ActivityKit)

  datatype ContentState = ContentState(minTime: int, maxTime: int)
  datatype PizzaTrackerAttributes = PizzaTrackerAttributes(startTime: string, serviceMethod: string)
  datatype ActivityRequest = ActivityRequest(attributes: PizzaTrackerAttributes, state: ContentState)

  /** A value emitted by `$minWaitTime.combineLatest($maxWaitTime)`. */
  datatype WaitPair = WaitPair(min: int, max: int)

  // ---------------------------------------------------------------------
  // The helper's state as a value, and what each handler does to it

  datatype Session = Session(
    result: string,
    serviceMethod: string,
    minWaitTime: int,
    maxWaitTime: int,
    startTime: string,
    serviceMethodType: string,
    requests: seq<Request>,                // data tasks started, in order
    activities: seq<ActivityRequest>,      // live activities requested, in order
    resultSignals: seq<string>,            // values emitted by `$result`
    waitSignals: seq<WaitPair>)            // values emitted by the combined wait times

  /** A fresh helper, as a subscriber first sees it. */
  const Initial := Session("", "", 0, 0, "", "", [], [], [""], [WaitPair(0, 0)])

  function WithResult(s: Session, r: string): Session {
    s.(result := r, resultSignals := s.resultSignals + [r])
  }

  function WithMinWaitTime(s: Session, v: int): Session {
    s.(minWaitTime := v, waitSignals := s.waitSignals + [WaitPair(v, s.maxWaitTime)])
  }

  function WithMaxWaitTime(s: Session, v: int): Session {
    s.(maxWaitTime := v, waitSignals := s.waitSignals + [WaitPair(s.minWaitTime, v)])
  }

  function WithRequest(s: Session, url: string): Session {
    s.(requests := s.requests + [GetRequest(url)])
  }

  /** What `startNewLiveActivity` hands to ActivityKit for state `s`. */
  function LiveActivityFor(s: Session): ActivityRequest {
    ActivityRequest(
      PizzaTrackerAttributes(s.startTime, s.serviceMethodType),
      ContentState(s.minWaitTime, s.maxWaitTime))
  }

  function WithLiveActivity(s: Session): Session {
    s.(activities := s.activities + [LiveActivityFor(s)])
  }

  /** `performSecondAPIRequest(trackURL)` when the detail request came back
      with `response`. */
  function SecondRequest(s: Session, trackURL: string, response: Exchange<PizzaTrackingData>): Session {
    match response
    case InvalidUrl => s
    case TransportFailure(_) => WithRequest(s, TrackUrl(trackURL))
    case DecodeFailure(e) => WithResult(WithRequest(s, TrackUrl(trackURL)), ParsingMessage(e))
    case Decoded(d) =>
      var s1 := WithRequest(s, TrackUrl(trackURL)).(startTime := d.startTime, serviceMethodType := d.serviceMethod);
      match ParseWaitRange(d.estimatedWaitMinutes)
      case Some(w) =>
        WithLiveActivity(WithResult(WithMaxWaitTime(WithMinWaitTime(s1, w.min), w.max), SecondSuccessMessage))
      case None =>
        WithResult(s1, WaitFormatMessage)
  }

  /** `performFirstAPIRequest(with: phoneNumber)` when the lookup came back
      with `response` and, should it be started, the detail request with
      `second`. */
  function FirstRequest(
    s: Session, phoneNumber: string,
    response: Exchange<seq<TrackingData>>, second: Exchange<PizzaTrackingData>): Session
  {
    match response
    case InvalidUrl => WithResult(s, InvalidUrlMessage)
    case TransportFailure(e) => WithResult(WithRequest(s, OrdersUrl(phoneNumber)), TransportMessage(e))
    case DecodeFailure(e) => WithResult(WithRequest(s, OrdersUrl(phoneNumber)), ParsingMessage(e))
    case Decoded(orders) =>
      var s1 := WithRequest(s, OrdersUrl(phoneNumber));
      if |orders| == 0 then
        WithResult(s1, NoTrackingDataMessage)
      else
        var order := orders[0];
        var s2 := s1.(serviceMethod := order.orderDescription, startTime := order.orderTakeCompleteTime);
        SecondRequest(WithResult(s2, FirstSuccessMessage), order.actions.track, second)
  }

  // ---------------------------------------------------------------------
  // What the handlers keep true

  /** The helper's invariant: the wait times are non-negative `Int`s, each
      publisher's latest value is the field's value, and a "Second Request
      Successful" state has requested a live activity with exactly its own
      values. */
  predicate Consistent(s: Session) {
    && 0 <= s.minWaitTime <= IntMax && 0 <= s.maxWaitTime <= IntMax
    && |s.resultSignals| > 0 && s.resultSignals[|s.resultSignals| - 1] == s.result
    && |s.waitSignals| > 0 && s.waitSignals[|s.waitSignals| - 1] == WaitPair(s.minWaitTime, s.maxWaitTime)
    && (s.result == SecondSuccessMessage ==>
          |s.activities| > 0 && s.activities[|s.activities| - 1] == LiveActivityFor(s))
    && (forall i :: 0 <= i < |s.activities| ==>
          0 <= s.activities[i].state.minTime && 0 <= s.activities[i].state.maxTime)
  }

  /** Every published field other than `result`, and the activities, agree. */
  predicate SameExceptResult(a: Session, b: Session) {
    && a.serviceMethod == b.serviceMethod
    && a.minWaitTime == b.minWaitTime && a.maxWaitTime == b.maxWaitTime
    && a.startTime == b.startTime && a.serviceMethodType == b.serviceMethodType
    && a.activities == b.activities && a.waitSignals == b.waitSignals
  }

  /** No published field changed and nothing was published. */
  predicate SameFields(a: Session, b: Session) {
    SameExceptResult(a, b) && a.result == b.result && a.resultSignals == b.resultSignals
  }

  /** Logs only grow: what was requested or published stays recorded. */
  predicate Extends(a: Session, b: Session) {
    a.requests <= b.requests && a.activities <= b.activities
    && a.resultSignals <= b.resultSignals && a.waitSignals <= b.waitSignals
  }

  lemma InitialConsistent()
    ensures Consistent(Initial) && Initial.result == ""
    ensures Initial.minWaitTime == 0 && Initial.maxWaitTime == 0
  {
  }

  lemma SecondPreservesConsistent(s: Session, trackURL: string, response: Exchange<PizzaTrackingData>)
    requires Consistent(s)
    ensures Consistent(SecondRequest(s, trackURL, response))
    ensures Extends(s, SecondRequest(s, trackURL, response))
  {
    if response.DecodeFailure? {
      ErrorIsNotSuccess(ParsingMessage(response.reason));
    }
  }

  lemma FirstPreservesConsistent(
    s: Session, phoneNumber: string,
    response: Exchange<seq<TrackingData>>, second: Exchange<PizzaTrackingData>)
    requires Consistent(s)
    ensures Consistent(FirstRequest(s, phoneNumber, response, second))
    ensures Extends(s, FirstRequest(s, phoneNumber, response, second))
  {
    match response {
      case InvalidUrl =>
      case TransportFailure(e) =>
        ErrorIsNotSuccess(TransportMessage(e));
      case DecodeFailure(e) =>
        ErrorIsNotSuccess(ParsingMessage(e));
      case Decoded(orders) =>
    }
    if response.Decoded? && |response.body| > 0 {
      var order := response.body[0];
      var s2 := WithRequest(s, OrdersUrl(phoneNumber))
        .(serviceMethod := order.orderDescription, startTime := order.orderTakeCompleteTime);
      SecondPreservesConsistent(WithResult(s2, FirstSuccessMessage), order.actions.track, second);
    }
  }

  // ---- the lookup request

  /** An unbuildable lookup URL only sets `result` to "Invalid URL". */
  lemma LookupInvalidUrl(s: Session, phoneNumber: string, second: Exchange<PizzaTrackingData>)
    ensures var r := FirstRequest(s, phoneNumber, InvalidUrl, second);
      r.result == InvalidUrlMessage && SameExceptResult(s, r) && r.requests == s.requests
  {
  }

  /** A transport failure of the lookup only sets `result`, to a message
      starting "Error: ". */
  lemma LookupTransportFailure(
    s: Session, phoneNumber: string, error: Option<string>, second: Exchange<PizzaTrackingData>)
    ensures var r := FirstRequest(s, phoneNumber, TransportFailure(error), second);
      StartsWith(r.result, "Error: ") && SameExceptResult(s, r)
      && r.requests == s.requests + [GetRequest(OrdersUrl(phoneNumber))]
  {
  }

  /** A lookup response that does not decode only sets `result`, to a
      message starting "Error parsing JSON: ". */
  lemma LookupDecodeFailure(
    s: Session, phoneNumber: string, error: string, second: Exchange<PizzaTrackingData>)
    ensures var r := FirstRequest(s, phoneNumber, DecodeFailure(error), second);
      StartsWith(r.result, "Error parsing JSON: ") && SameExceptResult(s, r)
      && r.requests == s.requests + [GetRequest(OrdersUrl(phoneNumber))]
  {
  }

  /** An empty order array only sets `result`, and the detail request is
      never started. */
  lemma LookupEmpty(s: Session, phoneNumber: string, second: Exchange<PizzaTrackingData>)
    ensures var r := FirstRequest(s, phoneNumber, Decoded([]), second);
      r.result == NoTrackingDataMessage && SameExceptResult(s, r)
      && r.requests == s.requests + [GetRequest(OrdersUrl(phoneNumber))]
  {
  }

  /** With several orders only the first one counts: the outcome is the one
      for that order alone. It supplies the service method and the start
      time, and its track path is what the detail request asks for. */
  lemma LookupUsesFirstOrder(
    s: Session, phoneNumber: string, orders: seq<TrackingData>, second: Exchange<PizzaTrackingData>)
    requires |orders| > 0
    ensures var r := FirstRequest(s, phoneNumber, Decoded(orders), second);
      && r == FirstRequest(s, phoneNumber, Decoded(orders[..1]), second)
      && r.serviceMethod == orders[0].orderDescription
      && r.startTime == (if second.Decoded? then second.body.startTime else orders[0].orderTakeCompleteTime)
      && r.requests == s.requests + [GetRequest(OrdersUrl(phoneNumber))]
           + (if second.InvalidUrl? then [] else [GetRequest(TrackUrl(orders[0].actions.track))])
      && (second.InvalidUrl? || second.TransportFailure? ==>
            r.result == FirstSuccessMessage && r.minWaitTime == s.minWaitTime && r.maxWaitTime == s.maxWaitTime)
  {
  }

  /** "Second Request Successful" is reached only through both requests, in
      order: a non-empty lookup, then a decoded detail whose wait range
      parses. The two requests started are the lookup and then the detail. */
  lemma ReadyNeedsBothRequests(
    s: Session, phoneNumber: string,
    response: Exchange<seq<TrackingData>>, second: Exchange<PizzaTrackingData>)
    requires FirstRequest(s, phoneNumber, response, second).result == SecondSuccessMessage
    ensures response.Decoded? && |response.body| > 0
    ensures second.Decoded? && ParseWaitRange(second.body.estimatedWaitMinutes).Some?
    ensures FirstRequest(s, phoneNumber, response, second).requests
      == s.requests + [GetRequest(OrdersUrl(phoneNumber)), GetRequest(TrackUrl(response.body[0].actions.track))]
  {
    match response {
      case InvalidUrl =>
      case TransportFailure(e) =>
        ErrorIsNotSuccess(TransportMessage(e));
      case DecodeFailure(e) =>
        ErrorIsNotSuccess(ParsingMessage(e));
      case Decoded(orders) =>
        if |orders| > 0 && second.DecodeFailure? {
          ErrorIsNotSuccess(ParsingMessage(second.reason));
        }
    }
  }

  // ---- the detail request

  /** An unbuildable detail URL or a transport failure changes no field and
      publishes nothing. */
  lemma DetailSilentFailures(s: Session, trackURL: string, response: Exchange<PizzaTrackingData>)
    requires response.InvalidUrl? || response.TransportFailure?
    ensures var r := SecondRequest(s, trackURL, response);
      SameFields(s, r)
      && r.requests == s.requests + (if response.InvalidUrl? then [] else [GetRequest(TrackUrl(trackURL))])
  {
  }

  /** A detail response that does not decode only sets `result`, to a
      message starting "Error parsing JSON: ". */
  lemma DetailDecodeFailure(s: Session, trackURL: string, error: string)
    ensures var r := SecondRequest(s, trackURL, DecodeFailure(error));
      StartsWith(r.result, "Error parsing JSON: ") && SameExceptResult(s, r)
  {
  }

  /** A decoded detail always overwrites the start time and the service
      method type. The wait range then decides: when it parses, both wait
      times take its values, `result` reports success and one live activity
      is requested with those values; otherwise the wait times and the
      activities are left alone and `result` reports the format error. */
  lemma DetailDecoded(s: Session, trackURL: string, d: PizzaTrackingData)
    ensures var r := SecondRequest(s, trackURL, Decoded(d));
      && r.startTime == d.startTime && r.serviceMethodType == d.serviceMethod
      && r.serviceMethod == s.serviceMethod
      && r.requests == s.requests + [GetRequest(TrackUrl(trackURL))]
      && (r.result == SecondSuccessMessage <==> ParseWaitRange(d.estimatedWaitMinutes).Some?)
      && (match ParseWaitRange(d.estimatedWaitMinutes)
          case Some(w) =>
            && r.minWaitTime == w.min && r.maxWaitTime == w.max
            && r.activities == s.activities + [ActivityRequest(
                 PizzaTrackerAttributes(d.startTime, d.serviceMethod), ContentState(w.min, w.max))]
          case None =>
            && r.minWaitTime == s.minWaitTime && r.maxWaitTime == s.maxWaitTime
            && r.result == WaitFormatMessage && r.activities == s.activities
            && r.waitSignals == s.waitSignals)
  {
  }

  // ---------------------------------------------------------------------
  // The object

  class ActivityHelper {
    var result: string
    var serviceMethod: string
    var minWaitTime: int
    var maxWaitTime: int
    var startTime: string
    var serviceMethodType: string
    var requests: seq<Request>
    var activities: seq<ActivityRequest>
    var resultSignals: seq<string>
    var waitSignals: seq<WaitPair>

    function State(): Session
      reads this
    {
      Session(result, serviceMethod, minWaitTime, maxWaitTime, startTime, serviceMethodType,
              requests, activities, resultSignals, waitSignals)
    }

    ghost predicate Valid()
      reads this
    {
      Consistent(State())
    }

    constructor ()
      ensures Valid() && State() == Initial
    {
      result, serviceMethod, startTime, serviceMethodType := "", "", "", "";
      minWaitTime, maxWaitTime := 0, 0;
      requests, activities := [], [];
      resultSignals, waitSignals := [""], [WaitPair(0, 0)];
    }

    /** Assigning the `@Published` `result`, which emits the new value. */
    method PublishResult(r: string)
      modifies this
      ensures State() == WithResult(old(State()), r)
    {
      result := r;
      resultSignals := resultSignals + [r];
    }

    method PublishMinWaitTime(v: int)
      modifies this
      ensures State() == WithMinWaitTime(old(State()), v)
    {
      minWaitTime := v;
      waitSignals := waitSignals + [WaitPair(v, maxWaitTime)];
    }

    method PublishMaxWaitTime(v: int)
      modifies this
      ensures State() == WithMaxWaitTime(old(State()), v)
    {
      maxWaitTime := v;
      waitSignals := waitSignals + [WaitPair(minWaitTime, v)];
    }

    /** Building the GET request for `url` and resuming its data task. */
    method Resume(url: string)
      modifies this
      ensures State() == WithRequest(old(State()), url)
    {
      requests := requests + [GetRequest(url)];
    }

    /** `startNewLiveActivity`: hands the current wait times, start time and
        service method type to ActivityKit. */
    method StartNewLiveActivity()
      modifies this
      ensures State() == WithLiveActivity(old(State()))
    {
      activities := activities + [ActivityRequest(
        PizzaTrackerAttributes(startTime, serviceMethodType),
        ContentState(minWaitTime, maxWaitTime))];
    }

    method PerformFirstAPIRequest(
      phoneNumber: string, response: Exchange<seq<TrackingData>>, second: Exchange<PizzaTrackingData>)
      requires Valid()
      modifies this
      ensures Valid()
      ensures State() == FirstRequest(old(State()), phoneNumber, response, second)
    {
      ghost var before := State();
      FirstPreservesConsistent(before, phoneNumber, response, second);
      if response.InvalidUrl? {
        PublishResult(InvalidUrlMessage);
        return;
      }
      Resume(OrdersUrl(phoneNumber));
      match response {
        case TransportFailure(e) =>
          PublishResult(TransportMessage(e));
        case DecodeFailure(e) =>
          PublishResult(ParsingMessage(e));
        case Decoded(orders) =>
          if |orders| == 0 {
            PublishResult(NoTrackingDataMessage);
            return;
          }
          var order := orders[0];
          serviceMethod := order.orderDescription;
          startTime := order.orderTakeCompleteTime;
          PublishResult(FirstSuccessMessage);
          PerformSecondAPIRequestFrom(order.actions.track, second);
      }
    }

    /** The detail request as the lookup handler calls it, on a state that
        need not be `Valid` in the middle of the lookup handler. */
    method PerformSecondAPIRequestFrom(trackURL: string, response: Exchange<PizzaTrackingData>)
      modifies this
      ensures State() == SecondRequest(old(State()), trackURL, response)
    {
      if response.InvalidUrl? {
        return;
      }
      Resume(TrackUrl(trackURL));
      match response {
        case TransportFailure(_) =>
        case DecodeFailure(e) =>
          PublishResult(ParsingMessage(e));
        case Decoded(d) =>
          startTime := d.startTime;
          serviceMethodType := d.serviceMethod;
          var window := ParseWaitRange(d.estimatedWaitMinutes);
          if window.Some? {
            PublishMinWaitTime(window.value.min);
            PublishMaxWaitTime(window.value.max);
            PublishResult(SecondSuccessMessage);
            StartNewLiveActivity();
          } else {
            PublishResult(WaitFormatMessage);
          }
      }
    }

    method PerformSecondAPIRequest(trackURL: string, response: Exchange<PizzaTrackingData>)
      requires Valid()
      modifies this
      ensures Valid()
      ensures State() == SecondRequest(old(State()), trackURL, response)
    {
      SecondPreservesConsistent(State(), trackURL, response);
      PerformSecondAPIRequestFrom(trackURL, response);
    }
  }
}
