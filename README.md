# Live Activity pizza tracker: a verified model of the request logic

The iOS app looks up a pizza order by phone number in two steps. The
lookup (`performFirstAPIRequest`) asks the tracker service for the orders
placed from a phone number. It keeps the first order's description, its
order-taken time and its track path. The detail request
(`performSecondAPIRequest`) fetches that track path. It reads the start
time, the service method and the estimated wait, a text `"<min>-<max>"`
split on `-` and parsed with `Int(String)`. Both handlers write into
`ActivityHelper`'s published fields (`result`, `serviceMethod`,
`startTime`, `serviceMethodType`, `minWaitTime`, `maxWaitTime`). When the
wait range parses, a live activity is requested. `TrackerView` enables
Start only for a ten-character phone number. It latches `showError` when
a published `result` contains "Error", and `activityStarted` when a
published pair of wait times has both times non-zero.

The model has four modules:

- `SwiftText` (`swift_text.dfy`): `Int(String)` for a 64-bit `Int`,
  `components(separatedBy:)` for a one-character separator, `contains`, and
  the decimal rendering that serves as the inverse of parsing.
- `WaitRange` (`wait_range.dfy`): the wait-range parser and its
  characterisation.
- `Tracking` (`activity_helper.dfy`): the decoded records, the two request
  URLs and the `ActivityHelper` class. The class's methods are proved equal
  to two pure transition functions, `FirstRequest` and `SecondRequest`, on a
  `Session` value. What each request came back with is an input, the
  `Exchange`: an unbuildable URL, a transport failure, a decode failure or
  the decoded body. The values each `@Published` property emits are kept as
  logs, because the screen reacts to every emission. The same goes for the
  data tasks started and the live activities requested.
- `TrackerScreen` (`tracker_view.dfy`): the `TrackerView` class with its
  Start rule and its two latches, fed by the helper's emission logs.

The model follows the code, not the intended design. A failed detail
request (bad URL or transport failure) only prints, so `result` stays
"First Request Successful". Errors are strings, not a typed result. A new
lookup does not reset the wait times. No order is required between the
minimum and the maximum, so "10-5" is accepted as minimum 10 and maximum 5.

## Model

| member | source | states |
|---|---|---|
| `SwiftText.ParseInt` | LiveDominosPizza/ContentView.swift:210 | `Int(text)` succeeds only on a text whose first character is `+`, `-` or a digit and whose other characters are all digits, ending in a digit (so no spaces). The value fits in 64 bits, and it is negative only when the text starts with `-` |
| `SwiftText.ParseUnsigned` | LiveDominosPizza/ContentView.swift:210 | the converse for unsigned text: a non-empty digit string parses to its decimal value exactly when that value fits in 64 bits, and to nil otherwise |
| `SwiftText.ParseSigned` | LiveDominosPizza/ContentView.swift:210 | the converse for signed text: `+` or `-` followed by a non-empty digit string parses to the value of the digits, negated after `-`, exactly when it fits in 64 bits, and to nil otherwise |
| `SwiftText.ParseLeadingZero` | LiveDominosPizza/ContentView.swift:210 | `Int("0" + d)` equals `Int(d)` for any non-empty digit string `d` |
| `SwiftText.ParseDecimal` | LiveDominosPizza/ContentView.swift:210 | parsing the decimal rendering of `n` gives `n` back exactly when `n` is in the 64-bit range; otherwise it gives nil (overflow) |
| `SwiftText.LeadingZeroValue` | LiveDominosPizza/ContentView.swift:210 | a leading zero does not change the value of a digit string |
| `SwiftText.NaturalDecimalValue` | LiveDominosPizza/ContentView.swift:120 | the decimal rendering of a natural number reads back as that number |
| `SwiftText.Split` | LiveDominosPizza/ContentView.swift:209 | the components are never empty as a list, none contains the separator, and joining them with the separator gives back the text |
| `SwiftText.SplitCount` | LiveDominosPizza/ContentView.swift:209 | the number of components is one more than the number of separators |
| `SwiftText.SplitWithout` | LiveDominosPizza/ContentView.swift:209 | a text without the separator is a single component |
| `SwiftText.SplitAfter` | LiveDominosPizza/ContentView.swift:209 | a separator-free prefix followed by the separator becomes the first component |
| `SwiftText.SplitJoin` | LiveDominosPizza/ContentView.swift:209 | splitting undoes joining separator-free parts |
| `SwiftText.Contains` | LiveDominosPizza/ContentView.swift:101 | `s.contains(sub)`: `sub` occurs at some position of `s` (the check the `result` handler applies) |
| `SwiftText.ContainsPrefix` | LiveDominosPizza/ContentView.swift:101 | a text contains its own prefix |
| `SwiftText.NotContainsWithoutHead` | LiveDominosPizza/ContentView.swift:101 | a text lacking the first character of a word does not contain the word |
| `WaitRange.ParseWaitRange` | LiveDominosPizza/ContentView.swift:209-213 | an accepted wait range has both times non-negative and within `Int`, because no component contains `-` |
| `WaitRange.WaitRangeOfParts` | LiveDominosPizza/ContentView.swift:209-213 | text made of two hyphen-free sides around one hyphen is accepted exactly when both sides parse, with min and max taken in the order written |
| `WaitRange.WaitRangeNeedsOneHyphen` | LiveDominosPizza/ContentView.swift:210 | a text with zero hyphens or with two or more is refused |
| `WaitRange.WaitRangeHasOneHyphen` | LiveDominosPizza/ContentView.swift:210 | an accepted text has exactly one hyphen |
| `WaitRange.WaitRangeRoundTrip` | LiveDominosPizza/ContentView.swift:209-213 | rendering any window of non-negative `Int`s as `"<min>-<max>"` and parsing it gives the same window, descending windows included |
| `WaitRange.FiveToTen` | LiveDominosPizza/ContentView.swift:209-213 | "5-10" gives min 5, max 10 |
| `WaitRange.DescendingAccepted` | LiveDominosPizza/ContentView.swift:209-213 | "10-5" is accepted as min 10, max 5 |
| `WaitRange.NoHyphenRefused` | LiveDominosPizza/ContentView.swift:210 | "5" and "garbage" are refused |
| `WaitRange.ThreePartsRefused` | LiveDominosPizza/ContentView.swift:210 | "5-10-15" is refused |
| `WaitRange.EmptySideRefused` | LiveDominosPizza/ContentView.swift:210 | "-5" and "5-" are refused, because an empty component does not parse |
| `WaitRange.SpaceRefused` | LiveDominosPizza/ContentView.swift:210 | " 5-10" is refused, because `Int` does not skip spaces |
| `WaitRange.PlusSignsAccepted` | LiveDominosPizza/ContentView.swift:210 | "+5-+10" is accepted as 5 and 10 |
| `WaitRange.OverflowRefused` | LiveDominosPizza/ContentView.swift:210 | a side beyond the 64-bit range, left or right of the hyphen, makes the whole text refused |
| `Tracking.OrdersUrl` | LiveDominosPizza/ContentView.swift:138 | the lookup URL is the fixed `.../v2/orders?phonenumber=` prefix followed by the phone number, unchanged |
| `Tracking.TrackUrl` | LiveDominosPizza/ContentView.swift:180 | the detail URL is the service base followed by the track path, unchanged |
| `Tracking.OrdersUrlUnderTrackerBase` | LiveDominosPizza/ContentView.swift:138 | the lookup URL is the service base followed by `/v2/orders?phonenumber=` and the phone number |
| `Tracking.OrdersUrlInjective` | LiveDominosPizza/ContentView.swift:138 | different phone numbers give different lookup URLs |
| `Tracking.ErrorDescription` | LiveDominosPizza/ContentView.swift:152 | an error's description, or "Unknown error" when there is no error |
| `Tracking.TransportMessage` | LiveDominosPizza/ContentView.swift:152 | the transport-failure message: "Error: " followed by the error's description |
| `Tracking.ParsingMessage` | LiveDominosPizza/ContentView.swift:172 | the decode-failure message: "Error parsing JSON: " followed by the decoder's description |
| `Tracking.FirstRequest` | LiveDominosPizza/ContentView.swift:137-177 | the lookup as a transition on the helper's state: an invalid URL, a transport failure, a decode failure and an empty array each set only `result`; otherwise the first order sets `serviceMethod` and `startTime`, `result` becomes "First Request Successful", and the detail request follows |
| `Tracking.SecondRequest` | LiveDominosPizza/ContentView.swift:179-228 | the detail request as a transition: an invalid URL or a transport failure changes nothing; a decode failure sets `result`; a decoded detail sets `startTime` and `serviceMethodType`, then either the wait times, "Second Request Successful" and a live activity, or the format error |
| `Tracking.ErrorIsNotSuccess` | LiveDominosPizza/ContentView.swift:152 | a message starting with "E" is neither success message nor "Invalid URL" |
| `Tracking.InitialConsistent` | LiveDominosPizza/ContentView.swift:130-135 | a fresh helper has empty strings and zero wait times, and it satisfies the helper invariant |
| `Tracking.FirstPreservesConsistent` | LiveDominosPizza/ContentView.swift:137-177 | the lookup keeps the invariant: wait times in `0..Int.max`, each publisher's last value equal to its field, and a "Second Request Successful" state backed by a live activity requested with its own values. The logs only grow |
| `Tracking.SecondPreservesConsistent` | LiveDominosPizza/ContentView.swift:179-228 | the detail request keeps the same invariant, and the logs only grow |
| `Tracking.LookupInvalidUrl` | LiveDominosPizza/ContentView.swift:138-140 | an unbuildable lookup URL sets only `result`, to "Invalid URL", and starts no request |
| `Tracking.LookupTransportFailure` | LiveDominosPizza/ContentView.swift:151-153 | a lookup transport failure sets only `result`, to a message starting "Error: ". Only the lookup request was started |
| `Tracking.LookupDecodeFailure` | LiveDominosPizza/ContentView.swift:171-172 | an undecodable lookup response sets only `result`, to a message starting "Error parsing JSON: " |
| `Tracking.LookupEmpty` | LiveDominosPizza/ContentView.swift:159-162 | an empty order array sets only `result`, to "Error: No tracking data found". The detail request is never started |
| `Tracking.LookupUsesFirstOrder` | LiveDominosPizza/ContentView.swift:159-168 | only the first order matters. It gives `serviceMethod` and, unless a detail decodes, `startTime`. Its track path is the detail request's URL. A detail that fails silently leaves "First Request Successful" and the old wait times |
| `Tracking.ReadyNeedsBothRequests` | LiveDominosPizza/ContentView.swift:150-217 | "Second Request Successful" needs a non-empty lookup, then a decoded detail whose wait range parses. The two requests were started in that order |
| `Tracking.DetailSilentFailures` | LiveDominosPizza/ContentView.swift:181-196 | an unbuildable detail URL or a detail transport failure changes no field and publishes nothing |
| `Tracking.DetailDecodeFailure` | LiveDominosPizza/ContentView.swift:220-223 | an undecodable detail response sets only `result`, to a message starting "Error parsing JSON: " |
| `Tracking.DetailDecoded` | LiveDominosPizza/ContentView.swift:206-217 | a decoded detail always overwrites `startTime` and `serviceMethodType`. The result is success exactly when the wait range parses. Then the wait times take its values and one live activity is requested with them. Otherwise the wait times and activities are unchanged and `result` is the format error |
| `Tracking.ActivityHelper.constructor` | LiveDominosPizza/ContentView.swift:130-135 | the initial field values |
| `Tracking.ActivityHelper.PublishResult` | LiveDominosPizza/ContentView.swift:130 | assigning `result` also emits the new value |
| `Tracking.ActivityHelper.PublishMinWaitTime` | LiveDominosPizza/ContentView.swift:132 | assigning `minWaitTime` emits it paired with the current maximum |
| `Tracking.ActivityHelper.PublishMaxWaitTime` | LiveDominosPizza/ContentView.swift:133 | assigning `maxWaitTime` emits it paired with the current minimum |
| `Tracking.ActivityHelper.Resume` | LiveDominosPizza/ContentView.swift:143-150 | a GET request with the four fixed headers is started for the URL |
| `Tracking.ActivityHelper.StartNewLiveActivity` | LiveDominosPizza/ContentView.swift:230-252 | the activity requested carries the current start time, service method type and wait times |
| `Tracking.ActivityHelper.PerformFirstAPIRequest` | LiveDominosPizza/ContentView.swift:137-177 | the new state is `FirstRequest` of the old one, and the invariant is kept |
| `Tracking.ActivityHelper.PerformSecondAPIRequestFrom` | LiveDominosPizza/ContentView.swift:179-228 | the new state is `SecondRequest` of the old one |
| `Tracking.ActivityHelper.PerformSecondAPIRequest` | LiveDominosPizza/ContentView.swift:179-228 | the same, and the invariant is kept |
| `TrackerScreen.StartEnabled` | LiveDominosPizza/ContentView.swift:79 | Start is enabled exactly when the phone number has ten characters |
| `TrackerScreen.ErrorLatched` | LiveDominosPizza/ContentView.swift:100-104 | `showError` after receiving a sequence of `result` values one by one from off: on after the last value when it was on before it or the value contains "Error" |
| `TrackerScreen.StartedLatched` | LiveDominosPizza/ContentView.swift:105-109 | `activityStarted` after receiving a sequence of wait pairs one by one from off: on after the last pair when it was on before it or both times are non-zero |
| `TrackerScreen.ErrorLatchedSome` | LiveDominosPizza/ContentView.swift:100-104 | `showError` is on exactly when some received `result` contained "Error" |
| `TrackerScreen.StartedLatchedSome` | LiveDominosPizza/ContentView.swift:105-109 | `activityStarted` is on exactly when some received pair had both times non-zero |
| `TrackerScreen.ErrorLatchedAppend` | LiveDominosPizza/ContentView.swift:100-104 | `showError` is never reset: after more values it is on if it was on before or the new values switch it on |
| `TrackerScreen.StartedLatchedAppend` | LiveDominosPizza/ContentView.swift:105-109 | `activityStarted` is never reset, likewise |
| `TrackerScreen.NonErrorMessages` | LiveDominosPizza/ContentView.swift:101 | "Invalid URL" and both success messages do not contain "Error" |
| `TrackerScreen.ErrorMessagesContainError` | LiveDominosPizza/ContentView.swift:101 | every failure message the handlers write contains "Error" |
| `TrackerScreen.StartsWithError` | LiveDominosPizza/ContentView.swift:101 | a message whose head begins with "Error" contains it, whatever follows |
| `TrackerScreen.LookupResults` | LiveDominosPizza/ContentView.swift:137-217 | after a lookup, `result` contains "Error" exactly when it is none of "Invalid URL", "First Request Successful" and "Second Request Successful" |
| `TrackerScreen.LookupShowsError` | LiveDominosPizza/ContentView.swift:100-104 | after a lookup, `showError` is on exactly when it was on before or the final `result` contains "Error" |
| `TrackerScreen.InvalidUrlShowsNoError` | LiveDominosPizza/ContentView.swift:138-140 | an unbuildable lookup URL never switches `showError` on |
| `TrackerScreen.LookupFailureShowsError` | LiveDominosPizza/ContentView.swift:151-172 | a lookup transport failure, decode failure or empty array switches `showError` on |
| `TrackerScreen.DetailStartsActivity` | LiveDominosPizza/ContentView.swift:105-109 | after a detail request, `activityStarted` is on exactly when it was on before, or the wait range parsed with a non-zero minimum and either the new maximum or the previous one non-zero |
| `TrackerScreen.ZeroMinimumStartsNothing` | LiveDominosPizza/ContentView.swift:105-109 | a parsed minimum of 0 leaves `activityStarted` as it was, although a live activity is requested |
| `TrackerScreen.ZeroToTenStartsNothing` | LiveDominosPizza/ContentView.swift:105-109 | "0-10" never switches `activityStarted` on |
| `TrackerScreen.StaleMaximumStartsActivity` | LiveDominosPizza/ContentView.swift:105-109 | "5-0" after a non-zero maximum does switch `activityStarted` on, through the pair emitted between the two assignments |
| `TrackerScreen.TrackerView.constructor` | LiveDominosPizza/ContentView.swift:16-26 | the screen is created with a helper still in its initial state, as the enclosing view creates both together; both flags start off and nothing has been received yet |
| `TrackerScreen.TrackerView.ReceiveResult` | LiveDominosPizza/ContentView.swift:100-104 | a received `result` containing "Error" switches `showError` on; nothing switches it off |
| `TrackerScreen.TrackerView.ReceiveWaitTimes` | LiveDominosPizza/ContentView.swift:105-109 | a received pair with both times non-zero switches `activityStarted` on; nothing switches it off |
| `TrackerScreen.TrackerView.Deliver` | LiveDominosPizza/ContentView.swift:100-109 | after delivery, each flag is the latch over everything the helper has published |
| `TrackerScreen.TrackerView.DeliverResults` | LiveDominosPizza/ContentView.swift:100-104 | after every published `result` value is received, `showError` is the latch over the whole `result` log |
| `TrackerScreen.TrackerView.DeliverWaitTimes` | LiveDominosPizza/ContentView.swift:105-109 | after every published wait pair is received, `activityStarted` is the latch over the whole pair log |
| `TrackerScreen.TrackerView.EditPhoneNumber` | LiveDominosPizza/ContentView.swift:56 | the text field sets the phone number |
| `TrackerScreen.TrackerView.TapStart` | LiveDominosPizza/ContentView.swift:69-79 | Start runs the lookup only when the phone number has exactly ten characters; otherwise the helper is unchanged. Both flags then reflect everything published |

## Left out

- Network I/O: `URLSession`, the HTTP exchange and `task.resume()` are reduced to recording the GET request (URL and the four fixed headers) and taking its outcome as an input. The status-code print of the detail handler is left out.
- `URL(string:)`: whether Foundation accepts a URL string is an input (`Exchange.InvalidUrl`), not computed from the string.
- `JSONDecoder`: decoding is an input (`Exchange.DecodeFailure` or `Exchange.Decoded`). The records keep the fields the handlers read, and the lookup record also keeps its store and order identifiers; the other fields of `PizzaTrackingData` and `MetaData` are not modelled.
- Concurrency: `DispatchQueue.main.async`, `Task` and `MainActor.run` are dropped, and each handler's effects are applied in sequence. This includes the background-thread writes to `result` in the lookup handler. `startNewLiveActivity` reads the fields when it is called, not later from its `Task`.
- ActivityKit: `Activity.request`, the stale date, the relevance score and `activityID` are left out. Only the attributes and content state handed over are recorded.
- `endActivity`: it uses ActivityKit, `Date`/`TimeInterval` floating-point arithmetic and ISO 8601 parsing, and its dismissal timing is marked broken in its own comment.
- The widget (`LiveOrder/LiveOrderLiveActivity.swift`, `LiveOrder/LiveOrderBundle.swift`): rendering and `Date`-based timers. `PizzaTrackerAttributes` and its `ContentState` appear only as the records handed to ActivityKit.
- SwiftUI layout, keyboard handling, tab navigation and `DebugView`: presentation only. The `print` calls are left out as well.
- Combine delivery: the screen receives each emitted value through `Deliver`, which stands for the run loop calling the `onReceive` closures in order. The screen is modelled as created together with its helper, as the app does, so it subscribes while the helper holds its initial values: the current values it receives then are the first entries of the logs, and it receives every later emission.
- TrackerScreen.StartEnabled: counts characters of the phone string, not Swift's grapheme clusters.
- SwiftText.ParseInt: works on characters, and Swift's `Int` is taken to be 64 bits wide, as on current Apple devices.
- SwiftText.Split: models `components(separatedBy:)` only for a single-character separator, the only use here.
