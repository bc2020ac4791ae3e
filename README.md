# A/B-tested lead capture: a verified Dafny model

This project models the core of a landing page for a vent-cleaning business. The page
runs an A/B test of two variants and captures leads by phone number. The model covers:

- **Phone validation and formatting.** The TypeScript library and the older browser copy
  of it, both of which strip non-digits and show a `(XXX) XXX-XXXX` display form.
- **Sticky variant assignment in `localStorage`.** This covers the React hook and the older
  script. A visitor id and a variant label are stored once and reused after that.
- **The tracking function.** It stores each event, lists its id, and counts impressions and
  conversions. The counts go into a daily hash and an all-time hash per variant, plus
  unique-visitor sets.
- **The lead function.** It validates the phone, fills in defaults, stores the lead on two
  lists and asks the call service to phone the lead. Preflight and both call outcomes
  get a 200 answer. A method other than POST gets 405, a missing or invalid phone gets
  400, and a failed store gets 500.
- **The statistics function.** It reads the per-variant metrics, rounds the conversion rate
  to hundredths, runs the guards and decisions of the significance test, picks the winner,
  projects the recent leads and checks the token.
- **The local development server.** It keeps in-memory counters under rules that differ
  from the deployed functions.

How the model represents the system:

- **Store.** It has one map per kind of value: records, hashes, sets and lists. A request
  issues single-key commands to it. "The store throws from command `failFrom` on" is a
  parameter, so every partial-failure state can be expressed.
- **Inputs.** The clock, the random id suffix, `Math.random()`, the call service's answer,
  `Math.sqrt` and the normal distribution function are all parameters.
- **JSON objects.** They are string maps. JavaScript truthiness is "present and not empty".

## Model

| member | source | states |
|---|---|---|
| Digits.StripNonDigits | lib/phoneValidation.ts:8 | `replace(/\D/g,'')` keeps only digits and never lengthens the input |
| Digits.StripConcat | lib/phoneValidation.ts:8 | stripping distributes over concatenation |
| Digits.StripFixedPoint | lib/phoneValidation.ts:8 | a string is left unchanged by stripping iff it is all digits |
| Digits.StripIdempotent | public/old-backup/form-handler.js:46-53 | stripping twice equals stripping once, which is why the legacy validator may re-strip its digits |
| PhoneValidation.DisplayOf | lib/phoneValidation.ts:18 | the template has the `(XXX) XXX-XXXX` shape and carries exactly the first ten digits |
| PhoneValidation.DisplayShapeDetermined | lib/phoneValidation.ts:18 | a display-shaped string is the display form of its own digits |
| PhoneValidation.ValidatePhone | lib/phoneValidation.ts:7-20 | fewer than 10 digits gives the 10-digit error and more than 11 gives 'too long'. The result is valid iff there are 10 or 11 digits. A valid result has no error and a display form of the first ten digits |
| PhoneValidation.FormatPhoneNumber | lib/phoneValidation.ts:22-30 | below ten digits the input comes back unchanged. From ten digits on, the result is the display form of the first ten |
| PhoneValidation.FormatIdempotent | lib/phoneValidation.ts:22-30 | formatting an already formatted value changes nothing |
| PhoneValidation.ValidFormattedIsFormat | lib/phoneValidation.ts:18-26 | the `formatted` of a valid result is what `formatPhoneNumber` gives for the same input |
| LegacyFormHandler.FormatPhoneNumber | public/old-backup/form-handler.js:17-26 | the browser copy's formatter, with the same two branches |
| LegacyFormHandler.ValidatePhone | public/old-backup/form-handler.js:45-54 | the browser copy's validator, which formats the stripped digits |
| LegacyFormHandler.FormatAgrees | public/old-backup/form-handler.js:17-26 | the legacy formatter equals the library's on every input |
| LegacyFormHandler.ValidateAgrees | public/old-backup/form-handler.js:45-54 | the legacy validator equals the library's on every input, even though it formats the digits rather than the raw value |
| Ids.Decimal | api/track.js:18 | the decimal rendering of `Date.now()` is a non-empty digit string |
| Ids.DecimalRoundTrip | api/track.js:18 | reading the decimal rendering back gives the number |
| Ids.GeneratedIdInjective | api/submit.js:51 | a generated `prefix_<ms>_<suffix>` id determines both its millisecond and its suffix |
| Ids.GeneratedIdShape | hooks/useABTest.ts:26 | a generated id is longer than its prefix and starts with `prefix_` |
| Browser.LocalStorage.GetItem | hooks/useABTest.ts:24 | `getItem` returns the stored value, or null for a key never set |
| Browser.LocalStorage.SetItem | hooks/useABTest.ts:27 | `setItem` overwrites one key and no other |
| VariantAssignment.FreshVisitorId | hooks/useABTest.ts:26 | a new visitor id is never empty |
| VariantAssignment.RandomVariant | hooks/useABTest.ts:33 | `VARIANTS[floor(r*2)]` is a label. It is 'a' iff r < 0.5 |
| VariantAssignment.AssignmentOutcome | hooks/useABTest.ts:24-35 | the variant is a label and the id is non-empty. Usable stored values are returned as stored. Storage afterwards holds exactly the returned pair, and every other key is unchanged |
| VariantAssignment.AssignmentIdempotent | hooks/useABTest.ts:24-35 | assigning again on assigned storage returns the same pair and writes nothing, whatever the new clock and random draws |
| VariantAssignment.StepsCommute | public/old-backup/ab-test.js:96-101 | variant-first (the script) and id-first (the hook) end in the same storage and return the same pair |
| ABTestHook.ImpressionPayload | hooks/useABTest.ts:45-52 | the impression body has exactly six fields: eventType 'impression', the assigned pair, and a referrer defaulting to 'direct' |
| ABTestHook.ABTestState.constructor | hooks/useABTest.ts:13-15 | the initial state is ('a', '', not loaded) |
| ABTestHook.ABTestState.RunEffect | hooks/useABTest.ts:17-55 | storage becomes the assignment of the old storage. The state is the assigned pair with `isLoaded`. The impression posted carries that pair |
| LegacyABTest.GetVisitorId | public/old-backup/ab-test.js:11-18 | returns the stored id when truthy, else a fresh one that is persisted. Storage then holds the returned id |
| LegacyABTest.GetVariant | public/old-backup/ab-test.js:21-31 | returns the stored label when it is 'a' or 'b', else a random label that is persisted |
| LegacyABTest.LoadVariant | public/old-backup/ab-test.js:34-60 | storage becomes the assignment. The impression is sent iff the template exists, and it equals the hook's impression for the same pair |
| LegacyABTest.ImpressionAgrees | public/old-backup/ab-test.js:52-72 | the payload `trackEvent` builds from the impression data equals the body the React hook posts for the same pair and page |
| LegacyABTest.PayloadFields | public/old-backup/ab-test.js:64-72 | every field of `data` wins over the defaults. An absent variant or visitor id is replaced by the looked-up one |
| LegacyABTest.TrackEvent | public/old-backup/ab-test.js:63-88 | getVariant runs only when `data.variant` is falsy, and getVisitorId only when `data.visitorId` is. The payload uses what they return |
| LegacyABTest.TrackConversion | public/old-backup/ab-test.js:91-93 | the conversion payload has eventType 'conversion' unless `data` names another. Storage changes only through the lookups `trackEvent` runs for a falsy variant or visitor id |
| LegacyABTest.GetABTestInfo | public/old-backup/ab-test.js:96-101 | returns the assigned pair and leaves storage assigned |
| LegacyABTest.GetABTestInfoTwice | public/old-backup/ab-test.js:96-101 | two calls in a row return the same pair |
| KeyValueStore.ApplyViews | api/track.js:28-55 | each store command changes only its own key, in the way its name says. A record merge writes the old record, or `{}`, overlaid with the new fields |
| KeyValueStore.RunConcat | api/track.js:27-56 | running two command lists in turn is running their concatenation |
| KeyValueStore.Client.Attempt | api/track.js:20-65 | a command takes effect exactly when it comes before the first command that throws |
| KeyValueStore.Client.Issue | api/submit.js:53-73 | after command i, the store is the prefix up to i, or the prefix before the failure |
| EventTracker.DatePart | api/track.js:37 | `iso.split('T')[0]` is the prefix of the ISO time up to, not including, its first `T` (all of it when there is none) |
| EventTracker.PeriodKeyInjective | api/track.js:41-55 | keys with periods of equal length are equal iff period and variant are equal |
| EventTracker.TotalIsNotADay | api/track.js:41-42 | an all-time key never collides with a daily key |
| EventTracker.TrackEvent | api/track.js:15-66 | always answers success with the id. With a store, the store ends as the first `failFrom` of the event's commands leave it |
| EventTracker.IssueCounting | api/track.js:39-56 | an impression or conversion issues its four counting commands in order. Any other event type issues none |
| EventTracker.CountingEffect | api/track.js:39-56 | the counting commands raise the field in exactly two hashes and add the visitor to exactly two sets |
| EventTracker.TrackEffect | api/track.js:27-56 | a fully stored event stores its record and heads `events:all`. It raises one field in its day's and the all-time hash and touches nothing else |
| EventTracker.RepeatVisitor | api/track.js:44-46 | a returning visitor leaves the unique-visitor count unchanged. A new one raises it by one |
| EventTracker.TrackBumps | api/track.js:39-56 | every hash field moves by exactly the event's bump |
| EventTracker.EmptyTotals | api/track.js:41-42 | the empty store satisfies "total = sum of days" |
| EventTracker.DailySumBump | api/track.js:41 | a sum over distinct days moves by the bump of the event's day when that day is listed |
| EventTracker.TotalMovesWithDay | api/track.js:41-42 | the all-time field and the sum of daily fields move together |
| EventTracker.TrackKeepsTotals | api/track.js:41-51 | every fully stored event keeps every all-time field equal to the sum of its daily fields. Only a fully stored event does: see the next row |
| EventTracker.TotalLagsOnPartialFailure | api/track.js:41-42 | a store that throws at the all-time increment has already raised the day's field by one and left the all-time field as it was, so `metrics:total:*` can drift from the daily sums |
| EventTracker.TrackStatus | api/track.js:76-105 | the status is 200 exactly for preflight and tracked requests |
| EventTracker.Stamped | api/track.js:96-97 | the event gains `ip` and `serverTimestamp`, and keeps every other field and the required ones |
| EventTracker.HandleTrack | api/track.js:69-114 | OPTIONS gives 200 and any other non-POST gives 405. Missing fields give 400, and nothing is written on these paths. Otherwise the stamped event is tracked and answered with its id |
| EventTracker.TrackedEventStored | api/track.js:96-100 | a tracked request leaves the stamped event with `storedAt` under the answered id, at the head of `events:all` |
| LeadPipeline.VariantListIsNotAll | api/submit.js:62-65 | the per-variant list is never `leads:all`, so a lead joins two lists |
| LeadPipeline.ServerAgreesWithClient | api/submit.js:102-105 | the server accepts a phone iff the browser validator calls it valid |
| LeadPipeline.LeadData | api/submit.js:107-116 | the phone is kept as submitted. Each optional field takes its default when falsy. The variant, visitor id and referrer are never empty |
| LeadPipeline.CallRequestFor | api/submit.js:15-31 | the call goes to the digits of the phone, with the agent and the bearer key, and metadata from the lead |
| LeadPipeline.TriggerRetellCall | api/submit.js:5-47 | a request is sent iff both credentials are set. Without them it throws 'Retell AI not configured'. It succeeds iff the service accepts |
| LeadPipeline.SubmitStatus | api/submit.js:84-161 | 200 for preflight and both call outcomes, 400 exactly for the two phone errors |
| LeadPipeline.HandleSubmit | api/submit.js:77-163 | preflight, 405, and the two 400s write nothing and send no call. An accepted phone behaves as `SubmitLead` says |
| LeadPipeline.SubmitLead | api/submit.js:118-154 | a failed store gives 500 with no call. Otherwise the call is attempted, and the answer says 'failed' or carries the call id. A failed update does not change the answer |
| LeadPipeline.LeadStored | api/submit.js:50-74 | the record has the lead, `createdAt` and 'pending_call'. Its id heads both lists. Every other record and list, and all hashes and sets, are untouched |
| LeadPipeline.CallRecorded | api/submit.js:137-147 | after the update the lead keeps every stored field and gains `retellCallId` and `callStatus` |
| LeadPipeline.CallFailureLeavesPending | api/submit.js:122-135 | when the call fails the lead stays 'pending_call' |
| LeadPipeline.LeadDataLacksCallFields | api/submit.js:107-116 | the lead data never already holds the call fields |
| StatsReporter.RoundHundredths | api/stats.js:17 | `toFixed(2)` picks the nearest hundredth, with ties going up |
| StatsReporter.RoundMonotone | api/stats.js:17 | rounding never reverses an order |
| StatsReporter.ConversionRate | api/stats.js:15-18 | the result is the number 0 exactly when impressions is 0, otherwise the rate rounded to hundredths |
| StatsReporter.GetVariantMetrics | api/stats.js:61-105 | no store or a failed read gives all zeros and '0.00'. Otherwise it returns the two counters, the sizes of the period's sets, and the conversion rate of those counters |
| StatsReporter.ImpressionCounted | api/stats.js:74-82 | a tracked impression raises the variant's impressions by one in both periods and its unique visitors by at most one |
| StatsReporter.CalculateSignificance | api/stats.js:21-50 | zero impressions on either side gives 'Insufficient data'. The p-value is null iff the message is one of the two guards. `significant` holds iff p < 0.05, and iff the message is 'Statistically significant!' |
| StatsReporter.VarianceTermZero | api/stats.js:33-35 | the pooled variance is 0 iff no impression or every impression converted |
| StatsReporter.NoVarianceExactly | api/stats.js:33-39 | with impressions on both sides, 'No variance' iff c1+c2 = 0 or c1+c2 = n1+n2 |
| StatsReporter.SignificanceSymmetric | api/stats.js:21-49 | swapping A and B leaves the result unchanged |
| StatsReporter.WinnerRule | api/stats.js:154-157 | there is no winner unless the result is significant. 'A' implies A's exact rate is higher, and rates that round equal give 'B' |
| StatsReporter.LeadWithId | api/stats.js:117-121 | `{id, ...lead}` holds every field of the record with its value, and the id only when the record has none of its own. A missing record gives only the id |
| StatsReporter.GetRecentLeads | api/stats.js:108-128 | returns the first min(10, n) ids of `leads:all` in order, each with its record. No store or a failed read gives [] |
| StatsReporter.Project | api/stats.js:174-180 | keeps exactly the five listed fields that are present |
| StatsReporter.HandleStats | api/stats.js:131-200 | 401 iff a set token is not matched. HTML iff the accept header includes text/html. The period defaults to 'total'. There are at most 10 leads, each with an id, and a winner only when significant. Each rate that was read is the conversion rate of its counters. The page is served only when every recent lead has a variant |
| DevServer.MockRetellCall | server.js:31-42 | the call id is `mock_call_<ms>` and the status is 'initiated' |
| DevServer.NewLead | server.js:75-79 | the lead has the generated id unless the body has one, every body field, and `createdAt` |
| DevServer.NewEvent | server.js:112-115 | the event is the body with the server's `timestamp` |
| DevServer.DevRate | server.js:129-130 | the rate is '0.00' with no impressions and the deployed rate otherwise |
| DevServer.DevRateMatchesDeployed | server.js:129-130 | it differs from the deployed rate exactly at zero impressions, and only in form |
| DevServer.RecentLeadsOf | server.js:149-155 | returns the last min(10, n) leads, newest first, projected |
| DevServer.CountVariant | server.js:94-96 | the number of objects naming a variant never exceeds the number of objects |
| DevServer.CountsDisjoint | server.js:94-96 | the counts of 'a' and 'b' together never exceed the number of objects |
| DevServer.CountConversion | server.js:94-96 | exactly the named variant's conversions move, by one, and only for 'a' or 'b' |
| DevServer.CountImpression | server.js:118-120 | exactly the named variant's impressions move, by one, and only for an impression of 'a' or 'b' |
| DevServer.SubmitKeepsCounts | server.js:82-96 | after a submission, the conversions still equal the number of stored leads of each variant |
| DevServer.TrackKeepsCounts | server.js:112-120 | after a track, the impressions still equal the number of stored impression events of each variant |
| DevServer.MemoryStorage.constructor | server.js:9-16 | storage starts empty with zero counters for 'a' and 'b' |
| DevServer.MemoryStorage.CountersBounded | server.js:9-16 | conversions never exceed the leads and impressions never exceed the events |
| DevServer.MemoryStorage.Submit | server.js:75-104 | exactly one new lead object is appended and then gains `callId` and 'initiated'. The conversion is counted for 'a'/'b' only, and the counts invariant is kept |
| DevServer.MemoryStorage.Track | server.js:106-123 | exactly one event is appended. An impression of 'a'/'b' is counted, and the counts invariant is kept |
| DevServer.Body | server.js:57-69 | the body is the parsed POST body, or `{}` for malformed JSON and other methods |
| DevServer.HandleApiRequest | server.js:45-167 | OPTIONS comes first and changes nothing. Submit appends one fresh lead holding the new lead's fields and the mock call, answers with its ids, and counts the conversion. Track appends the stamped event, keeps the leads and counts the impression. The stats prefix shows the counters, rates and recent leads when every recent lead has a variant. Otherwise the page fails and no response is sent. Anything else is 404 and changes nothing |
| DevServer.NewestLeadWithoutVariant | server.js:75-93 | a lead submitted without a variant becomes the newest recent lead, so the next stats page fails (server.js:257) |

## Left out

- The Redis and `@vercel/kv` clients, the lazy `getRedis` singleton and its connection. A missing store is an absent client. A connection or command failure is the `failFrom` index of the first command that throws.
- One keyspace shared by all value kinds. Each kind has its own map, so a `WRONGTYPE` error from a key used with two kinds is not modelled.
- The encodings of the two clients. Records are written through `@vercel/kv` and read back through the Redis client with `JSON.parse`; this is treated as a faithful round trip.
- Separate clock readings. Each request reads the clock once, while the source calls `Date.now()` and `new Date()` separately.
- The random nine-character id suffix. It is a parameter, and only the uniqueness implied by (millisecond, suffix) is proved.
- The call service's HTTP exchange. Its answer is a parameter, accepted or rejected. An accepted answer without `call_id` is not modelled. The exact text of a thrown network error is not modelled; it never reaches a response.
- JSON bodies that are not objects, and field values that are not strings. The 500 'Internal server error' paths these produce in the track and submit handlers are not modelled, nor is a non-string phone.
- Floating point:
  - `Math.sqrt` and the normal distribution approximation are parameters.
  - The p-value and z-score are kept as exact values, not as `toFixed` strings.
  - NaN is not modelled. It arises when the total conversions of both variants exceed their total impressions,
    which can happen because the two are counted from independent events. The pooled
    rate then exceeds 1, the variance term is negative, and `Math.sqrt` returns NaN. The
    source then always answers `significant: false` with 'Not yet significant'. The
    `sqrt` parameter is unconstrained there, so the model may give any verdict.
- StatsReporter.ConversionRate: rounds the exact rate half-up to hundredths. `toFixed(2)` rounds the binary double, so it can differ on inputs whose exact rate lies on a tie.
- StatsReporter.GetVariantMetrics: requires the two counters read to be non-negative. They are only ever incremented from zero, and a negative counter would make the significance arithmetic divide by zero.
- StatsReporter.HandleStats: requires all counters of the store to be non-negative, for the same reason.
- StatsReporter.ImpressionCounted: requires the counters read before the event to be non-negative, for the same reason.
- The HTML dashboards (`generateDashboardHTML` and `generateDashboard`). The model keeps only the one failure each can raise, which is reading the variant of a recent lead that has none:
  - The deployed handler answers 500 (`RenderFailed`).
  - The development server sends no response and leaves the rejection unhandled (`DashboardFailed`).
- CORS headers, logging, and the static file serving of the development server.
- The DOM parts of the older scripts: form handling, the cursor adjustment of the phone input, inserting the template (`LoadVariant` takes whether it exists), and `DOMContentLoaded`.
- React rendering. The hook's state cells are fields set directly.
- Concurrency. This covers requests interleaving at an `await`, such as a stats read between storing a development lead and setting its call id, and the unawaited `keepalive` tracking requests.
- The E.164 helper and the call-payload builder in the tests. They are not source behaviour, since the function sends digits only.
