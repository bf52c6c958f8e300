# AquaFarm core, modelled in Dafny

AquaFarm lets farmers log irrigation events and gives them usage analytics and
advice. Administrators get a system-wide view that flags heavy borewell
dependency. This project models the parts of the system that decide something:

- **Usage analytics aggregator** (`analytics.dfy`, with `assoc.dfy` for dictionaries).
  - Buckets a farmer's records by three date cutoffs and sums each bucket.
  - Computes the rounded per-record mean.
  - Raises threshold alerts.
  - Derives borewell, crop and general advice from per-source and per-crop
    totals. JavaScript objects used as dictionaries are insertion-ordered
    association lists, so the order of advice follows the order crops were first seen.
- **Water-usage request handlers** (`water_usage_controller.dfy`):
  - the required-field check before a record is logged (an in-place store);
  - pagination arithmetic;
  - the `period` selector;
  - the source and crop breakdowns;
  - the administrators' aggregation: totals, distinct farmer count, per-farmer
    average, per-farmer source breakdown, and the borewell flags cut to ten.
- **Request gates**:
  - bearer-token parsing and the role gate (`auth_middleware.dfy`);
  - the error handler's mapping from error shape to status and message (`error_handler.dfy`);
  - sign-up and login over a user store (`auth_controller.dfy`).
- **Client state** (`water_usage_slice.dfy`, `auth_slice.dfy`, `user_slice.dfy`).
  - Each Redux slice is a pure reducer `Reduce(state, action)` that serves as the specification.
  - Each slice also has a class whose fields are assigned in place, one method
    per reducer case, proved to produce `Reduce` of the old state.
  - The sign-in state also writes browser storage, modelled as a `LocalStorage`
    object over a `map<string, string>`.
- **String helpers** (`helpers.dfy`, `text.dfy`): text truncation, initials,
  the "days ago" label, token expiry, and `split`/`join`/upper-casing.

Things outside the program are parameters:

- the clock (the three cutoffs and "now");
- the database's casting and validation;
- password hashing and comparison;
- token signing, verification and decoding;
- JSON serialisation.

The model restricts amounts to whole liters of at least 1; the usage schema
(`backend/models/WaterUsage.js:19`) sets the minimum of 1. The 60% and 70%
borewell comparisons are exact integer comparisons. `Math.round` and
`Math.ceil` are written out over integers.

Two behaviours of the analytics code are worth stating outright:

- The empty-input response has no `dailyUsage` field at all; it is modelled as `None`.
- Take "now" as June 15 and records of 6000 L today, 2000 L on June 10 and
  1000 L on May 1. The 6000 L day raises a *warning*, not a critical alert,
  because 6000 does not exceed the critical threshold of 10000. The monthly
  figure is 8000, because the month cutoff is May 15 and the May 1 record
  falls before it. `Analytics.WorkedExample` proves this outcome.

## Model

| member | source | states |
|---|---|---|
| Analytics.Since | backend/utils/analyticsUtils.js:20-22 | a bucket keeps exactly the records dated at or after its cutoff, with no upper bound, and is no longer than the input |
| Analytics.SinceCounts | backend/utils/analyticsUtils.js:20-22 | a bucket holds every copy of each record on or after the cutoff and no copy of one before it |
| Analytics.SinceInOrder | backend/utils/analyticsUtils.js:20-22 | a bucket is a subsequence of the records: their input order is kept |
| Analytics.TotalPositive | backend/utils/analyticsUtils.js:24 | the sum of n records of at least 1 liter each is at least n |
| Analytics.SinceMonotone | backend/utils/analyticsUtils.js:20-27 | a later cutoff never gives a larger bucket sum, and no bucket sum exceeds the total |
| Analytics.SinceSince | backend/utils/analyticsUtils.js:20-22 | filtering at two cutoffs in turn is filtering at the later one |
| Analytics.RoundDiv | backend/utils/analyticsUtils.js:29 | `Math.round(t / n)` is the integer nearest to t/n, with halves rounded up |
| Analytics.AlertLadder | backend/utils/analyticsUtils.js:31-49 | at most two alerts, each one of the three threshold alerts and nothing else; a critical alert iff daily > 10000; a daily warning iff 5000 < daily <= 10000; a weekly warning iff weekly > 30000, always last; a critical alert is always first |
| Analytics.CropSuggestions | backend/utils/analyticsUtils.js:87-96 | there is a crop suggestion for crop c iff c is among the crops and is sugarcane or rice; each entry is a medium-priority crop suggestion; never more entries than crops |
| Analytics.CropSuggestionsInOrder | backend/utils/analyticsUtils.js:88-96 | over distinct crop keys, each crop gets at most one suggestion, and the suggestions follow the keys' order |
| Analytics.AtMostTwoCropSuggestions | backend/utils/analyticsUtils.js:87 | since only two crops are water-intensive, there are at most two distinct crop suggestions |
| Analytics.BorewellRule | backend/utils/analyticsUtils.js:68-79 | the lookup `sourceUsage.borewell && sourceUsage.borewell > weeklyUsage * 0.6` holds iff the borewell liters are positive and 10·borewell > 6·weekly |
| Analytics.PushCropSuggestions | backend/utils/analyticsUtils.js:88-96 | the loop over the crop keys appends exactly the crop suggestions, in key order |
| Analytics.GenerateSuggestions | backend/utils/analyticsUtils.js:64-107 | the method (two dictionary folds, the borewell rule, the crop loop, the fallback) returns the advice list `Suggestions` |
| Analytics.SuggestionsShape | backend/utils/analyticsUtils.js:64-107 | 1 to 3 entries, none repeated; borewell advice first iff the borewell rule fires, and never later; crop advice for exactly the water-intensive crops present; the general advice appears iff it is the only entry iff neither rule fired |
| Analytics.SuggestionsInCropOrder | backend/utils/analyticsUtils.js:68-96 | every crop advice names a crop of the records, and the crop advice follows the order in which the crops first occur in the records |
| Analytics.AdviceInCropOrder | backend/utils/analyticsUtils.js:79-96 | after an optional borewell advice, the crop advice over the first-seen crop keys follows their first occurrence |
| Analytics.Total | backend/utils/analyticsUtils.js:24-27 | definition of the `reduce` sum of usage amounts; its bounds are stated by `TotalPositive`, `SinceMonotone` and `BucketsNest` |
| Analytics.Alerts | backend/utils/analyticsUtils.js:31-49 | definition of the threshold ladder; `AlertLadder` states its properties and `CalculateAnalytics` ties the pushes to it |
| Analytics.Suggestions | backend/utils/analyticsUtils.js:64-107 | definition of the advice list; `GenerateSuggestions`, `SuggestionsShape` and `SuggestionsInCropOrder` state its properties |
| Analytics.AnalyticsOf | backend/utils/analyticsUtils.js:3-62 | definition of the report; `CalculateAnalytics`, `EmptyInput`, `BucketsNest` and `WorkedReport` state its properties |
| Analytics.NoRuleFires | backend/utils/analyticsUtils.js:98-104 | without borewell records or water-intensive crops, the advice is only the general entry |
| Analytics.CalculateAnalytics | backend/utils/analyticsUtils.js:3-62 | the method (filters, reductions, mean, alert pushes, suggestions) returns the report `AnalyticsOf` |
| Analytics.EmptyInput | backend/utils/analyticsUtils.js:4-13 | empty input gives zero figures, no alerts, no advice, and no daily figure |
| Analytics.BucketsNest | backend/utils/analyticsUtils.js:15-29 | with cutoffs in calendar order: daily <= weekly <= monthly <= total, the total is at least the record count, and the average is the per-record mean rounded |
| Analytics.WorkedBuckets | backend/utils/analyticsUtils.js:20-22 | in the three-record case, today's bucket holds the first record, and the week and month buckets hold the first two |
| Analytics.WorkedReport | backend/utils/analyticsUtils.js:3-62 | the report for 6000, 2000 and 1000 L canal/wheat records placed across the cutoffs: total 9000, mean 3000, daily 6000, weekly and monthly 8000, one daily warning, the general advice |
| Analytics.WorkedExample | backend/utils/analyticsUtils.js:3-62 | the same report for concrete dates: day 100, day 95 and day 55, with the month cutoff at day 69 |
| AssocList.FirstSeen | backend/utils/analyticsUtils.js:88 | the object's keys: duplicate-free, exactly the elements of the input, no longer than it |
| AssocList.FirstSeenOrder | backend/utils/analyticsUtils.js:88 | keys appear in the order of their first occurrence |
| AssocList.Find | backend/utils/analyticsUtils.js:70 | a property lookup finds the key's position iff the key is present |
| AssocList.Lookup | backend/utils/analyticsUtils.js:73 | `obj[k]` is defined iff k is a key, and then it is the value stored under k |
| AssocList.Totals | backend/utils/analyticsUtils.js:68-71 | the accumulated dictionary's keys are the pairs' keys, in first-seen order |
| AssocList.Add | backend/utils/analyticsUtils.js:70 | definition of one `obj[k] = (obj[k] \|\| 0) + v` step; `AddTotals` and `AddSum` state its effect on the totals and on the sum |
| AssocList.AddTotals | backend/utils/analyticsUtils.js:70 | one `obj[k] = (obj[k] \|\| 0) + v` step turns the totals of ps into the totals of ps + [(k, v)] |
| AssocList.TotalsLookup | backend/utils/analyticsUtils.js:73 | looking up k in the totals gives k's sum iff k occurs, and undefined otherwise |
| AssocList.TotalsSum | backend/controllers/waterUsageController.js:204 | the dictionary's values add up to the sum of every amount folded in |
| AssocList.Tally | backend/utils/analyticsUtils.js:68-71 | the accumulating `forEach`, starting from `{}`, returns `Totals` of the pairs |
| Text.Upper | frontend/src/utils/helpers.js:37 | upper-casing keeps the length and upper-cases every character |
| Text.Capitalize | backend/middleware/errorHandler.js:20 | same length; the first character is upper-cased and the rest is kept |
| Text.Split | frontend/src/utils/helpers.js:34 | `split` gives at least one part, and no part contains the separator |
| Text.SplitJoin | frontend/src/utils/helpers.js:34 | joining the parts of a split with the separator gives back the string |
| Text.Join | backend/middleware/errorHandler.js:12 | definition of `join(sep)`; `SplitJoin`, `JoinSplit` and `JoinPieces` state its properties |
| Text.JoinSplit | backend/middleware/errorHandler.js:12 | splitting a join of separator-free parts gives back the parts |
| Text.JoinPieces | backend/middleware/errorHandler.js:12 | in a join, each part sits at its offset, the separator sits between neighbours, and nothing follows the last part |
| WaterUsageController.HasRequiredFields | backend/controllers/waterUsageController.js:11 | definition of the truthiness check of the five required fields; `AddWaterUsage` states its outcome |
| WaterUsageController.UsageStore.AddWaterUsage | backend/controllers/waterUsageController.js:5-41 | a body missing any required field (an amount of 0 counts as missing) gives 400 and stores nothing; a rejected cast is forwarded and stores nothing; otherwise exactly the new record for the signed-in farmer is appended |
| WaterUsageController.Skip | backend/controllers/waterUsageController.js:59 | definition of `(page - 1) * limit`; `PageHasRecords` states where it lands |
| WaterUsageController.PaginationOf | backend/controllers/waterUsageController.js:45-75 | definition of the echoed pagination with the defaults 1 and 20 and `pages` as `CeilDiv`; `PageHasRecords` states its meaning |
| WaterUsageController.CeilDiv | backend/controllers/waterUsageController.js:75 | `Math.ceil(a / b)` is the least q with q·b >= a (positive b), with the mirrored bound for negative b |
| WaterUsageController.PageHasRecords | backend/controllers/waterUsageController.js:59-76 | with a positive limit, `pages` is defined, and page p's skip lies inside the results iff p <= pages |
| WaterUsageController.PeriodFilter | backend/controllers/waterUsageController.js:85-99 | definition of the `period` selector's filter; `PeriodSelection` states what it selects |
| WaterUsageController.Select | backend/controllers/waterUsageController.js:101 | the query keeps exactly the stored records that match the filter |
| WaterUsageController.SelectCounts | backend/controllers/waterUsageController.js:101 | the query returns every copy of a matching record and no copy of any other |
| WaterUsageController.SelectInOrder | backend/controllers/waterUsageController.js:101 | the model's query result is a subsequence of the store, in store order (an order the unsorted `find` does not itself fix) |
| WaterUsageController.Own | backend/controllers/waterUsageController.js:87 | the farmer filter keeps exactly that farmer's records |
| WaterUsageController.OwnKeeps | backend/controllers/waterUsageController.js:87 | the farmer filter keeps every copy of each of the farmer's records, nobody else's, in store order |
| WaterUsageController.SelectOwn | backend/controllers/waterUsageController.js:87-101 | a filter with a date bound selects the farmer's records cut at that bound; without one, all of them |
| WaterUsageController.PeriodSelection | backend/controllers/waterUsageController.js:85-99 | `daily`, `weekly` and `monthly` cut the farmer's records at today's start, a week ago and a month ago; any other period, `all` included, keeps them all |
| WaterUsageController.DailySelectionCollapsesBuckets | backend/controllers/waterUsageController.js:90-102 | after `period=daily`, the weekly, monthly and total figures all equal the daily one |
| WaterUsageController.Breakdowns | backend/controllers/waterUsageController.js:105-111 | the single loop returns the source totals and the crop totals of the selected records |
| WaterUsageController.SourceBreakdownFacts | backend/controllers/waterUsageController.js:109 | the source breakdown has each present source exactly once, with its own sum; its values add up to the total usage |
| WaterUsageController.CropBreakdownFacts | backend/controllers/waterUsageController.js:110 | the crop breakdown has each present crop exactly once, with its own sum; its values add up to the total usage |
| WaterUsageController.AnalyticsResponse | backend/controllers/waterUsageController.js:100-121 | definition of the response data; `GetAnalytics` is proved to return it, and `PeriodSelection`, `SourceBreakdownFacts` and `CropBreakdownFacts` state its parts |
| WaterUsageController.GetAnalytics | backend/controllers/waterUsageController.js:83-125 | the response is the aggregator's report over the period's selection, with both breakdowns, and echoes the period (default `all`) |
| WaterUsageController.FarmerBreakdown | backend/controllers/waterUsageController.js:192-201 | the nested breakdown is keyed by the farmers in first-seen order |
| WaterUsageController.NestedAdd | backend/controllers/waterUsageController.js:194-200 | definition of one nested `forEach` step; `NestedAddStep` ties it to `FarmerBreakdown` |
| WaterUsageController.NestedAddStep | backend/controllers/waterUsageController.js:193-201 | one iteration of the nested loop turns the breakdown of rs into the breakdown of rs + [u] |
| WaterUsageController.BreakdownByFarmer | backend/controllers/waterUsageController.js:192-201 | the nested loop returns each farmer's own per-source totals |
| WaterUsageController.HeavyBorewell | backend/controllers/waterUsageController.js:204-205 | definition of the 70% rule on one farmer's entry; `HeavyMeaning` states it over the farmer's records |
| WaterUsageController.Flagged | backend/controllers/waterUsageController.js:203-212 | every flag reads "Heavy borewell dependency", severity "high"; a farmer is flagged iff their entry has positive borewell liters above 70% of their entry's total |
| WaterUsageController.FlaggedInOrder | backend/controllers/waterUsageController.js:203-212 | over a breakdown keyed by distinct farmers, each farmer is flagged at most once, and the flags follow the key order |
| WaterUsageController.DetectInefficiencies | backend/controllers/waterUsageController.js:203-212 | the loop over the breakdown's entries returns `Flagged`, in entry order |
| WaterUsageController.Take | backend/controllers/waterUsageController.js:221 | `slice(0, n)` is a prefix of length at most n, and the whole list when it is short enough |
| WaterUsageController.SystemAnalytics | backend/controllers/waterUsageController.js:172-227 | the handler's computation returns `SystemReportOf` of all records |
| WaterUsageController.FarmerCount | backend/controllers/waterUsageController.js:179 | definition of the distinct farmer count; `FarmerCountFacts` states its bounds |
| WaterUsageController.SystemReportOf | backend/controllers/waterUsageController.js:172-227 | definition of the system report; `SystemAnalytics` is proved to return it, and `SystemTotals`, `InefficiencyFacts` and `ReportedInOrder` state its parts |
| WaterUsageController.FarmerCountFacts | backend/controllers/waterUsageController.js:179 | `farmerCount` is the number of distinct farmer ids, at most the record count, and 0 iff there are no records |
| WaterUsageController.HeavyMeaning | backend/controllers/waterUsageController.js:204-205 | a farmer's entry is heavy iff their borewell liters are positive and 10·borewell > 7·their total |
| WaterUsageController.InefficiencyFacts | backend/controllers/waterUsageController.js:190-221 | at most 10 inefficiencies; they are a prefix of the flagged list; each names a heavy borewell user and carries the fixed issue and severity; if no more than 10 are flagged, every heavy user is reported |
| WaterUsageController.ReportedInOrder | backend/controllers/waterUsageController.js:190-221 | the reported inefficiencies name distinct farmers, in the order of each farmer's first record in the query's result, so the cut to ten keeps the flagged farmers seen earliest in that result |
| WaterUsageController.SystemTotals | backend/controllers/waterUsageController.js:176-188 | `totalUsage` sums every record; the source distribution adds up to it; `avgPerFarmer` is 0 without farmers, else the rounded total per farmer |
| AuthController.FindByEmail | backend/controllers/authController.js:18 | the lookup finds nothing iff no stored user has that email, and otherwise finds a stored user with that email |
| AuthController.Candidate | backend/controllers/authController.js:27-34 | the document the schema validates has the body's email and the entered password, is active, and has the body's role, or `farmer` when none is given |
| AuthController.NewUser | backend/models/User.js:66-79 | the stored document is the validated one with only its password replaced by the hash |
| AuthController.UserStore.Signup | backend/controllers/authController.js:5-55 | 400 without a required field; 409 for a taken email; the schema's error forwarded when it rejects the document with the entered password; else 201 with data and a token, and exactly one user, with the hashed password, appended; emails stay unique |
| AuthController.Login | backend/controllers/authController.js:57-114 | 400 iff a field is missing; 200 iff the user exists, the password matches and the account is active; the invalid-credentials message iff the email is unknown or the password is wrong; the deactivated message only after a match; data and token only on 200 |
| AuthController.UnknownEmailLooksLikeWrongPassword | backend/controllers/authController.js:70-85 | an unknown email and a wrong password get identical responses |
| AuthController.FindUnique | backend/controllers/authController.js:70 | with unique emails, the lookup by a stored user's email finds that user |
| AuthController.SignupThenLogin | backend/controllers/authController.js:96-110 | after a successful sign-up, logging in with the same email and password gives 200 with the new user's data and token |
| AuthMiddleware.BearerToken | backend/middleware/authMiddleware.js:8-15 | a token is found iff the header is present and starts with `Bearer `, and then `Bearer ` + token is the header |
| AuthMiddleware.BearerRoundTrip | backend/middleware/authMiddleware.js:15 | the header `Bearer ` + t yields the token t |
| AuthMiddleware.Authenticate | backend/middleware/authMiddleware.js:6-19 | claims are accepted iff a bearer token is present and verifies, and they are the verifier's claims |
| AuthMiddleware.Request.VerifyToken | backend/middleware/authMiddleware.js:4-26 | accepted claims are set on the request and `next` is called; otherwise 401 "Invalid or expired token", and the request's user is untouched |
| AuthMiddleware.RequireRole | backend/middleware/authMiddleware.js:28-46 | `next` iff a user is present and their role is allowed; 401 without a user, checked first; 403 for a role not allowed |
| AuthMiddleware.GatesInSequence | backend/middleware/authMiddleware.js:30-44 | behind a passed token check, the role gate either passes or answers 403, never 401 |
| ErrorHandler.StatusOf | backend/middleware/errorHandler.js:4 | a present non-zero status code is the status; anything else gives 500 |
| ErrorHandler.MessageOf | backend/middleware/errorHandler.js:5 | a non-empty message is kept; an empty one becomes "Internal server error"; the result is never empty |
| ErrorHandler.Handle | backend/middleware/errorHandler.js:3-38 | which check wins: a validation error gets 400 with its joined messages whatever its code; code 11000 gets 409 without a stack, even for a cast error; a cast error with another code gets 400 "Invalid ID format"; the handler crashes exactly on a non-validation 11000 error with no key; otherwise the status is the error's own non-zero code else 500, the message its own non-empty message else "Internal server error", and a stack appears iff in development and the error has one |
| ErrorHandler.ValidationMessageLists | backend/middleware/errorHandler.js:8-14 | the 400 message lists every field message in order, separated by ", " |
| ErrorHandler.DuplicateKeyMessage | backend/middleware/errorHandler.js:17-23 | the 409 message is the key with its first letter upper-cased and the rest kept, followed by " already exists" |
| ErrorHandler.DuplicateEmail | backend/middleware/errorHandler.js:17-23 | a duplicate email is answered 409 "Email already exists" |
| ErrorHandler.StackOnlyInDevelopment | backend/middleware/errorHandler.js:33-37 | a stack appears only in development and only on the fallback branch; a response always has a non-zero status, and outside validation and duplicate keys a non-empty message |
| Helpers.TruncateText | frontend/src/utils/helpers.js:40-42 | text no longer than n is unchanged; longer text becomes its first n characters followed by "...", of length n + 3 |
| Helpers.TruncateIdempotent | frontend/src/utils/helpers.js:41 | truncating twice is truncating once; the result is at most n + 3 long, and at most two characters longer than the text |
| Helpers.FirstChars | frontend/src/utils/helpers.js:35-36 | at most one character per word |
| Helpers.GetInitials | frontend/src/utils/helpers.js:32-38 | no more initials than space-separated words |
| Helpers.FirstCharsAreWordStarts | frontend/src/utils/helpers.js:33-36 | the first characters of the split words are exactly the characters that begin a word, left to right |
| Helpers.InitialsAreWordStarts | frontend/src/utils/helpers.js:32-38 | the initials are the upper-cased word-initial characters, so runs of spaces add nothing, and there are no more initials than characters |
| Helpers.DaysAgo | frontend/src/utils/helpers.js:44-47 | "Today" iff less than one whole day has elapsed; "Yesterday" iff one whole day has; otherwise "n days ago" with n the number of whole days, floored |
| Helpers.IsTokenExpired | frontend/src/utils/helpers.js:12-18 | expired if decoding fails; otherwise expired iff the expiry, in seconds, lies before now; a token without an expiry never expires |
| Helpers.ExpiryIsPermanent | frontend/src/utils/helpers.js:16-17 | a token expired at time t is still expired at any later time |
| WaterUsageSlice.Reduce | frontend/src/slices/waterUsageSlice.js:64-131 | only an add or a fetch changes `usages`; only a fetch of own records changes the pagination; each fetched field changes only on its own action; `error` changes only on clear, pending and rejected; `loading` is true iff pending, or clear while loading |
| WaterUsageSlice.FailedRequestKeepsData | frontend/src/slices/waterUsageSlice.js:75-86 | pending then rejected leaves the data as it was, with loading off and the error set |
| WaterUsageSlice.AddedUsageFirst | frontend/src/slices/waterUsageSlice.js:79-82 | an added record goes first; the old list follows unchanged, one longer; loading is off |
| WaterUsageSlice.UsagesNewestFirst | frontend/src/slices/waterUsageSlice.js:79-82 | without a fetch of own records, the list is the added records, newest first, in front of the starting list |
| WaterUsageSlice.LastFetchWins | frontend/src/slices/waterUsageSlice.js:93-97 | after the last fetch of own records, the list is whatever was added since, newest first, in front of that fetch's records; the pagination is that fetch's |
| WaterUsageSlice.PaginationKept | frontend/src/slices/waterUsageSlice.js:96 | actions other than a fetch of own records never change the pagination |
| WaterUsageSlice.SharedLoadingFlag | frontend/src/slices/waterUsageSlice.js:108-111 | with two requests in flight, the first to complete turns `loading` off while the other is still pending |
| WaterUsageSlice.UsageSliceState.constructor | frontend/src/slices/waterUsageSlice.js:4-11 | the initial state: no records, no analytics, not loading, no error, no pagination |
| WaterUsageSlice.UsageSliceState.ClearError | frontend/src/slices/waterUsageSlice.js:68-70 | the new state is `Reduce` of the old state under clearError |
| WaterUsageSlice.UsageSliceState.Pending | frontend/src/slices/waterUsageSlice.js:75-78 | the new state is `Reduce` of the old one under pending (shared by all four requests) |
| WaterUsageSlice.UsageSliceState.Rejected | frontend/src/slices/waterUsageSlice.js:83-86 | the new state is `Reduce` of the old one under rejected (shared by all four requests) |
| WaterUsageSlice.UsageSliceState.UsageAdded | frontend/src/slices/waterUsageSlice.js:79-82 | the new state is `Reduce` of the old one under addWaterUsage.fulfilled |
| WaterUsageSlice.UsageSliceState.MyUsageFetched | frontend/src/slices/waterUsageSlice.js:93-97 | the new state is `Reduce` of the old one under fetchMyUsage.fulfilled |
| WaterUsageSlice.UsageSliceState.AnalyticsFetched | frontend/src/slices/waterUsageSlice.js:108-111 | the new state is `Reduce` of the old one under fetchAnalytics.fulfilled |
| WaterUsageSlice.UsageSliceState.SystemAnalyticsFetched | frontend/src/slices/waterUsageSlice.js:122-125 | the new state is `Reduce` of the old one under fetchSystemAnalytics.fulfilled |
| AuthSlice.Stored | frontend/src/slices/authSlice.js:6 | `getItem(key) \|\| null` is a value iff the key is stored with a non-empty value, and then it is that value |
| AuthSlice.Load | frontend/src/slices/authSlice.js:5-11 | the initial state: the stored token and parsed user; `isAuthenticated` iff a token is stored; not loading, no error |
| AuthSlice.Reduce | frontend/src/slices/authSlice.js:31-89 | only logout and the fulfilled cases touch storage, the token or the user; only clear, pending and rejected touch the error; logout and clear leave loading alone |
| AuthSlice.ReduceKeepsConsistent | frontend/src/slices/authSlice.js:35-87 | every reducer case keeps `isAuthenticated` iff there is a token |
| AuthSlice.ReduceKeepsMirror | frontend/src/slices/authSlice.js:35-83 | every case keeps storage a mirror of the token and the user, given that stringify and parse round-trip and tokens are non-empty |
| AuthSlice.ReloadRestoresSession | frontend/src/slices/authSlice.js:5-11 | reloading from a mirrored, consistent session restores its token, user and `isAuthenticated`, with loading and error reset |
| AuthSlice.LogoutForgets | frontend/src/slices/authSlice.js:35-41 | logout clears the token, the user and `isAuthenticated`, keeps loading and error, removes exactly the two storage keys, and a reload finds no session |
| AuthSlice.FailedRequestKeepsSession | frontend/src/slices/authSlice.js:52-68 | a failed sign-up or login changes only loading and the error, and leaves storage alone |
| AuthSlice.LocalStorage.SetItem | frontend/src/slices/authSlice.js:62-63 | the key now maps to the value; nothing else changes |
| AuthSlice.LocalStorage.RemoveItem | frontend/src/slices/authSlice.js:39-40 | the key is gone; nothing else changes |
| AuthSlice.AuthStore.constructor | frontend/src/slices/authSlice.js:5-11 | the store starts in `Load` of the storage, consistent |
| AuthSlice.AuthStore.Logout | frontend/src/slices/authSlice.js:35-41 | the state and the storage become `Reduce` of the old ones under logout; consistency is kept |
| AuthSlice.AuthStore.SetLoading | frontend/src/slices/authSlice.js:42-44 | state and storage become `Reduce` under setLoading |
| AuthSlice.AuthStore.ClearError | frontend/src/slices/authSlice.js:45-47 | state and storage become `Reduce` under clearError |
| AuthSlice.AuthStore.Pending | frontend/src/slices/authSlice.js:52-55 | state and storage become `Reduce` under pending (sign-up and login alike) |
| AuthSlice.AuthStore.Fulfilled | frontend/src/slices/authSlice.js:56-64 | state and storage become `Reduce` under fulfilled: the token and user are set and written to both storage keys |
| AuthSlice.AuthStore.Rejected | frontend/src/slices/authSlice.js:65-68 | state and storage become `Reduce` under rejected (sign-up and login alike) |
| UserSlice.Reduce | frontend/src/slices/userSlice.js:45-98 | only a user fetch or profile update changes the user; only the list fetch changes the list and the pagination; the error changes only on clear, pending and rejected; `loading` is true iff pending, or clear while loading |
| UserSlice.LatestUserWins | frontend/src/slices/userSlice.js:60-63 | after any actions, the user is the one the latest fetch or profile update delivered, or is unchanged |
| UserSlice.LatestUsersWin | frontend/src/slices/userSlice.js:88-92 | after any actions, the list and the pagination are the latest fetched ones, or are unchanged |
| UserSlice.FailedRequestKeepsData | frontend/src/slices/userSlice.js:56-67 | pending then rejected changes only loading and the error |
| UserSlice.UserSliceState.constructor | frontend/src/slices/userSlice.js:4-10 | the initial state: no user, no users, not loading, no error, no pagination |
| UserSlice.UserSliceState.ClearError | frontend/src/slices/userSlice.js:49-51 | the new state is `Reduce` of the old one under clearError |
| UserSlice.UserSliceState.Pending | frontend/src/slices/userSlice.js:56-59 | the new state is `Reduce` of the old one under pending (shared by the three requests) |
| UserSlice.UserSliceState.Rejected | frontend/src/slices/userSlice.js:64-67 | the new state is `Reduce` of the old one under rejected (shared by the three requests) |
| UserSlice.UserSliceState.UserFetched | frontend/src/slices/userSlice.js:60-63 | the new state is `Reduce` of the old one under fetchCurrentUser.fulfilled |
| UserSlice.UserSliceState.ProfileUpdated | frontend/src/slices/userSlice.js:74-77 | the new state is `Reduce` of the old one under updateUserProfile.fulfilled |
| UserSlice.UserSliceState.UsersFetched | frontend/src/slices/userSlice.js:88-92 | the new state is `Reduce` of the old one under fetchAllUsers.fulfilled |

## Left out

- Date construction, the local calendar and timezones are not modelled. The
  three cutoffs are parameters. In the code, `getAnalytics` and the aggregator
  each read the clock; the model gives both the same cutoffs.
- Floating point is not modelled:
  - the efficiency figure (`waterUsageController.js:19`) is not computed;
  - `Math.round` of a non-integer total is not modelled, since the model restricts amounts to whole liters;
  - the 0.6 and 0.7 products are compared exactly.
- Analytics.RoundDiv: only non-negative totals are modelled, where JavaScript's tie rule (halves up) agrees.
- The `notes` and `weatherCondition` fields of a usage record are not modelled.
- Parts of `getMyWaterUsage` and `getAllWaterUsage` are not modelled: the
  `startDate`/`endDate` filters, the `-date` sort, `skip`/`limit` on the query,
  and `populate`. Only their pagination arithmetic is modelled.
- Query order is not modelled. `find(filter)` in `getAnalytics` and `find()` in `getSystemAnalytics` have no sort, so the database fixes no order. The model takes their results in store order. The order-dependent results are stated relative to the records as the query returned them: the order of crop advice, the key order of both breakdowns, and which ten flagged farmers are kept.
- WaterUsageController.PaginationOf: `page` and `limit` are taken as integers. Non-integer or non-numeric query strings are not modelled. With those, `parseInt` truncates while `(page - 1) * limit` and `total / limit` use the floating-point value, and `parseInt` of a non-number gives `NaN`.
- The database is not modelled. Queries and counts are sequences passed in.
  Mongoose's casting and validation are the parameters `cast` and `valid`, and
  persistence across requests is not modelled.
- The schema's lower-casing and trimming of emails are not modelled, so email lookup is exact.
- bcrypt hashing and comparison are not modelled; they are the parameters `hash` and `matches`.
- Token signing, `jwt.verify` and `jwtDecode` are not modelled; they are the
  parameters `token`, `verify` and `decode`.
- JSON serialisation of the stored user is not modelled; it is the parameters
  `stringify` and `parse`. `JSON.parse` throwing on a corrupt stored value is not modelled.
- Request-body values that are not strings are not modelled for sign-up and
  login; the fields are optional strings. Usage bodies keep JSON values, so
  truthiness is exact.
- AuthController.UserData stands for the response's `data` object. The full
  profile fields of `User.js` (farm size and the rest) are not modelled.
- Text.Upper: upper-cases ASCII letters only, not the rest of Unicode. JavaScript's `toUpperCase` can lengthen a string (`"ß"` becomes `"SS"`), so the length claims of `Text.Capitalize`, `Helpers.GetInitials` and `Helpers.InitialsAreWordStarts` hold only for this one-for-one upper-casing.
- Helpers.TruncateText: counts Unicode characters, where JavaScript's `length` and `substring` count UTF-16 code units, so text outside the Basic Multilingual Plane is cut differently. The length is a natural number; `slice` with a negative length is not modelled.
- Helpers.GetInitials: `n[0]` is taken as a whole character, where JavaScript takes one UTF-16 code unit, which is half of a character outside the Basic Multilingual Plane.
- Usage amounts are whole liters. The schema's `Number` type with minimum 1 also accepts fractions such as 1.5, which the model does not represent.
- Helpers.DaysAgo: takes the elapsed milliseconds. Invalid dates (`NaN`) are not modelled.
- The async thunks and the network calls behind them are not modelled; each
  outcome is an action.
- `backend/controllers/userController.js` is not part of this model; it is store
  access, with the pagination formula modelled above.
