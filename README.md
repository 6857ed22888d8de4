# SMS gateway core, modelled in Dafny

This project models the server-side core of a small SMS gateway dashboard. The gateway accepts SMS
send requests authenticated by API keys and forwards them to a carrier. It keeps per-key usage
logs and daily statistics, and it lets administrators manage discount coupons.

The model covers these parts:

- the **API-key manager**:
  - key generation;
  - exact-match validation of active `sms_`-prefixed keys;
  - the sliding one-hour rate limit;
  - usage logging;
  - owner-scoped deactivation and deletion;
  - the admission chain `validateApiKeyMiddleware`.
- the **coupon manager**:
  - code generation;
  - creation, listing, activation, deactivation and deletion;
  - the redemption state machine. A redemption looks up the active coupon, then checks expiry and
    then the usage limit. Either failing check switches the coupon off. Otherwise the coupon gains one use.
- the **input checks of the carrier client** (`sendSMS`), its request timestamp and its token.
- the **request middleware**, which classifies paths as public or protected and decides redirects.
- the **route handlers**:
  - the public send endpoint (POST and GET);
  - the per-key statistics endpoint;
  - the administrators' coupon endpoint.

The hosted database is modelled in memory:

- `api_keys`, `sms_logs` and `coupon_codes` are `seq` fields of the classes `ApiKeys.ApiKeyStore`
  and `Coupons.CouponStore`, and the methods reassign them.
- Every call to the store takes the store's answer as a `StoreReply` parameter (`Ok`, or `Err` with
  a message). So every path on which the source checks a returned store error is reachable in the
  model. Thrown exceptions and the catch blocks that answer them are not modelled; "## Left out"
  lists them.
- Clock readings, random draws, the SHA-256 digest and the carrier's login and campaign outcomes
  are parameters.
- Row ids are natural numbers handed out from a counter.

Files, one module each:

- `wrappers.dfy`: `Option` and `StoreReply`.
- `tables.dfy`: row filters and the ordering of a select, as functions on sequences.
- `text.dfy`: the JavaScript string operations used:
  - truthiness and `||`;
  - `replace` with a string pattern;
  - `String(n)` and `parseInt`;
  - hex encoding and `toUpperCase`.
- `sms_service.dfy`: timestamp, token and the pre-checks of `sendSMS`.
- `api_keys.dfy`: the key manager and its store.
- `coupons.dfy`: the coupon manager and its store.
- `middleware.dfy`: the request middleware.
- `send_route.dfy`: `/api/sms/send`.
- `stats_route.dfy`: `/api/stats`.
- `admin_coupons_route.dfy`: `/api/admin/coupons`.

Behaviours of the code that a reader might not expect:

- `deactivateApiKey` and `deleteApiKey` answer `true` whenever the store reports no error. This
  includes an id the caller does not own, where no row changes. Nothing leaks, because the update
  is scoped to the owner.
- `createCoupon` stores the value and the usage limit without any range check. A new coupon's
  `current_uses` is the column default, 0.
- A send writes two log rows, `pending` and then `sent`/`failed`. The first row is never updated
  in place. Both rows count towards the hourly rate limit, so one send uses two units.
- `validateApiKey` only returns active keys, so the "API key is inactive" branch of the admission
  chain is unreachable.

## Model

| member | source | states |
|---|---|---|
| Text.OrElse | src/app/api/sms/send/route.ts:39 | `a \|\| b` yields `a` when it is truthy, otherwise `b`; the result is truthy iff one of them is |
| Text.ReplaceFirst | src/app/api/sms/send/route.ts:8 | `replace` with a string pattern replaces the first occurrence, at the least index where the pattern occurs, by the replacement, and leaves a string without the pattern unchanged |
| Text.ReplaceLeadingPattern | src/app/api/sms/send/route.ts:8 | removing `"Bearer "` from `"Bearer " + k` leaves exactly `k` |
| Text.NatToDecimal | src/lib/smsService.ts:34 | the decimal notation of a number is non-empty, all digits, and starts with `0` only for 0 |
| Text.NatToDecimalRoundTrip | src/lib/smsService.ts:34 | reading the decimal notation of `n` back gives `n` |
| Text.ParseInt | src/app/api/stats/route.ts:24 | `parseInt` is `NaN` exactly when no digit follows the optional sign |
| Text.ParseIntRoundTrip | src/app/api/stats/route.ts:24 | `parseInt(String(i)) == i` for every integer |
| Text.HexOfBytes | src/lib/couponUtils.ts:21-22 | hex encoding gives two lower-case hex digits per byte |
| Text.ToUpper | src/lib/couponUtils.ts:24 | upper-casing keeps the length, maps every lower-case hex digit to an upper-case one, and leaves every character that is not a lower-case letter as it is |
| Tables.Filter | src/lib/apiKeyUtils.ts:110-114 | a filtered select returns matching rows of the table only, and every matching row |
| Tables.FilterCounts | src/lib/apiKeyUtils.ts:110-114 | a filtered select keeps each matching row exactly as often as the table holds it, and no other row |
| Tables.FilterConcat | src/lib/apiKeyUtils.ts:110-114 | a filtered select keeps table order: filtering a concatenation concatenates the filtered parts |
| Tables.SortBy | src/lib/apiKeyUtils.ts:180 | an ordered select returns a permutation of its rows, sorted by the key |
| SmsService.RandomSuffix | src/lib/smsService.ts:33 | the random suffix lies in 111..999 for every draw in [0, 1) |
| SmsService.GenerateTimestamp | src/lib/smsService.ts:31-35 | the timestamp is the whole seconds of the clock followed by three digits whose value is the random suffix |
| SmsService.EvenIndexedAt | src/lib/smsService.ts:40-42 | the characters at even indices number ceil(n/2), the k-th being character 2k |
| SmsService.GenerateToken | src/lib/smsService.ts:37-47 | the loop that steps by two yields state name + timestamp + the characters of the timestamp at indices 0, 2, 4, ..., of length \|s\| + \|t\| + ceil(\|t\|/2) |
| SmsService.CountryCodeOptional | src/lib/smsService.ts:254 | a number passes with the `+88` prefix iff it passes without it; accepted numbers have 11 or 14 characters |
| SmsService.PhonePatternExamples | src/lib/smsService.ts:254-255 | the phone pattern accepts `01712345678` and `+8801912345678` and rejects a wrong operator digit, a missing `+`, and too few or too many digits |
| SmsService.InputError | src/lib/smsService.ts:246-268 | the pre-checks pass iff both fields are non-empty, the phone matches and the message has at most 160 characters; each rejection message is reported exactly in its case and order |
| SmsService.SendSms | src/lib/smsService.ts:243-305 | success iff the pre-checks pass, login succeeds and the campaign succeeds; a pre-check failure reports its own message, a login failure "Authentication failed", a failed campaign "Failed to send SMS", and a success "SMS sent successfully"; the message is never empty |
| SmsService.RejectedBeforeLogin | src/lib/smsService.ts:246-277 | a rejected input gets the same failing answer whatever the carrier would say |
| SmsService.MessageLengthBoundary | src/lib/smsService.ts:263 | 160 characters pass, 161 are rejected as too long |
| ApiKeys.GenerateApiKey | src/lib/apiKeyUtils.ts:19-25 | a key is `sms_` followed by the first 48 lower-case hex characters of the digest (52 characters) |
| ApiKeys.GeneratedKeyHasPrefix | src/lib/apiKeyUtils.ts:24 | every generated key passes the prefix test of validation |
| ApiKeys.ValidateApiKey | src/lib/apiKeyUtils.ts:65-101 | a key is accepted iff it has the prefix, the lookup succeeds and exactly one active row holds it; the answer is that row's data and is active |
| ApiKeys.RecentLogsCount | src/lib/apiKeyUtils.ts:110-114 | the window select returns exactly as many rows as there are log positions holding a row of the key created in the last hour |
| ApiKeys.CheckRateLimit | src/lib/apiKeyUtils.ts:106-126 | within the limit iff the count succeeds and fewer than `rateLimit` log positions hold a row of the key created in the last hour; so never for a limit of 0 or less |
| ApiKeys.RateLimitCountsWindowRows | src/lib/apiKeyUtils.ts:106-121 | appending `k` in-window rows of the key stays within the limit iff the rows already in the window plus `k` are fewer than `rateLimit` |
| ApiKeys.LoggedRowCounts | src/lib/apiKeyUtils.ts:110-114 | one logged row adds one to the key's window count when it is the key's and inside the window, otherwise nothing |
| ApiKeys.WindowSlides | src/lib/apiKeyUtils.ts:108-121 | with the same log, a key within its limit now is still within it later |
| ApiKeys.ValidateApiKeyMiddleware | src/lib/apiKeyUtils.ts:267-292 | missing key, invalid key and rate limit are denied in that order with their own messages; a key is admitted iff it is non-empty, valid and within its limit, and the admission carries the validated data; the "inactive" denial never occurs |
| ApiKeys.ExhaustedKeyIsDenied | src/lib/apiKeyUtils.ts:285-289 | a valid key whose last hour holds `rateLimit` rows is refused with "Rate limit exceeded" |
| ApiKeys.DeactivateScopedToOwner | src/lib/apiKeyUtils.ts:197-215 | deactivation switches off the caller's row with that id, and changes nothing else: no other field and no other row |
| ApiKeys.DeactivatedKeyRejected | src/lib/apiKeyUtils.ts:199-203 | after its owner deactivates it, validation never again answers with that row |
| ApiKeys.DeleteScopedToOwner | src/lib/apiKeyUtils.ts:220-234 | deletion removes exactly the rows with that id and owner: every other row, the caller's other keys included, keeps its multiplicity, no new row appears, and every other user's rows stay as they were, in order |
| ApiKeys.LogRow | src/lib/apiKeyUtils.ts:139-146 | a log row carries the key, status and time, and a send time exactly when the status is `sent` |
| ApiKeys.GetUserApiKeys | src/lib/apiKeyUtils.ts:165-192 | exactly the user's rows (as a multiset), newest first; empty on a store error |
| ApiKeys.GetUsageStats | src/lib/apiKeyUtils.ts:239-261 | exactly the key's rows dated from `today - days` on (as a multiset), oldest first; empty on a store error, a `NaN` day count, or a start day outside the range of a JavaScript `Date` (100 000 000 days either side of the epoch), where formatting the date throws |
| ApiKeys.ApiKeyStore.CreateApiKey | src/lib/apiKeyUtils.ts:30-60 | on success appends one active row with a fresh id and the generated key and returns that key; on failure returns "Failed to create API key" and adds nothing |
| ApiKeys.ApiKeyStore.LogSmsUsage | src/lib/apiKeyUtils.ts:131-160 | appends one new row when the insert succeeds and always reports `(key, status == sent)` to the statistics procedure |
| ApiKeys.ApiKeyStore.DeactivateApiKey | src/lib/apiKeyUtils.ts:197-215 | answers false only on a store error; the table becomes the owner-scoped deactivation |
| ApiKeys.ApiKeyStore.DeleteApiKey | src/lib/apiKeyUtils.ts:220-234 | answers false only on a store error; the table becomes the owner-scoped deletion |
| ApiKeys.CreatedKeyValidates | src/lib/apiKeyUtils.ts:40-46 | when no active row already holds the generated key, the row a successful creation inserts validates right away to that row's data |
| Coupons.GenerateCouponCode | src/lib/couponUtils.ts:20-25 | a code has exactly the requested length and only the characters 0-9 and A-F |
| Coupons.ApplyStep | src/lib/couponUtils.ts:85-126 | a redemption keeps the table's size and every coupon except its flag and use count; a success answers the value of an active coupon with that code |
| Coupons.ApplyUnknownCode | src/lib/couponUtils.ts:87-96 | without exactly one active coupon of that code: "Invalid or inactive coupon code", and nothing changes |
| Coupons.ApplyExpired | src/lib/couponUtils.ts:98-102 | an expired coupon is deactivated with its uses unchanged and the answer is "has expired", even when it is also at its limit |
| Coupons.ApplyAtLimit | src/lib/couponUtils.ts:104-108 | a coupon at its limit is deactivated without a further use and the answer is "reached its usage limit" |
| Coupons.ApplySucceeds | src/lib/couponUtils.ts:110-121 | otherwise the coupon's uses rise by exactly one, its value is answered, and nothing else changes |
| Coupons.UnlimitedCouponApplies | src/lib/couponUtils.ts:104 | a coupon with limit -1 never takes the limit branch |
| Coupons.ApplyUpdateFails | src/lib/couponUtils.ts:98-119 | a failed update leaves the table as it was; a failed increment answers "Failed to apply coupon", failed deactivations still report expiry or exhaustion |
| Coupons.ApplyKeepsWithinLimit | src/lib/couponUtils.ts:104-114 | one redemption keeps ids unique and keeps every coupon's uses within its non-negative limit |
| Coupons.UsesNeverExceedLimit | src/lib/couponUtils.ts:104-114 | any sequence of redemptions keeps every coupon's uses within its non-negative limit |
| Coupons.LimitOfThreeScenario | src/lib/couponUtils.ts:98-121 | a limit of three allows three redemptions; the fourth is refused and leaves the coupon inactive with three uses |
| Coupons.WithoutKeepsIds | src/lib/couponUtils.ts:167-180 | deleting coupons keeps the ids unique and below the id counter |
| Coupons.GetCoupons | src/lib/couponUtils.ts:66-79 | every coupon (as a multiset), newest first; empty on a store error |
| Coupons.FlagFlipsAndDeleteTouchOnlyThatCoupon | src/lib/couponUtils.ts:131-180 | activation and deactivation change only the flag of the coupon with that id; deletion removes exactly the coupons with that id |
| Coupons.CouponStore.CreateCoupon | src/lib/couponUtils.ts:30-61 | on success appends an active coupon with the given fields, no uses and the creator; on a store error returns the store's message and adds nothing |
| Coupons.CouponStore.ApplyCoupon | src/lib/couponUtils.ts:85-126 | the table and the answer become what `ApplyStep` gives, and ids stay unique |
| Coupons.CouponStore.DeactivateCoupon | src/lib/couponUtils.ts:131-144 | answers false only on a store error; otherwise clears the flag of that id |
| Coupons.CouponStore.ActivateCoupon | src/lib/couponUtils.ts:149-162 | answers false only on a store error; otherwise sets the flag of that id |
| Coupons.CouponStore.DeleteCoupon | src/lib/couponUtils.ts:167-180 | answers false only on a store error; otherwise removes that id |
| AuthMiddleware.Middleware | src/middleware.ts:6-50 | redirect to the login page (with the path to return to) iff the path is protected, not public, and there is no session; redirect to the dashboard iff signed in on an `/auth/` page; otherwise pass |
| AuthMiddleware.PublicPathsPass | src/middleware.ts:10-18 | public paths pass whatever the session |
| AuthMiddleware.FailsOpen | src/middleware.ts:45-49 | a failing session lookup lets every request through |
| AuthMiddleware.SessionNeverRedirectedToLogin | src/middleware.ts:33-42 | a signed-in user is only ever redirected to the dashboard |
| AuthMiddleware.RedirectsDoNotLoop | src/middleware.ts:27-42 | the login page and the dashboard are not redirected again |
| AuthMiddleware.SmsApiIsPublicKeyApiIsNot | src/middleware.ts:10-30 | `/api/sms/send` passes without a session while `/api/keys` is redirected to the login page |
| SendRoute.PostApiKey | src/app/api/sms/send/route.ts:8 | a truthy `x-api-key` wins; otherwise the key is the `authorization` header with its first `"Bearer "` removed, and there is none without that header |
| SendRoute.BearerTokenAccepted | src/app/api/sms/send/route.ts:8 | `Authorization: Bearer k` yields the key `k` |
| SendRoute.SendAndLog | src/app/api/sms/send/route.ts:55-100 | two statistics reports (pending, then the outcome); one log row per successful insert, all for the key at the request time, the first a pending row without a response and the last a `sent` or `failed` row with the carrier's answer; a success gets 200 "SMS sent successfully", a failure 400 "failed" with the carrier's message and the route's error code |
| SendRoute.Post | src/app/api/sms/send/route.ts:5-114 | no key: 401 and nothing recorded; a refused key: 401 with the refusal's message; an admitted key with a body that is not JSON: 500; without phone or message: 400 `MISSING_PARAMETERS`; anything recorded means the request reached the carrier; a request that reaches it is answered, logged (pending, then sent or failed) and reported exactly as `SendAndLog` says, with the error code `SMS_SEND_FAILED` on failure |
| SendRoute.PostTraceIffReachesCarrier | src/app/api/sms/send/route.ts:10-73 | log and statistics are untouched unless the key is admitted and the body names a phone and a message; a refused key gets 401 with the refusal's own message |
| SendRoute.PostSuccessIff | src/app/api/sms/send/route.ts:64-100 | a POST succeeds iff it reaches the carrier and `sendSMS` succeeds |
| SendRoute.AdmittedSendUsesTwoUnits | src/app/api/sms/send/route.ts:55-73 | a fully logged send adds two rows to the key's rate window |
| SendRoute.SecondSendRefusedAtLimitTwo | src/app/api/sms/send/route.ts:21-73 | with a limit of two, the request after one send is refused for the rate limit |
| SendRoute.Get | src/app/api/sms/send/route.ts:117-213 | no key: 401; a missing number or message: 400 before the key is checked; a refused key: 401 with the refusal's message; a complete request with an admitted key, whichever of query or header carries the key and `msg` or `message` the text, is answered, logged and reported exactly as `SendAndLog` says, with no error code; anything recorded means such a request; error codes only accompany 401 |
| SendRoute.GetChecksParametersBeforeKey | src/app/api/sms/send/route.ts:124-157 | GET answers 400 for a missing number or message before looking at the key |
| SendRoute.GetPrefersQueryParameters | src/app/api/sms/send/route.ts:120-122 | the `api_key` query parameter wins over the header and `msg` over `message` |
| SendRoute.SendAndRecord | src/app/api/sms/send/route.ts:55-100 | logs, sends and logs again through the store, ending as `SendAndLog` says |
| SendRoute.HandlePost | src/app/api/sms/send/route.ts:5-114 | the reply, the log and the statistics reports end as `Post` says |
| SendRoute.HandleGet | src/app/api/sms/send/route.ts:117-213 | the reply, the log and the statistics reports end as `Get` says |
| StatsRoute.ReduceAddsTotals | src/app/api/stats/route.ts:48-52 | the left-to-right reduction equals the column sums added to its start value |
| StatsRoute.TotalsConcat | src/app/api/stats/route.ts:48-52 | column sums split over a concatenation |
| StatsRoute.TotalsWithout | src/app/api/stats/route.ts:48-52 | taking one row out takes its counts out of the sums |
| StatsRoute.TotalsOfPermutation | src/app/api/stats/route.ts:48-52 | the sums do not depend on the order of the rows |
| StatsRoute.UsageStatsTotals | src/app/api/stats/route.ts:45-52 | the totals are the sums over exactly the key's rows from the start date on, and zero when the start date is outside the range of a `Date` |
| StatsRoute.ListedIffOwned | src/app/api/stats/route.ts:34-35 | the user's key list names an id iff the key is theirs (unless the list could not be read) |
| StatsRoute.Stats | src/app/api/stats/route.ts:8-70 | 401 without a user, 400 without a key id, 403 when the key list cannot be read; with the list read, every key of the caller's own gets a success, and a success only for the caller's own key, with the rows of that key, totals equal to their sums and the period in days |
| StatsRoute.ForbiddenIffNotOwner | src/app/api/stats/route.ts:33-42 | with the key list read, 403 iff the key is not the caller's |
| StatsRoute.DaysDefaultToThirty | src/app/api/stats/route.ts:24 | without `days` the window is 30 days, reported as "30 days" |
| StatsRoute.NonNumericDaysGivesEmptyStats | src/app/api/stats/route.ts:24-61 | every `days` that `parseInt` reads as `NaN` gets a successful answer with no rows, zero totals and "NaN days" |
| StatsRoute.FarStartDateGivesEmptyStats | src/lib/apiKeyUtils.ts:240-260 | a day count whose start date is outside the range of a `Date` gets a success with no rows, zero totals and the count in the period |
| StatsRoute.NonNumericExample | src/app/api/stats/route.ts:24 | `parseInt("abc")` is `NaN` |
| AdminCouponsRoute.Guard | src/app/api/admin/coupons/route.ts:28-34 | passes iff there is a user whose role is owner or admin; 401 without a user, else 403 |
| AdminCouponsRoute.OnlyOwnersAndAdminsPass | src/app/api/admin/coupons/route.ts:8-17 | owner and admin pass; a failed role lookup and every other role get 403 |
| AdminCouponsRoute.Get | src/app/api/admin/coupons/route.ts:20-42 | the guard's reply and no call, or the coupon list |
| AdminCouponsRoute.Post | src/app/api/admin/coupons/route.ts:45-85 | creation is requested iff the guard passes and the body has a truthy code and defined value and limit, with exactly those fields, the expiry or none, and the caller as creator; a body that is not JSON gets 500; a body missing one of them gets 400 "Code, value, and usageLimit are required"; a created coupon is answered "Coupon created successfully" with that coupon; a refused creation gets 400 with the manager's error, or "Failed to create coupon" when it is empty |
| AdminCouponsRoute.Patch | src/app/api/admin/coupons/route.ts:88-129 | a body that is not JSON gets 500; a missing coupon id or action gets 400 "Coupon ID and action are required" with no call; any other action gets 400 "Invalid action" with no call; "deactivate" and "activate" dispatch to their calls and only they do; the reply is "Coupon <action>d successfully" or "Failed to <action> coupon" |
| AdminCouponsRoute.UnknownActionRejected | src/app/api/admin/coupons/route.ts:111-118 | any other action gets 400 "Invalid action" and no call |
| AdminCouponsRoute.PatchSuccessMessages | src/app/api/admin/coupons/route.ts:120-124 | the messages are "Coupon activated successfully" and "Coupon deactivated successfully" |
| AdminCouponsRoute.Delete | src/app/api/admin/coupons/route.ts:132-166 | deletion is requested iff the guard passes and a coupon id is given; a body that is not JSON gets 500; no id gives 400 "Coupon ID is required" with no call; the reply is "Coupon deleted successfully" when the manager reports success, otherwise 400 "Failed to delete coupon" |
| AdminCouponsRoute.GuardsComeFirst | src/app/api/admin/coupons/route.ts:28-34 | all four handlers answer 401 and then 403 before reading the body or calling the manager (the same chain stands at lines 53-59, 96-102 and 140-146) |
| AdminCouponsRoute.Perform | src/lib/couponUtils.ts:30-180 | each manager call lists or changes the coupon table as the corresponding store operation says, keeping the store valid; a creation appends and answers the coupon with a fresh id, the requested fields, no uses, the caller as creator and active, or answers the store's message and adds nothing |

## Left out

- Network traffic to the carrier (login, campaign creation, balance queries): the model takes the
  login and campaign outcomes as booleans and does not model the HTTP exchange or its payloads.
- SHA-256, `randomBytes`, `Math.random` and the clock: their results are parameters (a 32-byte
  digest, random bytes, a draw in [0, 1), and millisecond or day numbers).
- The body of the `update_usage_stats` database procedure: it is not part of this model. The
  model records the arguments of each call. The `usage_stats` rows are an input to the
  statistics functions, not state that the model updates.
- Concurrency: the read-then-write race in `applyCoupon` and the race between the rate check and
  logging. Every operation is a single sequential step.
- Exceptions thrown inside the store client and the "Internal server error" catch paths they
  lead to. Store failures are modelled as returned errors; a body that is not JSON is modelled.
- Coupon values parsed with `parseFloat`: values are integers. `parseInt` is modelled without
  leading white space, `0x` prefixes or the Unicode digit set.
- String lengths are counted in characters, not UTF-16 code units. Dates are day and millisecond
  numbers, so there is no time zone and no ISO formatting.
- JSON fields of other types than strings (a numeric `number` field, say): body fields are
  optional strings or integers, and falsy values other than the empty string are not modelled.
- The `usage_count`, `last_used_at` and `updated_at` columns, which the core never writes. Log row
  ids. Decorative response fields (owner, contact and channel banners, echoed data, timestamps).
- The route-matcher pattern of the middleware configuration, which is framework routing.
- The React pages, the thin pass-through routes for keys, coupon application and user creation,
  and the admin client setup: they are not part of this model.
- SmsService.SendSms: the `data` echo of a successful answer and the catch-all "Internal server
  error" answer are not modelled.
- ApiKeys.GetUsageStats, StatsRoute.Stats: `days` is an exact integer, not a double. Above 2^53 the
  source's `${days} days` prints the nearest double, and from 1e21 on exponent notation or
  `Infinity`; the model prints the exact integer. The start instant is also a day, not a time of
  day: a start day of exactly +100 000 000 is a valid `Date` only at midnight, and the model
  always treats it as valid.
- StatsRoute.Stats: the window totals appear in the contract as `TotalsOf` of the returned rows.
  Their equality with the sums over the key's rows since the start date is the separate lemma
  `StatsRoute.UsageStatsTotals`.
