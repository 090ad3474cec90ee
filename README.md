# MesaYa waitlist core, modelled in Dafny

MesaYa is a restaurant waitlist. Guests join a restaurant's open waitlist,
get a status link and a WhatsApp or SMS confirmation, and staff manage the
live queue from a dashboard. This project models the server-side decision
code behind that flow, plus a few pure string and list helpers, and proves
what that code promises.

One module per source file:

| module | source | form |
|---|---|---|
| `Queue` | app/api/queue/route.ts | functions: listing, 1-based positions, wait minutes, displayed ETA, waiting count, rounded average |
| `Messaging` | lib/messaging/provider.ts | the `methodMap` lookup, a specification `Dispatch` of `sendWithFallback`, and a `Dispatcher` class whose method appends provider calls and notification records to its history |
| `RateLimit` | lib/rate-limit/memory.ts | class `MemoryRateLimit` with a `map` field, updated in place by `CheckLimit` and by the sweep loop, beside the pure decision `Check` |
| `Phone` | app/api/party/route.ts, app/api/verify/send/route.ts | the `+549` → `+54` collapse applied to the phone library's E.164 output |
| `Verification` | app/api/verify/send/route.ts, app/api/verify/confirm/route.ts | send-code handler `SendCode` against `SendSpec`; confirm handler `VerificationTable.Confirm` with its newest-match loop |
| `Join` | app/api/party/route.ts | request schema, the early-return sequence `JoinSpec`, status token and link, the handler `CreateParty` |
| `PhoneFormat` | components/AddPartyDialog.tsx | `formatPhoneInput` and the form's bounds |
| `History` | app/api/history/route.ts | counts, averages, hourly and daily windows, peaks, entries; the five-bucket histogram is counted by a loop over an `array` |
| `Register` | app/api/auth/register/route.ts | the slug pipeline and the order of the registration checks |
| `Dashboard` | app/dashboard/page.tsx | class `SortControls` with the two sort fields, and `getSortedParties` as a stable insertion sort on a copy |
| `Types`, `Common` | lib/db/types.ts | rows and shared helpers (option type, JavaScript rounding, decimal digits) |

These are parameters of the model: the clock, random values (the six-digit
draw and the 32 token bytes), the phone library (an E.164 string, or `None`
when it throws), the store's answers (rows read, whether a write succeeds,
generated ids), the access check, the e-mail validator, the sign-up service
and the channel providers. Times are integer milliseconds.

The code behaves as follows, and the model follows it:
- The history route counts and labels "cancelled" parties with the spelling
  `cancelled`. The state column is written as `canceled`
  (app/api/party/[id]/cancel/route.ts:50), so the cancelled count is always
  zero and a canceled party is listed with status `queued`.
- Confirm looks codes up under the phone library's E.164 string. Send stores
  the code under the collapsed string. A code issued for a number whose
  E.164 form starts `+549` can therefore never be confirmed with the number
  it was sent to.
- The `.single()` pre-check for an existing restaurant e-mail only hits when
  exactly one row matches. An e-mail already held by two restaurants passes
  it.
- The slug is never checked for uniqueness. It can also be empty, or begin
  and end with a hyphen.
- The queue's wait minutes are not clamped. They are negative for a party
  created in the future.
- `sendWithFallback` records a WhatsApp success inside its first `try`. If
  that recording throws, the message also goes out by SMS and a second
  record is made.

## Model

| member | source | states |
|---|---|---|
| `Common.RoundDiv` | app/api/queue/route.ts:93-95 | `Math.round(a / b)` for b > 0: the nearest integer, halves rounding up |
| `Common.NearestQuotient` | app/api/queue/route.ts:93-95 | r is the integer nearest to a / b, halves rounding up: r <= a/b + 1/2 < r + 1 |
| `Common.RoundDivBetween` | app/api/queue/route.ts:93-95 | Rounding a quotient bounded by lo and hi stays within lo and hi |
| `Messaging.MethodFor` | lib/messaging/provider.ts:48-54 | Each template goes to the provider operation that sends that same template |
| `Types.StateName` | lib/db/types.ts:1 | The state column spellings; no state is spelled `cancelled` |
| `Queue.Listed` | app/api/queue/route.ts:45 | A party is listed exactly when it is in `queued`, `notified` or `on_the_way` |
| `Queue.ListedKeepsOrder` | app/api/queue/route.ts:45-46 | The filter keeps the ascending `created_at` order the store delivered |
| `Queue.WaitMinutes` | app/api/queue/route.ts:60 | Wait is the floor of elapsed ms / 60000, and negative exactly when `created_at` is in the future |
| `Queue.DisplayedEta` | app/api/queue/route.ts:65 | A non-zero stored ETA is shown as is; otherwise the fallback is max(0, wait), never negative |
| `Queue.BuildQueue` | app/api/queue/route.ts:57-68 | One entry per party; the party at index i gets position i + 1 with its own wait and ETA |
| `Queue.AvgWait` | app/api/queue/route.ts:93-95 | The average is 0 for an empty queue, otherwise the integer nearest to the mean displayed ETA, halves up |
| `Queue.QueueView` | app/api/queue/route.ts:40-101 | The response lists the active parties in order with positions exactly 1..n; `waiting` is n; the average is the rounded mean ETA |
| `Queue.PositionsAreOneToN` | app/api/queue/route.ts:45-71 | An entry exists exactly for each party in an active state |
| `Queue.AverageBetweenExtremes` | app/api/queue/route.ts:93-95 | A non-empty queue's rounded average lies between its smallest and largest displayed ETA |
| `Queue.RemovalShiftsPositions` | app/api/queue/route.ts:57-64 | Removing the party at k keeps earlier entries, and each later party moves up exactly one position |
| `Queue.TerminalTransitionShiftsQueue` | app/api/queue/route.ts:45-64 | A listed party moving to a terminal state drops out; the others keep their order and later ones move up one |
| `Messaging.MethodMapIsBijective` | lib/messaging/provider.ts:48-54 | Each template maps to its own provider operation, and back |
| `Messaging.Dispatch` | lib/messaging/provider.ts:40-110 | The specification of `sendWithFallback`: one or two provider calls, WhatsApp first, then SMS with the same operation and arguments; SMS is called exactly when WhatsApp throws or recording its success throws |
| `Messaging.WhatsAppSuccess` | lib/messaging/provider.ts:56-74 | On a recorded WhatsApp success, SMS is never called; one sent WhatsApp record has the result's id and cost; the result channel is WhatsApp |
| `Messaging.SmsFallbackSuccess` | lib/messaging/provider.ts:75-96 | When WhatsApp throws and SMS succeeds, one sent SMS record is made and the result channel is SMS |
| `Messaging.BothChannelsFail` | lib/messaging/provider.ts:97-108 | When both throw, one failed WhatsApp record is made with no cost or provider id, and the call fails |
| `Messaging.RecordsCarryPartyAndTemplate` | lib/messaging/provider.ts:56-109 | Every record carries the party id and the template; one to three records are made |
| `Messaging.ExactlyOneRecord` | lib/messaging/provider.ts:56-109 | When recording never throws, each call makes exactly one record, and it agrees with the result |
| `Messaging.RecordingFailureDuplicates` | lib/messaging/provider.ts:56-96 | When recording a WhatsApp success throws, SMS is also sent and two records are made |
| `Messaging.Dispatcher.Send` | lib/messaging/provider.ts:58 | A provider call returns that operation's outcome and is appended to the call history |
| `Messaging.Dispatcher.Record` | lib/messaging/provider.ts:45 | The recording callback appends its record, then may throw |
| `Messaging.Dispatcher.FallBackToSms` | lib/messaging/provider.ts:75-108 | After WhatsApp throws: one SMS call, then the sent SMS record, or the failed WhatsApp record when SMS throws, as `SmsFallback` gives |
| `Messaging.Dispatcher.SendWithFallback` | lib/messaging/provider.ts:40-110 | `sendWithFallback` returns `Dispatch`'s result and appends exactly its calls and records |
| `RateLimit.Check` | lib/rate-limit/memory.ts:30-60 | Absent or expired entry (`resetTime < now`): count 1, new window, allowed with limit - 1. Live and full: denied with 0, entry unchanged. Otherwise: count + 1, allowed with limit - count |
| `RateLimit.Swept` | lib/rate-limit/memory.ts:12-19 | The sweep keeps exactly the entries that have not expired, unchanged |
| `RateLimit.LiveWindowAllowance` | lib/rate-limit/memory.ts:44-60 | Inside a live window at most limit - count further checks are allowed |
| `RateLimit.AtMostLimitPerWindow` | lib/rate-limit/memory.ts:30-60 | With limit >= 1, at most `limit` checks on one key within one window are allowed |
| `RateLimit.CountNeverExceedsLimit` | lib/rate-limit/memory.ts:44-60 | With limit >= 1 the stored count never exceeds the limit and `remaining` is never negative |
| `RateLimit.SweepKeepsVerdicts` | lib/rate-limit/memory.ts:12-19 | A sweep never changes the verdict or the stored entry of any later check |
| `RateLimit.RateLimitKey` | lib/rate-limit/memory.ts:72-74 | The key is `type + ":" + identifier` |
| `RateLimit.RateLimitKeyInjective` | lib/rate-limit/memory.ts:72-74 | For kinds without a colon, the key determines both kind and identifier |
| `RateLimit.MemoryRateLimit.CheckLimit` | lib/rate-limit/memory.ts:22-61 | Returns `Check`'s verdict and stores its entry under the key; no other key changes; a denial changes nothing |
| `RateLimit.MemoryRateLimit.Sweep` | lib/rate-limit/memory.ts:12-19 | The delete loop leaves the store equal to `Swept` of the old store |
| `RateLimit.CheckRateLimit` | lib/rate-limit/memory.ts:76-84 | A `CheckLimit` on the shared limiter under `RateLimitKey(identifier, type)` |
| `Phone.CollapseMobilePrefix` | app/api/party/route.ts:33-36 | For `+549...` strings, deletes exactly the character at index 3; every other string is unchanged |
| `Phone.CollapseKeepsCountryCode` | app/api/verify/send/route.ts:45-48 | Keeps the `+54` prefix, and changes a string exactly when it starts `+549` |
| `Phone.CollapseNotIdempotent` | app/api/party/route.ts:34-36 | Applied twice, the collapse can remove a second 9 (`+5499...`) |
| `Verification.ClientIp` | app/api/verify/send/route.ts:19-21 | A non-empty `x-forwarded-for` is used; otherwise a non-empty `x-real-ip`; otherwise `unknown`. The result is never empty |
| `Verification.VerificationCode` | app/api/verify/send/route.ts:58 | A draw in [100000, 999999) prints as six digits without a leading zero |
| `Verification.IssuedRow` | app/api/verify/send/route.ts:59-70 | The row holds the collapsed phone, is unverified, and expires 600 s after issue |
| `Verification.IpAndPhoneKeysDiffer` | app/api/verify/send/route.ts:23-24 | The IP and phone limiter keys never collide |
| `Verification.IpRejectionStillCountsPhone` | app/api/verify/send/route.ts:23-38 | A request refused for its IP still adds one to the phone's counter |
| `Verification.IpRefusalReportedFirst` | app/api/verify/send/route.ts:26-38 | When both limits refuse, 429 for the IP is reported; no row is written on any refusal |
| `Verification.SendSpec` | app/api/verify/send/route.ts:13-104 | Only an empty phone is refused before the limiters, and then nothing changes. Every other request passes through both limiter checks. A row is planned only after the phone parses and the insert succeeds, and it is the issued row |
| `Verification.IssuedRowShape` | app/api/verify/send/route.ts:57-104 | A row is written exactly on SMS failure or success; the row is correct; `expiresIn` 600 s matches the TTL; outside development a failed SMS gives 500 and keeps the row |
| `Verification.NewestMatch` | app/api/verify/confirm/route.ts:31-40 | Finds no row exactly when none matches (same phone and code, unverified, `expires_at > now`); otherwise finds a match with the latest `created_at` |
| `Verification.MarkVerified` | app/api/verify/confirm/route.ts:50-53 | Only the chosen row changes, and it becomes verified |
| `Verification.ConfirmedRowIsConsumed` | app/api/verify/confirm/route.ts:31-53 | After confirming, a row matches exactly when it matched before and is not the confirmed one |
| `Verification.IssuedCodeConfirmableIff` | app/api/verify/confirm/route.ts:18-20 | A live issued code is found by confirm exactly when the E.164 string does not start `+549` |
| `Verification.VerificationTable.Insert` | app/api/verify/send/route.ts:64-70 | Appends the row to the table |
| `Verification.VerificationTable.Confirm` | app/api/verify/confirm/route.ts:11-66 | Returns 400 for bad input, a bad phone or no match, with nothing chosen and the table unchanged. Otherwise it marks the newest match verified, or returns 500 with no change when the update fails. The table changes only on success |
| `Verification.SendCode` | app/api/verify/send/route.ts:13-104 | The handler's response, limiter store and inserted row are those of `SendSpec` |
| `Join.AcceptedBounds` | app/api/party/route.ts:15-16 | Accepted size is exactly an integer 1..12 and accepted ETA exactly an integer 5..120 |
| `Join.HexEncode` | app/api/party/route.ts:63 | `toString('hex')` gives two lowercase hex digits per byte |
| `Join.HexRoundTrip` | app/api/party/route.ts:63 | Decoding the hex token gives back the random bytes |
| `Join.TokenInjective` | app/api/party/route.ts:63 | Different random bytes give different tokens |
| `Join.RestaurantDisplayName` | app/api/party/route.ts:120 | A missing or empty restaurant name falls back to `Restaurante` |
| `Join.JoinSpec` | app/api/party/route.ts:20-139 | The handler's early-return sequence: a party is stored exactly when the response is a success, and it is the party returned; a confirmation is planned only for a stored party and a configured SMS provider |
| `Join.EarlyReturnsInsertNothing` | app/api/party/route.ts:20-87 | Schema failures are reported first; an invalid phone is reported before the waitlist lookup; a missing or ambiguous open waitlist stops the handler before the insert |
| `Join.TokenAndLinkShape` | app/api/party/route.ts:63-98 | The token is 64 lowercase hex characters encoding the 32 bytes; the link is APP_URL + `/status/` + token |
| `Join.RecipientIsStoredPhone` | app/api/party/route.ts:66-121 | The confirmation goes to the collapsed phone that was stored, for the stored party and its link |
| `Join.StoredPartyFields` | app/api/party/route.ts:66-77 | The stored row is queued and carries the request's name, restaurant, notes, size 1..12 and ETA 5..120 |
| `Join.NotificationNeverAffectsResponse` | app/api/party/route.ts:100-139 | Provider outcomes and provider construction never change the response or the stored party |
| `Join.PartyTable.Insert` | app/api/party/route.ts:66-79 | Appends the party row |
| `Join.CreateParty` | app/api/party/route.ts:20-139 | The handler returns `JoinSpec`'s response, stores its row, and dispatches the confirmation exactly when `JoinSpec` says so |
| `PhoneFormat.DigitsOnly` | components/AddPartyDialog.tsx:65 | Keeps only ASCII digits, each taken from the input |
| `PhoneFormat.DigitsOfPlus` | components/AddPartyDialog.tsx:65 | The added `+` contributes no digit |
| `PhoneFormat.FormatPhoneInput` | components/AddPartyDialog.tsx:63-93 | Input without digits is returned unchanged; otherwise the result starts `+` and is longer than its digits |
| `PhoneFormat.SpecialPrefixesAreFallback` | components/AddPartyDialog.tsx:68-90 | `54...` gets `+`, `9...` gets `+54`, other digits get `+549`; the `11` and `15` branches agree with the fallback |
| `PhoneFormat.DigitsAfterFormat` | components/AddPartyDialog.tsx:65-90 | The result's digits are the input's digits behind the added prefix digits |
| `PhoneFormat.FormatIdempotent` | components/AddPartyDialog.tsx:63-93 | Formatting a formatted value changes nothing |
| `PhoneFormat.FormatShape` | components/AddPartyDialog.tsx:63-90 | With digits present, the result is `+` then digits only, starts `+54`, and ends with the input's digits |
| `PhoneFormat.FormBoundsMatchServer` | components/AddPartyDialog.tsx:20-35 | The form accepts only integer size 1..12, integer ETA 5..120 and names of 1..100 characters, and agrees with the join schema |
| `History.CountState` | app/api/history/route.ts:45-47 | Counts exact state spellings; zero exactly when no party has that spelling |
| `History.CancelledCountIsAlwaysZero` | app/api/history/route.ts:47 | The `cancelled` count is zero for every list, even one with canceled parties |
| `History.Served` | app/api/history/route.ts:45 | The seated parties; their number is the seated count |
| `History.PartyWait` | app/api/history/route.ts:55 | Wait is the elapsed time from creation to last update in minutes, rounded to nearest |
| `History.AvgWaitTime` | app/api/history/route.ts:50-59 | 0 when nobody was served, otherwise the integer nearest to the served parties' mean wait, halves up |
| `History.AvgWaitBetween` | app/api/history/route.ts:50-59 | The average wait of the served parties lies between their shortest and longest wait |
| `History.Bucket` | app/api/history/route.ts:116-120 | Buckets are <=15, 16-30, 31-45, 46-60 and >60 |
| `History.BucketsSumToCount` | app/api/history/route.ts:103-121 | Each party is in exactly one bucket, so the buckets sum to the party count |
| `History.WaitBucketsCount` | app/api/history/route.ts:103-121 | Slot b of the histogram counts exactly the parties whose wait falls in bucket b |
| `History.Increment` | app/api/history/route.ts:116-120 | The if-chain adds one to the wait's bucket and nothing else |
| `History.Tally` | app/api/history/route.ts:103-121 | The loop over the five-slot array, starting from zeros, ends with the histogram of the served parties |
| `History.CountWaitBuckets` | app/api/history/route.ts:103-121 | The counting loop gives the histogram of the served parties, which sums to the seated count |
| `History.TodayParties` | app/api/history/route.ts:40-43 | Today's parties: those created at or after local midnight |
| `History.HourlyCounts` | app/api/history/route.ts:61-76 | The hourly chart: 24 counts of today's parties, one per hour |
| `History.HourlyCountAt` | app/api/history/route.ts:61-70 | Hour h counts today's parties created in [today + h hours, today + h + 1 hours) |
| `History.HourlySum` | app/api/history/route.ts:61-76 | The 24 hourly counts add up to today's parties created before the next midnight |
| `History.DailyCounts` | app/api/history/route.ts:79-100 | The daily chart: seven counts, one per day, ending today |
| `History.HourlyCountsCoverToday` | app/api/history/route.ts:62-77 | Hour h counts today's parties in [h, h+1) hours; the 24 counts sum to today's total exactly when none is dated at or after the next midnight |
| `History.DailyCountsOldestFirst` | app/api/history/route.ts:80-100 | After the reversal the seven counts are consecutive days, oldest first, and sum to the week's parties |
| `History.PeakIndex` | app/api/history/route.ts:124-126 | The first index holding the maximum count |
| `History.HourLabel` | app/api/history/route.ts:74 | The label is the hour's tens digit, its units digit, then `:00` |
| `History.DayName` | app/api/history/route.ts:92-94 | The weekday name is the table's entry for the day modulo 7, and is never `N/A` |
| `History.PeakHour` | app/api/history/route.ts:124-127 | `N/A` exactly when every hour is zero; otherwise the label of the earliest hour with the largest count |
| `History.BusiestDay` | app/api/history/route.ts:130-133 | `N/A` exactly when all seven days are zero; otherwise the weekday name of the oldest day with the largest count |
| `History.StatusOf` | app/api/history/route.ts:146-149 | `seated` maps to `served`; the status is one of the four names |
| `History.CanceledListedAsQueued` | app/api/history/route.ts:146-149 | No state gets status `cancelled`; `queued` covers the canceled and active states |
| `History.HistoryEntries` | app/api/history/route.ts:141-162 | One entry per party; `servedAt` is set exactly when seated and is then `updated_at`; the wait is the party's wait |
| `History.HistoryView` | app/api/history/route.ts:4-191 | A missing restaurant id and a failed fetch are the two errors. Otherwise one entry per fetched party, 24 hourly, 7 daily and 5 wait-time counts, and the served total is the number seated |
| `History.GetHistory` | app/api/history/route.ts:4-191 | The response is `HistoryView`; the histogram sums to the served total; the cancelled stat is zero |
| `Register.LowerAscii` | app/api/auth/register/route.ts:84 | Lowercases ASCII letters and keeps every other character |
| `Register.Slug` | app/api/auth/register/route.ts:83-87 | The slug pipeline; a slug holds only `a-z`, `0-9` and `-` |
| `Register.TrimIsNoOp` | app/api/auth/register/route.ts:87 | `trim` does nothing to a string without white space |
| `Register.RunBecomesOneHyphen` | app/api/auth/register/route.ts:86 | Each maximal run of white space becomes exactly one hyphen |
| `Register.HyphensNotMerged` | app/api/auth/register/route.ts:85-86 | Existing hyphens are not merged: `a - b` gives `a---b` |
| `Register.EdgeSpacesBecomeHyphens` | app/api/auth/register/route.ts:86-87 | Leading and trailing spaces become hyphens: ` x ` gives `-x-` |
| `Register.SlugIdempotent` | app/api/auth/register/route.ts:83-87 | The slug of a slug is itself |
| `Register.SlugCanBeEmpty` | app/api/auth/register/route.ts:83-87 | A non-empty name (`!!!`) can give an empty slug |
| `Register.SlugUniquenessNeverChecked` | app/api/auth/register/route.ts:89-103 | A name whose slug is already taken is still registered, leaving two rows with the same slug |
| `Register.DuplicatedEmailPassesPrecheck` | app/api/auth/register/route.ts:27-39 | An e-mail held by two restaurants passes the existing-restaurant check |
| `Register.RegisterSpec` | app/api/auth/register/route.ts:20-136 | The restaurant table changes exactly on success, by one row with the request's name and e-mail, the name's slug and the new id; the response carries the signed-up user |
| `Register.WritesFollowChecks` | app/api/auth/register/route.ts:20-136 | A restaurant row is kept only after both e-mail checks, sign-up and both writes pass; success stores the name's slug |
| `Dashboard.NextSort` | app/dashboard/page.tsx:110-117 | Same key: order flips, key stays; another key: that key, ascending |
| `Dashboard.SortTwice` | app/dashboard/page.tsx:110-117 | Clicking the current key twice restores the state |
| `Dashboard.NameCompare` | app/dashboard/page.tsx:131 | The name comparison, ordered by code point, returns -1, 0 or 1 |
| `Dashboard.NameCompareAntisymmetric` | app/dashboard/page.tsx:131 | Swapping the names negates the comparison; zero exactly for equal names |
| `Dashboard.CompareIsConsistent` | app/dashboard/page.tsx:120-139 | The comparator, negated for descending, is antisymmetric, total and transitive |
| `Dashboard.SortedParties` | app/dashboard/page.tsx:120 | The sorted copy is a permutation of the parties |
| `Dashboard.SortedPartiesIsSorted` | app/dashboard/page.tsx:120-139 | Non-decreasing by the key ascending, non-increasing descending |
| `Dashboard.SortIsStable` | app/dashboard/page.tsx:120-141 | Elements that compare equal keep their input order, in both directions |
| `Dashboard.SortControls.constructor` | app/dashboard/page.tsx:21-22 | The initial state is position, ascending |
| `Dashboard.SortControls.HandleSort` | app/dashboard/page.tsx:110-117 | The two fields become `NextSort` of the old state |
| `Dashboard.SortControls.GetSortedParties` | app/dashboard/page.tsx:119-142 | Returns the sorted copy: a sorted permutation, leaving the state and the input unchanged |

## Left out

- Storage: every Supabase query, insert and update is a sequence or map of rows, or a success flag given as input. Transactions and concurrent requests are not modelled.
- The limiter instance is shared across requests in one process. The model treats each request as one sequential call. The five-minute `setInterval` scheduling of the sweep is an operation the caller invokes.
- The phone library (`parsePhoneNumber`, `isValid`, `format('E.164')`) is an oracle. Only the post-processing collapse is modelled.
- The e-mail validator, the sign-up service's internals, and the deletion of the auth user after a failed write are not modelled. The removal of the restaurant row after a failed user-row write is modelled.
- The default waitlist insert at the end of registration is not modelled. Its error is ignored, so it never affects the response.
- Transports (lib/messaging/sms.ts, lib/messaging/whatsapp.ts) are abstract provider outcomes. The SMS wrapper turns Twilio error 21608 into a success, so a modelled success may mean the message was not delivered.
- Building the two providers for the join confirmation is one flag. When construction throws, nothing is dispatched.
- Calendar and time zones: local midnight and today's weekday are given. Hours and days are fixed lengths of 3 600 000 and 86 400 000 ms, so daylight-saving days are not modelled. Each separate `Date.now()` or `new Date()` in one handler is the same `now`.
- The history query's `order(created_at desc).limit(100)` is not modelled: its rows are input. The satisfaction score is floating point and is not modelled.
- Optional JSON fields of the wrong type, and thrown errors other than schema errors (the generic 500 at app/api/party/route.ts:151-154), are not modelled. The access check's failure is modelled as the 500 it ends in.
- Strings are sequences of Unicode scalar values. JavaScript lengths count UTF-16 code units, so names over 100 characters that contain characters outside the Basic Multilingual Plane are measured differently.
- Register.LowerAscii: lowercases ASCII letters only. JavaScript's `toLowerCase` also maps non-ASCII letters, including a few (U+0130, U+212A) that become ASCII letters. For such names the slug can differ.
- Dashboard.NameCompare: compares code points. `localeCompare` uses locale collation, so the order of names can differ. The sort's properties only depend on the comparator being consistent, which both are.
- Dashboard.SortControls.GetSortedParties: specified on values. The copy `[...parties]` and `sort` act on a fresh array, which the value model expresses as the input value never changing.
- Join.IsUuid: checks the 8-4-4-4-12 hex shape only, not the version and variant digits the schema's uuid pattern requires.
- History.PartyWait and Queue.WaitMinutes: timestamps are integer milliseconds, as the ISO strings the store returns allow.
- Verification.NewestMatch: when several matches share the latest `created_at`, the store may return any of them. The contract allows any such row, and the loop picks the first.
- Types.NotificationRecord: the provider's floating-point cost is an integer amount. `MetricsDaily` is only a row shape, without its floating-point `abandonment_rate`.
- Party state transitions (the `/api/party/[id]/*` routes) are not part of this model. Only the `canceled` spelling they write is used.
