# Outage campaign scheduler: a Dafny model of `CampaignService`

`CampaignService` runs a time-bounded outage-notification campaign. On `start` it:

- parses the campaign's duration and tick interval (`"10m"`, `"4h"`, …);
- plans one tick per interval;
- pre-generates one JSON file per tick from a sample document. Each file has a fresh outage id, a list of delivery nodes whose size follows a ramp curve, and a `_meta` summary.

When sending is enabled, it schedules a sender. The sender posts the next file to the target endpoint on every tick, with the configured authentication header, until the campaign's end or the last file. `stop` cancels the sender; `status` reports a snapshot.

This project models that core and proves properties of the model. It has one module per file:

- `wrappers.dfy` (`Wrappers`): `Option` and `Result`.
- `java_lang.dfy` (`JavaLang`): the Java library behaviour the service relies on:
  - `int`/`long` ranges;
  - `Math.round`;
  - the wrapping `(int)` cast of a `long` and the saturating `(int)` cast of a `double`;
  - `long` multiplication;
  - `trim`, `toLowerCase`, `equalsIgnoreCase`;
  - `%0Nd` formatting and `Long.parseLong`.
- `durations.dfy` (`Durations`): `parseDuration`, with durations held as whole milliseconds, and `Duration.getSeconds`/`toMinutes`. It also holds a recogniser for the ISO-8601 text `Duration.parse` accepts, used to prove that the ISO fallback can never succeed.
- `planning.dfy` (`Planning`): the number of ticks, `totalPlanned`.
- `json.dfy` (`JsonTree`): the tree a JSON document is read into.
- `counts.dfy` (`Counts`): the clamped counts of a file: outages, average nodes, nodes and customers affected.
- `generation.dfy` (`Generation`): `generateFromSample`, with its node-cloning loop as a method, and `preGenerateAll`, with its stream over the ticks as a loop. It also covers the outage ids and the file names.
- `delivery.dfy` (`Delivery`): the request `postPayload` sends, and the authentication-header choice.
- `campaign.dfy` (`Campaign`): the lifecycle.
  - The class `CampaignService` has the service's fields plus the sender's cursor `idx` and a flag saying a sender is scheduled.
  - Its methods are `Start`, `Stop`, `Tick` (one run of the sender) and the function `Status`.
  - Each method is specified by a function on a `State` snapshot (`Started`, `Stopped`, `Ticked`). The lemmas are stated over those functions, together with the invariant `Invariant` that every method keeps.

The inputs of `start` that come from outside the service are parameters:

- the instant `now`, in milliseconds since the epoch;
- the sample document as read, or `None` when the file cannot be read as JSON;
- the send-enabled flag. The source refers to a `sendProps` field it never declares (`CampaignService.java:96`, fields at lines 26-32), so the flag is a plain parameter.

The tick's `now` and `postOk` are parameters too. `postOk` says whether reading the file and `postPayload` returned normally.

The settings, the ramp curve and the clock formatters are an immutable `Config`:

- the ramp curve is an arbitrary function into `[0, 1]`;
- the formatters are arbitrary functions of the instant.

## Model

| member | source | states |
|---|---|---|
| JavaLang.Round | src/main/java/com/example/outages/CampaignService.java:158 | `Math.round` lies in the `long` range and is the nearest integer (halves up) whenever that is a `long` |
| JavaLang.LongToInt | src/main/java/com/example/outages/CampaignService.java:160 | the `(int)` cast of a `long` is an `int` congruent to it modulo 2^32, and the identity on `int` values |
| JavaLang.LongWrap | src/main/java/com/example/outages/CampaignService.java:129 | `long` multiplication wraps: the result is a `long` congruent modulo 2^64, and exact when no overflow occurs |
| JavaLang.SaturateToInt | src/main/java/com/example/outages/CampaignService.java:88 | the `(int)` cast of a `double` is the value itself inside the `int` range and saturates to `INT_MAX`/`INT_MIN` outside it |
| JavaLang.TruncDiv | src/main/java/com/example/outages/CampaignService.java:88 | Java's `/` truncates toward zero for a dividend of either sign over a positive divisor |
| JavaLang.Trim | src/main/java/com/example/outages/CampaignService.java:238 | `trim` leaves no character at or below the space at either end |
| JavaLang.TrimIgnoresPadding | src/main/java/com/example/outages/CampaignService.java:238 | any padding of characters at or below the space is removed by `trim` |
| JavaLang.TrimLower | src/main/java/com/example/outages/CampaignService.java:238 | trimming and lower-casing commute |
| JavaLang.Lower | src/main/java/com/example/outages/CampaignService.java:238 | lower-casing keeps the length, leaves no capital letter and changes nothing but capitals |
| JavaLang.EqualsIgnoreCase | src/main/java/com/example/outages/CampaignService.java:209-211 | two texts are equal ignoring case exactly when they have the same length and agree letter by letter after case folding |
| JavaLang.LowerIdempotent | src/main/java/com/example/outages/CampaignService.java:238 | lower-casing twice is lower-casing once |
| JavaLang.Decimal | src/main/java/com/example/outages/CampaignService.java:171 | the decimal text of a natural is a non-empty digit string without leading zero |
| JavaLang.DecimalValue | src/main/java/com/example/outages/CampaignService.java:171 | the decimal text reads back as the number |
| JavaLang.ZeroPad | src/main/java/com/example/outages/CampaignService.java:132 | `%0Nd` gives digits only, of length the larger of the width and the number's own length |
| JavaLang.ZeroPadValue | src/main/java/com/example/outages/CampaignService.java:171 | padded text still reads back as the number |
| JavaLang.ZeroPadInjective | src/main/java/com/example/outages/CampaignService.java:171 | different numbers pad to different text at the same width |
| JavaLang.ParseLong | src/main/java/com/example/outages/CampaignService.java:239 | `Long.parseLong` yields a `long`, only from text that starts with a digit or with a sign followed by more text |
| JavaLang.ParseLongDigits | src/main/java/com/example/outages/CampaignService.java:239-243 | a digit string, leading zeros allowed, reads as its value when that is at most `Long.MAX_VALUE` and fails above it; a `+` before it changes nothing |
| JavaLang.ParseLongMinusDigits | src/main/java/com/example/outages/CampaignService.java:239-243 | a `-` before a digit string gives the negated value down to `Long.MIN_VALUE`, and fails below it |
| JavaLang.ParseLongRejectsNonDigit | src/main/java/com/example/outages/CampaignService.java:239-243 | any character other than a digit, except one leading sign, makes `Long.parseLong` fail |
| JavaLang.ParseLongDecimal | src/main/java/com/example/outages/CampaignService.java:239-243 | `Long.parseLong` reads any decimal text of a `long` back to it |
| JavaLang.ParseLongNegative | src/main/java/com/example/outages/CampaignService.java:239-243 | and a minus sign before it gives the negative value, down to `Long.MIN_VALUE` |
| Durations.UnitOf | src/main/java/com/example/outages/CampaignService.java:239-243 | the unit chosen is the one whose suffix ends the text, `ms` taken before `s` and `s` only when the text does not end in `ms`; there is none exactly when the text ends in none of `s`, `m`, `h`, `d` |
| Durations.Normalize | src/main/java/com/example/outages/CampaignService.java:238 | the trimmed, lower-cased text has no padding character at either end and no capital letter |
| Durations.Of | src/main/java/com/example/outages/CampaignService.java:239-243 | `Duration.ofX(n)` is n times the unit's milliseconds; only minutes, hours and days can overflow |
| Durations.MultiplyExact | src/main/java/com/example/outages/CampaignService.java:241-243 | succeeds exactly when the seconds fit a `long`, and then holds those seconds |
| Durations.ParseDuration | src/main/java/com/example/outages/CampaignService.java:237-245 | the ISO fallback is taken exactly when the normalised text has no unit suffix, and every result's seconds fit a `long` |
| Durations.ParseNormalized | src/main/java/com/example/outages/CampaignService.java:239-244 | the same, for text already trimmed and lower-cased |
| Durations.WholeMinutes | src/main/java/com/example/outages/CampaignService.java:88 | `toMinutes` is the whole minutes contained in a non-negative duration; for a negative one it is `getSeconds() / 60` rounded toward zero, so never positive |
| Durations.WholeSeconds | src/main/java/com/example/outages/CampaignService.java:129 | `getSeconds` is the floor of the milliseconds over 1000: the largest whole number of seconds not after the duration |
| Durations.SkipSection | src/main/java/com/example/outages/CampaignService.java:244 | scanning one ISO-8601 section consumes a suffix and keeps the text's last character |
| Durations.IndexOfAny | src/main/java/com/example/outages/CampaignService.java:244 | the first position holding one of the characters, or -1 if there is none |
| Durations.SecondsSectionEndsWithS | src/main/java/com/example/outages/CampaignService.java:244 | a seconds section of an ISO-8601 duration ends with `s` |
| Durations.DatePartEndsWithD | src/main/java/com/example/outages/CampaignService.java:244 | a date part ends with `d` |
| Durations.TimePartEndsWithUnit | src/main/java/com/example/outages/CampaignService.java:244 | a time part ends with `h`, `m` or `s` |
| Durations.IsoSectionsEndWithUnit | src/main/java/com/example/outages/CampaignService.java:244 | the sections after `P` end with a unit letter |
| Durations.IsoDurationEndsWithUnit | src/main/java/com/example/outages/CampaignService.java:239-244 | every text `Duration.parse` accepts ends with `d`, `h`, `m` or `s`, so a suffix branch sees it first; it starts with `p` after an optional sign and has at least one character between the `p` and its last letter |
| Durations.FallbackAlwaysFails | src/main/java/com/example/outages/CampaignService.java:244 | text reaching the fallback is not an ISO-8601 duration, so `parseDuration` throws |
| Durations.ParseLongRejectsP | src/main/java/com/example/outages/CampaignService.java:240-243 | `Long.parseLong` rejects text starting with `p`, signed or not |
| Durations.PTextRejected | src/main/java/com/example/outages/CampaignService.java:239-243 | text with a unit suffix whose first character after an optional sign is `p` fails in `Long.parseLong` as not a number |
| Durations.IsoTextIsRejected | src/main/java/com/example/outages/CampaignService.java:239-243 | an ISO-8601 duration, once normalised, fails in its suffix branch as not a number |
| Durations.IsoDurationsAreRejected | src/main/java/com/example/outages/CampaignService.java:238-244 | so `parseDuration` rejects every ISO-8601 duration, as not a number |
| Durations.TrimKeepsUnpadded | src/main/java/com/example/outages/CampaignService.java:238 | text without padding at its ends is its own trim |
| Durations.LowerKeepsLowerCase | src/main/java/com/example/outages/CampaignService.java:238 | text without capitals is its own lower case |
| Durations.ParseIgnoresPaddingAndCase | src/main/java/com/example/outages/CampaignService.java:238 | padding at either end and capitals do not change the result |
| Durations.CountWithUnitIsNormal | src/main/java/com/example/outages/CampaignService.java:238 | a count followed by a unit suffix is already normalised |
| Durations.UnitAfterDigit | src/main/java/com/example/outages/CampaignService.java:239-243 | after a digit, each unit's suffix selects that unit (`ms` is not read as `s`) |
| Durations.UnitOfSuffix | src/main/java/com/example/outages/CampaignService.java:239-243 | a unit's suffix after any text selects that unit, provided an `s` does not follow an `m` |
| Durations.ParseNormalizedSuffix | src/main/java/com/example/outages/CampaignService.java:239-243 | text before a unit suffix is handed to `Long.parseLong`: `NotANumber` when that fails, otherwise that many units |
| Durations.ParseNormalizedDigits | src/main/java/com/example/outages/CampaignService.java:239-243 | a digit string before a suffix, leading zeros allowed, is that many units up to `Long.MAX_VALUE` and `NotANumber` above it; a leading `+` changes nothing |
| Durations.ParseNormalizedMinusDigits | src/main/java/com/example/outages/CampaignService.java:239-243 | after a `-` the count is negated down to `Long.MIN_VALUE`, and is `NotANumber` below it |
| Durations.ParseNormalizedRejectsNonDigit | src/main/java/com/example/outages/CampaignService.java:239-243 | a count holding anything but digits after an optional sign, such as `1.5` or `abc`, is `NotANumber` |
| Durations.NormalWithUnit | src/main/java/com/example/outages/CampaignService.java:238 | a count with no padding at its start and no capital, followed by a suffix, is parsed as it stands |
| Durations.ParseNormalizedCount | src/main/java/com/example/outages/CampaignService.java:239-243 | a count with a unit suffix parses to the unit applied to the count |
| Durations.ParseCountWithUnit | src/main/java/com/example/outages/CampaignService.java:238-243 | `parseDuration` of a count with a unit suffix is that many units, or the overflow error |
| Durations.ParseCountWithLeadingZeros | src/main/java/com/example/outages/CampaignService.java:238-243 | leading zeros before a decimal count do not change the number of units |
| Durations.ParsePlusCount | src/main/java/com/example/outages/CampaignService.java:238-243 | a `+` before a decimal count does not change the number of units |
| Durations.ParseMinusCount | src/main/java/com/example/outages/CampaignService.java:238-243 | a `-` before a decimal count negates it, down to `Long.MIN_VALUE` |
| Durations.DecimalOfThreeDigits | src/main/java/com/example/outages/CampaignService.java:239 | the digits of a three-digit count |
| Durations.DecimalOfTwoDigits | src/main/java/com/example/outages/CampaignService.java:241 | the digits of a two-digit count |
| Durations.MillisExample | src/main/java/com/example/outages/CampaignService.java:239 | `"500ms"` is 500 milliseconds, not seconds |
| Durations.SecondsExample | src/main/java/com/example/outages/CampaignService.java:240 | `"30s"` is 30 000 milliseconds |
| Durations.MinutesExample | src/main/java/com/example/outages/CampaignService.java:241 | `"10m"` is 600 000 milliseconds |
| Durations.HoursExample | src/main/java/com/example/outages/CampaignService.java:242 | `"4h"` is 14 400 000 milliseconds |
| Durations.DaysExample | src/main/java/com/example/outages/CampaignService.java:243 | `"2d"` is 172 800 000 milliseconds |
| Durations.LeadingZerosExample | src/main/java/com/example/outages/CampaignService.java:241 | `"007m"` is 420 000 milliseconds |
| Durations.PlusSignExample | src/main/java/com/example/outages/CampaignService.java:241 | `"+5m"` is 300 000 milliseconds |
| Durations.FractionRejectedExample | src/main/java/com/example/outages/CampaignService.java:241 | `"1.5m"` is not a number |
| Durations.LettersRejectedExample | src/main/java/com/example/outages/CampaignService.java:241 | `"abcm"` is not a number |
| Durations.IsoExampleRejected | src/main/java/com/example/outages/CampaignService.java:238-241 | `"PT10M"` becomes `"pt10m"` and fails in `Long.parseLong("pt10")` |
| Planning.CeilDiv | src/main/java/com/example/outages/CampaignService.java:88 | the exact ceiling of a quotient by a positive divisor |
| Planning.TotalPlanned | src/main/java/com/example/outages/CampaignService.java:88 | the ceiling of whole duration minutes over whole interval minutes while it fits an `int`, saturated beyond |
| Planning.CeilingBounds | src/main/java/com/example/outages/CampaignService.java:88 | where the ceiling lies relative to the `int` range |
| Planning.ShortCampaignPlansNothing | src/main/java/com/example/outages/CampaignService.java:88 | a campaign shorter than one minute plans 0 ticks: there is no at-least-one guard |
| Planning.DefaultCampaignPlan | src/main/java/com/example/outages/CampaignService.java:88 | 4 hours at 10 minutes plans 24 ticks |
| Planning.PartialIntervalRoundsUp | src/main/java/com/example/outages/CampaignService.java:88 | 5 minutes at 10 minutes plans 1 tick |
| Planning.MinutesAreTruncatedFirst | src/main/java/com/example/outages/CampaignService.java:88 | 119.999 seconds at one minute plans 1 tick: seconds are dropped before dividing |
| Counts.OutagesThisFile | src/main/java/com/example/outages/CampaignService.java:158 | an `int` of at least 1, the nearest integer to `maxOutagesTotal / N` when that is at least one half |
| Counts.QuotientInIntRange | src/main/java/com/example/outages/CampaignService.java:158 | an `int` divided by a positive count stays in the `int` range, so the casts are exact there |
| Counts.AvgNodes | src/main/java/com/example/outages/CampaignService.java:159 | the configured average if it is at least 1, and 1 otherwise |
| Counts.NodesThisFile | src/main/java/com/example/outages/CampaignService.java:160 | an `int` of at least 1, and the nearest integer to `avgNodes * (0.5 + r)` while that fits an `int` |
| Counts.CustomersAffected | src/main/java/com/example/outages/CampaignService.java:172 | between 30 and 130, and the nearest integer to `100 * (0.3 + r)` |
| Counts.DefaultOutageCount | src/main/java/com/example/outages/CampaignService.java:158 | 500 outages over 24 ticks gives 21 per file |
| Counts.DefaultNodeCounts | src/main/java/com/example/outages/CampaignService.java:159-160 | an average of 120 gives 60 nodes at intensity 0 and 180 at intensity 1 |
| Counts.NodesThisFileWraps | src/main/java/com/example/outages/CampaignService.java:160 | at the largest average and full intensity the count wraps to a negative `int`, and the file gets 1 node |
| Generation.ReadSample | src/main/java/com/example/outages/CampaignService.java:148-151 | the sample is usable exactly when it is an object whose `outage` (if present) is an object, whose `deliveryNodes` (if present) is an array, and whose first node (if any) is an object; then the outage is the sample's `outage` fields or the empty map when the key is absent, and the node template is the first node's fields or the empty map when the key is absent or the list is empty |
| Generation.NodeCount | src/main/java/com/example/outages/CampaignService.java:159-160 | a file has at least one node, and an `int` count of them |
| Generation.BuildNodes | src/main/java/com/example/outages/CampaignService.java:169-175 | the loop builds exactly `count` nodes, node `k` being the template with id `k + 1` and the common customer count |
| Generation.GenerateFromSample | src/main/java/com/example/outages/CampaignService.java:146-186 | the method returns `GeneratedPayload`: the sample with the tick's outage, nodes and `_meta`, or the exception of a bad sample |
| Generation.PreGenerateAll | src/main/java/com/example/outages/CampaignService.java:116-143 | the method returns `Pregenerated`: ticks 1 to N in order, stopping at the first tick that throws |
| Generation.FirstErrorStays | src/main/java/com/example/outages/CampaignService.java:126-139 | once a tick throws, that error is the result of the whole run |
| Generation.FilesUpToStep | src/main/java/com/example/outages/CampaignService.java:126-139 | a run of k ticks succeeds exactly when the run of k-1 and tick k do, and it appends tick k's file |
| Generation.FilesUpToTicks | src/main/java/com/example/outages/CampaignService.java:126-139 | a successful run of k ticks has exactly k files, the file of tick i+1 at index i |
| Generation.PregeneratedTicks | src/main/java/com/example/outages/CampaignService.java:116-143 | successful pre-generation has exactly max(0, N) files, that of tick i+1 at index i |
| Generation.DnIdInjective | src/main/java/com/example/outages/CampaignService.java:171 | different node numbers give different `dn-%05d` ids |
| Generation.DnIdParts | src/main/java/com/example/outages/CampaignService.java:171 | a node id is `dn-` followed by at least five digits denoting the node's number |
| Generation.DnIdExample | src/main/java/com/example/outages/CampaignService.java:171 | node 7 is `dn-00007` |
| Generation.NodeListFacts | src/main/java/com/example/outages/CampaignService.java:167-176 | the node list has `nodesThisFile` entries, each a copy of the template with its own id and the common customer count, ids pairwise distinct |
| Generation.GeneratedPayloadFacts | src/main/java/com/example/outages/CampaignService.java:162-185 | a generated document keeps the sample's other keys; its outage is the sample's outage with `id`, `generatedAt` and `scheduledFor` set; it has `nodesThisFile` clones of the template; and `_meta` records tick, plan and counts |
| Generation.MinimalSampleIsUsable | src/main/java/com/example/outages/CampaignService.java:150-151 | a sample without `outage` and `deliveryNodes` uses the empty defaults |
| Generation.FileNameInjective | src/main/java/com/example/outages/CampaignService.java:132 | `%03d-<id>.json` names of different ticks differ, whatever the ids |
| Generation.FileNameParts | src/main/java/com/example/outages/CampaignService.java:132 | a file name reads back as at least three digits denoting the tick, a dash, the outage id and `.json` |
| Generation.OutageIdParts | src/main/java/com/example/outages/CampaignService.java:129-130 | the outage id is `outage-` followed by the formatted instant `now + period × (t − 1)` (the product wrapping as a `long`), and there is none exactly when that instant cannot be formatted |
| Generation.TickNamesDistinct | src/main/java/com/example/outages/CampaignService.java:129-132 | two ticks of one run get different file names |
| Generation.NamedFilesDistinct | src/main/java/com/example/outages/CampaignService.java:129-132 | files each named after their own tick and that tick's outage id have pairwise distinct names |
| Generation.PregeneratedNamesDistinct | src/main/java/com/example/outages/CampaignService.java:126-139 | the files of one run have pairwise distinct names, so no tick overwrites another's file |
| Generation.OutageIdsDistinct | src/main/java/com/example/outages/CampaignService.java:129-130 | two ticks of a campaign get different outage ids when the formatter is injective, the period is positive and the later tick's offset fits a `long` |
| Generation.RecordId | src/main/java/com/example/outages/CampaignService.java:162-165 | the outage record id a document carries, exactly when it has an `outage` object with an `id` |
| Generation.PlannedRecordId | src/main/java/com/example/outages/CampaignService.java:129-132 | the file of tick `t` records the outage id of tick `t` |
| Generation.PregeneratedRecordIds | src/main/java/com/example/outages/CampaignService.java:126-139 | file `t − 1` of a run records the outage id of tick `t`, for every tick |
| Generation.TickRecordIdsDistinct | src/main/java/com/example/outages/CampaignService.java:129-130 | files that record the ids of ticks 1, 2, … in order record pairwise distinct ids |
| Generation.PregeneratedRecordIdsDistinct | src/main/java/com/example/outages/CampaignService.java:126-139 | every file of one run records an outage id, and no two files record the same one |
| Delivery.RequestHeaders | src/main/java/com/example/outages/CampaignService.java:206-213 | `Content-Type: application/json` comes first, and at most one more header follows, exactly when an authentication header is chosen |
| Delivery.DefaultAuth | src/main/java/com/example/outages/config/TargetProperties.java:10-13 | the default auth object: type `bearer`, no token, header name `X-API-Key`, no header value |
| Delivery.AuthType | src/main/java/com/example/outages/CampaignService.java:208 | the configured type of a present auth object, and `none` for a missing object or a missing type |
| Delivery.AuthHeader | src/main/java/com/example/outages/CampaignService.java:209-213 | an extra header is chosen only for a present auth object: `Authorization: Bearer <token>` when the type is `bearer` in any case and a token is set; otherwise only with type `header` and a header name, that header with the configured value; no header when neither condition holds |
| Delivery.PostRequest | src/main/java/com/example/outages/CampaignService.java:205-216 | the request goes to the endpoint with the document as its body, `Content-Type: application/json` first, and a second header exactly when an authentication header is chosen, that header |
| Delivery.BearerAuthSendsToken | src/main/java/com/example/outages/CampaignService.java:209-210 | a `bearer` type in any case, with a token, sends `Authorization: Bearer <token>` |
| Delivery.CustomHeaderAuth | src/main/java/com/example/outages/CampaignService.java:211-212 | a `header` type in any case, with a header name, sends that header with the configured value, even a null one |
| Delivery.BearerWithoutTokenSendsNothing | src/main/java/com/example/outages/CampaignService.java:209-213 | a bearer type without a token adds no header, even when a header name is configured |
| Delivery.OtherSchemesSendNothing | src/main/java/com/example/outages/CampaignService.java:208-213 | any type other than bearer and header adds no header |
| Delivery.MissingAuthSendsNothing | src/main/java/com/example/outages/CampaignService.java:205-213 | a target with no auth object gets no auth header and sends `Content-Type` alone |
| Delivery.DefaultAuthSendsContentTypeOnly | src/main/java/com/example/outages/config/TargetProperties.java:10-13 | the default auth settings (bearer, no token) send `Content-Type` alone |
| Campaign.PlanOf | src/main/java/com/example/outages/CampaignService.java:82-87 | the checks pass exactly when endpoint, sample path and output directory are set and both durations parse, and the plan holds the parsed values |
| Campaign.CampaignService.constructor | src/main/java/com/example/outages/CampaignService.java:72-78 | a new service is stopped, has sent nothing, and has no start, end or files |
| Campaign.CampaignService.Start | src/main/java/com/example/outages/CampaignService.java:80-104 | the new state and the result are those of `Started`, and the invariant is kept |
| Campaign.CampaignService.Launch | src/main/java/com/example/outages/CampaignService.java:88-103 | the part after the parses: the new state and result are those of `Launched` |
| Campaign.CampaignService.Stop | src/main/java/com/example/outages/CampaignService.java:106-110 | the sender is cancelled, the campaign no longer runs, nothing else changes, and the new status is returned |
| Campaign.CampaignService.Tick | src/main/java/com/example/outages/CampaignService.java:190-202 | the new state and the request are those of `Ticked`, and the invariant is kept |
| Campaign.CampaignService.Status | src/main/java/com/example/outages/CampaignService.java:112-114 | the status shows the running flag, the success count, the planned ticks, the endpoint and both instants as they stand, and between calls the success count lies between 0 and the planned ticks |
| Campaign.StartKeepsInvariant | src/main/java/com/example/outages/CampaignService.java:80-104 | `start` keeps the invariant, successful or not |
| Campaign.LaunchKeepsInvariant | src/main/java/com/example/outages/CampaignService.java:88-103 | as does the part of `start` after the parses |
| Campaign.TickKeepsInvariant | src/main/java/com/example/outages/CampaignService.java:190-202 | a run of the sender keeps `sent <= idx <= |pregenFiles|` and the rest of the invariant |
| Campaign.StartWhileRunning | src/main/java/com/example/outages/CampaignService.java:81 | `start` while running returns the current status and changes nothing |
| Campaign.StartSucceeds | src/main/java/com/example/outages/CampaignService.java:86-103 | a successful start: sent reset to 0; start at now and end at now + duration; the planned ticks; exactly max(0, N) files, tick i+1's at index i; running even on a dry run; scheduled only when sending is enabled |
| Campaign.LaunchSucceeds | src/main/java/com/example/outages/CampaignService.java:88-103 | the same facts for the part of `start` after the parses |
| Campaign.StartFailureLeavesStopped | src/main/java/com/example/outages/CampaignService.java:82-93 | a failed start of a stopped campaign leaves it stopped with its old files; a failed check or parse changes nothing |
| Campaign.LaunchFailureLeavesStopped | src/main/java/com/example/outages/CampaignService.java:88-93 | the same for the part of `start` after the parses |
| Campaign.StopIdempotent | src/main/java/com/example/outages/CampaignService.java:106-110 | `stop` twice is `stop` once; it leaves the campaign not running and changes neither `sent` nor the cursor |
| Campaign.TickFacts | src/main/java/com/example/outages/CampaignService.java:192-199 | past the end or after the last file: stop and send nothing; otherwise post the next file, advance the cursor by exactly one, and count the post only when it succeeded |
| Campaign.StatusOf | src/main/java/com/example/outages/CampaignService.java:112-114 | the status of a state reports its running flag, success count, planned ticks and instants, and the configured endpoint |
| Campaign.SentNeverExceedsPlan | src/main/java/com/example/outages/CampaignService.java:112-114 | the reported sent count lies between 0 and the planned ticks |
| Campaign.RunCountsSuccesses | src/main/java/com/example/outages/CampaignService.java:192-199 | over any sequence of sender runs, the cursor advances once per post and `sent` by the number of successful posts only |
| Campaign.SuccessesAppend | src/main/java/com/example/outages/CampaignService.java:197 | successful posts of two stretches of runs add up |
| Campaign.DefaultSettingsPlan | src/main/java/com/example/outages/config/SchedulerProperties.java:7-8 | the default settings `"4h"` and `"10m"` pass the checks, give a usable interval and plan 24 ticks |

## Behaviour worth noting

The model follows the code in each of these cases:

- **No minimum tick count.** The code has no guard (`CampaignService.java:88`): a duration under one minute plans 0 ticks (`Planning.ShortCampaignPlansNothing`), and the campaign then starts with no files.
- **`sent` counts successes.** A failed `postPayload` throws past the increment at line 197 into the catch at line 199, after `idx` has already advanced at line 194. So `sent` counts successful posts, not attempts (`Campaign.TickFacts`, `Campaign.RunCountsSuccesses`).
- **A dry run reports running.** The code sets `running` unconditionally at line 94, whether or not a sender is scheduled (`Campaign.StartSucceeds`).
- **The endpoint is always required.** The code checks it on every `start` (line 82), including a dry run.
- **The ISO-8601 fallback never succeeds.** Every ISO-8601 duration ends in `d`, `h`, `m` or `s`, so a suffix branch takes it first and `Long.parseLong` rejects it (`Durations.IsoDurationsAreRejected`).
- **Partial campaigns.** A `start` that throws after line 88 leaves `totalPlanned`, `sent`, `startedAt` and possibly `endsAt` with their new values (`Campaign.Started`).
- **A file of `Integer.MAX_VALUE` nodes never finishes.** When `nodesThisFile` is `Integer.MAX_VALUE`, the test `i <= nodesThisFile` at line 169 is always true and `i++` wraps around, so the loop never ends and memory runs out first. For example, `avgNodesPerFile` = 2147483647 at r = 0.5 gives that count.
- **Node ids repeat across files.** The code numbers the nodes `dn-00001`, `dn-00002`, … in every file (line 171), so ids are unique within a file only, and it writes a single outage per file. `outagesThisFile` appears only in `_meta`.

## Left out

- JSON reading and writing by Jackson, and the deep copies at lines 148 and 170, are replaced by a `Json` tree. The document is an argument, `None` when the sample file cannot be read as JSON. Map key order and fractional numbers are not modelled. Writing the files and creating the output directory are assumed to succeed.
- A file's body is the document it holds. The sender's re-read of the file (line 195) is folded into `postOk`.
- `postPayload`'s WebClient call, its retry with backoff and `.block()` (lines 214-219) are library networking: their outcome is the boolean `postOk`. `Delivery.PostRequest` describes the request, not its transport.
- Concurrency is not modelled: `synchronized`, `volatile`, `AtomicInteger`, `TaskScheduler.scheduleAtFixedRate` and `ScheduledFuture.cancel`. Calls are sequential method calls, and a tick is a call to `Tick`.
- The ramp curve (lines 222-235) and `targetReach` (lines 154-155, 181) use floating-point `exp`. The ramp is an arbitrary function into `[0, 1]`, and `targetReach` is not part of `_meta` here.
- The source's ramp is not always in `[0, 1]`: it can be NaN, which `Intensity` excludes.
  - The default (sigmoid) shape with `a = 0` gives `s0 == s1`, so line 233 computes 0/0.
  - The exp shape with `k` above about 709.78 overflows `Math.expm1` to Infinity, so line 228 computes Infinity/Infinity at every tick where `k · x` is that large, the last tick included.
  - `Math.round(NaN)` is 0, so such a file has `nodesThisFile` 1 (line 160) and `customersAffected` 1 (line 172). That is outside the 30 to 130 that `Counts.CustomersAffected` states for an intensity in `[0, 1]`.
- Floating point elsewhere is exact rational arithmetic: the divisions in `outagesThisFile` and `totalPlanned`, and the products in `nodesThisFile` and `customersAffected`. `Math.round` is `floor(x + 0.5)` saturated to `long`. Double rounding is not modelled at all, and it can move a count by one even at ordinary sizes: with `r` the double nearest 0.015, `100 * (0.3 + r)` is 31.5 in doubles and rounds to 32 customers, where the exact value 31.499… gives 31.
- Generation.BuildNodes: for a count of `Integer.MAX_VALUE` it builds that many nodes and returns. Java's loop never ends for that count (see "Behaviour worth noting"); non-termination and running out of memory are not modelled.
- Generation.PregeneratedRecordIdsDistinct: takes as hypotheses that the outage-id formatter is injective, that the period is at least one second and that `period · (N − 1)` fits a `long`. Without them the ids can repeat: the `yyyy` pattern prints the year of era, so years 1 and 0 (1 BC) print alike; a period of 0 gives every tick the same instant; and a wrapped `long` offset can come back to an earlier instant.
  - The pattern `yyyy-MM-dd'T'HH-mm-ssXXX` writes the year of era without the era, so a stamp from before year 1 can repeat one from after it.
  - Past a `long` overflow at line 129, two ticks can be scheduled for the same instant.
- The clock is one reading, `now`, per `start`. The source reads it separately at lines 90, 129, 163 and 164.
  - The text of `OffsetDateTime.now(...).toString()` is a configured function of `now`.
  - So is the Phoenix time-zone formatting of the outage id. It returns `None` outside the range of `OffsetDateTime`.
- Campaign.Started: requires an interval of at least one whole minute whenever it parses (`IntervalUsable`), and so do `Campaign.CampaignService.Start` and the lemmas about `start`. This excludes two cases Java accepts. An interval of less than one whole minute either way (0 from `toMinutes`) makes the division at line 88 infinite or NaN, and the Java cast of those is not modelled. An interval of minus one minute or less gives a negative plan: `"-10m"` with `"4h"` plans ceil(240 / −10) = −24 ticks, so `preGenerateAll` produces no files and the campaign reports running; a dry run then succeeds, and with sending enabled the scheduler is handed a negative period, which it rejects with an exception.
- `Long.parseLong` is modelled on ASCII digits only; Java also accepts other Unicode decimal digits.
- `toLowerCase` and `equalsIgnoreCase` fold ASCII letters only, where Java folds every Unicode letter. No other letter folds to a digit, to a unit letter, or to a letter of `"bearer"` or `"header"`, so the results agree.
- Configuration strings are never `null` here: the duration, the interval and the members of the auth object in `Delivery.Auth` are given explicitly, except where the model uses `Option`. A `null` duration or interval (a `NullPointerException` in `trim`) is not modelled.
- `Duration.parse` is modelled only as far as which texts it accepts, which is all the proof of the unreachable fallback needs. The value an ISO-8601 duration denotes is not computed.
- The log calls (`log.info` at lines 99, 101 and 198, `log.error` at line 200) have no effect on the state and are left out.
- `cancel(false)` lets a sender run that is already under way finish. This is not modelled, because calls are sequential.
