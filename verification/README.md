# Tourist-safety identity ledger: a Dafny model

This project models the mock identity ledger of the tourist-safety dashboard
(`lib/blockchain-utils.js`) and the small pure helpers that the dashboard
pages build on top of it. The ledger works as follows:

- It issues `BC-` identity IDs. Each ID carries a base-36 time token, a random
  token and a checksum, and the checksum comes from a rolling 32-bit string hash.
- It stores identity records with a `0x` block hash.
- It grades a record's trust by the record's age.
- It appends account-recovery requests and multi-signature requests to their
  own lists.

The helpers modelled beside the ledger are:

- the dotted-key translation lookup and the language choice
  (`lib/language-context.jsx`);
- the safety and crowd classifiers and the overview counters of the heat map;
- the tourist search, badge, cluster and ID-abbreviation helpers of the
  official dashboard;
- the level colour, level icon and trust score of the identity-status panel.

Modules, one per file:

| file | module | models |
|---|---|---|
| strings.dfy | `Strings` | JavaScript `split`, `join`, `includes`, `slice` and ASCII case mapping |
| radix.dfy | `Radix` | `Number.prototype.toString(base)`, reading digits back, `padStart` |
| hash32.dfy | `Hash32` | the rolling hash `h = (h << 5) - h + c; h &= h` with ECMAScript ToInt32 |
| identifiers.dfy | `Identifiers` | checksum, user hash, block hash, ID generators, ID validator |
| ledger.dfy | `Ledger` | the three stored lists, registration, lookup, verification level, history, recovery, multi-signature |
| language.dfy | `Language` | `t`, `loadTranslations`, the saved-language guard, `changeLanguage` |
| wrappers.dfy | `Wrappers` | the optional value used for lookups and saved preferences |
| palette.dfy | `Palette` | badge variants and map colours shared by the pages |
| heatmap.dfy | `SafetyHeatmap` | safety colour and badge, crowd icon and badge, stars, counters |
| dashboard.dfy | `OfficialDashboard` | tourist search, severity and status badges, cluster style, ID abbreviation, section choice |
| status.dfy | `BlockchainStatus` | level colour and icon, trust score, loading with and without an ID |

How the model treats the source:

- **Storage.** Browser storage becomes an immutable `Store` value holding the
  three lists. Each operation returns the new store.
- **Clock.** Each operation takes one parameter, `now`, in integer
  milliseconds, and every clock reading the operation makes is that value.
  "## Left out" lists the readings this merges.
- **Randomness.** Each random token becomes a parameter. For the ledger's
  tokens, `IsRandomToken` describes what the source's random source can
  produce: up to six base-36 digits, possibly none.
- **Hash arithmetic.** The hash is modelled with unbounded integers. The
  32-bit wrap-around is written out as ECMAScript's ToInt32. `RollingHash`
  follows the source loop step by step, and `Hash32.RollingHashIsPolynomial`
  shows that it equals the base-31 polynomial of the character codes,
  wrapped once at the end.
- **Trust tiers.** The source divides the age by 3,600,000 in floating point
  and compares the quotient with 1 and 24. For an integer age this gives the
  same answer as comparing the age with 3,600,000 and 86,400,000 ms, so the
  model compares integers.

Some behaviour of the code is easy to misread, and the model states it as
written:

- **Multi-signature requests.** No function signs, approves, rejects or
  expires a request (lib/blockchain-utils.js:226-247). A request is only ever
  created as `"pending"` with no signatures. An empty verifier list is
  accepted and gives a threshold of 0 (:235).
- **Checksum length.** `generateChecksum` keeps the first *at most* four
  base-36 digits of the hash (:26), so a checksum can be shorter than four
  characters.
- **ID grammar.** The validator accepts exactly three segments after `BC-`
  (:33). Every enhanced ID carries four, so the validator rejects it
  (`Identifiers.EnhancedIdRejected`).

## Model

| member | source | states |
|---|---|---|
| Hash32.ToInt32 | lib/blockchain-utils.js:24 | `hash & hash` yields the one signed 32-bit integer that is congruent to its operand modulo 2^32 |
| Hash32.SourceStepIsMul31 | lib/blockchain-utils.js:23-24 | one loop step, `(h << 5) - h + c` followed by `& hash`, equals `31·h + c` wrapped to signed 32 bits |
| Hash32.RollingHash | lib/blockchain-utils.js:19-25 | the hash loop, a fold of the source step from 0, stays a signed 32-bit integer after every character; `RollingHashIsPolynomial` gives its value |
| Hash32.RollingHashIsPolynomial | lib/blockchain-utils.js:19-25 | the hash loop, a fold from 0, equals the base-31 polynomial of the character codes wrapped once to 32 bits; the checksum, block hash and user hash all use this fold |
| Hash32.AbsHash | lib/blockchain-utils.js:26 | `Math.abs(hash)` is at most 2^31 and is the magnitude of the wrapped polynomial |
| Radix.ToBase | lib/blockchain-utils.js:9 | `n.toString(base)` is a non-empty string of lower-case digits below the base, starts with `0` only for `"0"`, and reads back as `n` |
| Radix.ToBaseLength | lib/blockchain-utils.js:114 | a number below `base^k` prints in at most `k` digits |
| Radix.PadStart | lib/blockchain-utils.js:80 | `padStart` keeps the text as the suffix, fills the front with the pad character and reaches the requested width |
| Radix.FromBaseLeadingZeros | lib/blockchain-utils.js:80 | zero padding in front of a digit string does not change the number it denotes |
| Strings.Split | lib/language-context.jsx:60 | `split` yields at least one piece, no piece contains the separator, and joining the pieces gives the input back |
| Strings.SplitJoin | lib/blockchain-utils.js:13 | splitting a dash-join of dash-free segments gives the segments back |
| Strings.Includes | app/official-dashboard/page.jsx:168-169 | `includes` holds exactly when the query occurs at some position of the text |
| Strings.Upper | lib/blockchain-utils.js:13 | `toUpperCase` keeps the length and maps each character on its own: ASCII lower-case letters become capitals and everything else is unchanged; `UpperConcat` shows it distributes over concatenation, and `LowerUpper` shows `toLowerCase` undoes it on text without capitals |
| Strings.Lower | app/official-dashboard/page.jsx:168-169 | `toLowerCase` keeps the length and maps each character on its own: ASCII capitals become lower-case and everything else is unchanged |
| Strings.SliceFront | lib/blockchain-utils.js:26 | `substring(0, n)` and `slice(0, n)` give the prefix of length `min(len, n)`: the whole text when it is shorter |
| Strings.SliceBack | app/official-dashboard/page.jsx:258 | `slice(-n)` gives the suffix of length `min(len, n)`: the whole text when it is shorter |
| Identifiers.Checksum | lib/blockchain-utils.js:19-27 | the checksum is the first `min(4, n)` of the `n` base-36 digits of the absolute hash, so it has 1 to 4 digits and can be shorter than four |
| Identifiers.UserHash | lib/blockchain-utils.js:106-115 | the user hash is the whole base-36 text of the absolute hash of name+email+role+passport: it has 1 to 6 digits, so cutting at six never loses a digit, and it reads back as the hash |
| Identifiers.BlockHash | lib/blockchain-utils.js:72-81 | the block hash is `0x` plus 16 lower-case hex digits, the first eight of them `0`, and the digits read back as the absolute hash of id+name+email+role |
| Identifiers.ValidateBlockchainId | lib/blockchain-utils.js:32-35 | the validator accepts exactly the language of the regular expression, stated independently as `MatchesIdPattern`: `BC-` followed by three non-empty `[A-Z0-9]` segments joined by dashes |
| Identifiers.ValidIdHasNoLowerLetter | lib/blockchain-utils.js:33 | an accepted ID contains no lower-case letter, so an ID that was not upper-cased is rejected |
| Identifiers.GenerateBlockchainId | lib/blockchain-utils.js:8-14 | a generated ID starts with `BC-` and has no lower-case letter; `GeneratedIdParts`, `GeneratedIdIsValid` and `GeneratedIdRecheck` give its segments, validity and read-back |
| Identifiers.GenerateEnhancedBlockchainId | lib/blockchain-utils.js:94-101 | an enhanced ID starts with `BC-` and has no lower-case letter; `EnhancedIdParts` and `EnhancedIdRecheck` give its five segments, and `EnhancedIdRejected` shows the validator refuses it |
| Identifiers.RecoveryId | lib/blockchain-utils.js:219-221 | a recovery ID starts with `REC-` and is never a valid identity ID; `RecoveryIdParts` gives its segments |
| Identifiers.MultiSigId | lib/blockchain-utils.js:252-254 | a multi-signature ID starts with `MS-` and is never a valid identity ID; `MultiSigIdParts` gives its segments |
| Identifiers.GeneratedIdParts | lib/blockchain-utils.js:8-14 | a generated ID splits at its dashes into `BC`, the upper-cased time token, random token and checksum |
| Identifiers.GeneratedIdIsValid | lib/blockchain-utils.js:8-14 | an ID generated with a non-empty random token passes the validator |
| Identifiers.GeneratedIdRecheck | lib/blockchain-utils.js:8-14 | the time segment of a generated ID decodes to the clock reading of line 9, and the checksum segment equals the checksum recomputed from the lower-cased time and random segments |
| Identifiers.EmptyRandomIdRejected | lib/blockchain-utils.js:10-13 | an ID generated with an empty random token fails validation |
| Identifiers.EnhancedIdRejected | lib/blockchain-utils.js:94-101 | every enhanced ID has four segments after `BC-`, so the validator rejects it |
| Identifiers.EnhancedIdParts | lib/blockchain-utils.js:95-100 | an enhanced ID splits at its dashes into `BC` and the upper-cased time token, random token, user hash of the user and passport, and checksum over time + random + user hash |
| Identifiers.EnhancedIdRecheck | lib/blockchain-utils.js:95-100 | an enhanced ID has five segments; the time segment decodes to the clock reading of line 95, the fourth segment lower-cased is the user hash, and the last segment lower-cased is the checksum recomputed from the three before it |
| Identifiers.RecoveryIdParts | lib/blockchain-utils.js:219-221 | a recovery ID is `REC`, the base-36 time and the random token; its time decodes to the clock reading of line 220; it is never a valid identity ID |
| Identifiers.MultiSigIdParts | lib/blockchain-utils.js:252-254 | a multi-signature ID is `MS`, the base-36 time and the random token; its time decodes to the clock reading of line 253; it is never a valid identity ID |
| Ledger.RegisterOnBlockchain | lib/blockchain-utils.js:40-67 | registration always succeeds with the ID `generateBlockchainId` issues for the clock and token, marks the record confirmed, stamps it with `now` and its block hash, returns the record's own ID (valid for a non-empty random token), and appends exactly that record while the other two lists stay unchanged |
| Ledger.FirstIndexOf | lib/blockchain-utils.js:88 | `find` stops at the first record with the ID, or at the end when there is none |
| Ledger.GetBlockchainRecord | lib/blockchain-utils.js:86-89 | the lookup finds nothing exactly when no record has the ID, and otherwise returns the earliest record with it |
| Ledger.LevelForAge | lib/blockchain-utils.js:165-174 | age under 1 h gives level 1 "basic" ("Recently registered"), 1 h up to 24 h gives level 2 "verified" ("Identity verified"), and 24 h or more gives level 3 "trusted" ("Fully trusted identity") |
| Ledger.LevelMonotone | lib/blockchain-utils.js:168-174 | an older record never gets a lower level |
| Ledger.LevelBoundariesClosed | lib/blockchain-utils.js:168-172 | exactly 1 h is level 2 and exactly 24 h is level 3, while one millisecond less falls in the tier below |
| Ledger.GetVerificationLevel | lib/blockchain-utils.js:161-175 | the level is 0 ("unverified", no description) exactly when no record has the ID; otherwise it is the level for the first record's age |
| Ledger.VerificationMonotoneInTime | lib/blockchain-utils.js:161-175 | for a fixed store the level of an ID never drops as time passes |
| Ledger.GetBlockchainHistory | lib/blockchain-utils.js:120-149 | the history is empty exactly for an unknown ID; otherwise it is a confirmed registration entry at the record's time followed by a confirmed verification entry one hour before `now` |
| Ledger.HistoryIffVerified | lib/blockchain-utils.js:120-124 | an ID has a history exactly when its verification level is non-zero |
| Ledger.InitiateIdRecovery | lib/blockchain-utils.js:195-214 | a recovery request is pending, keeps the email and backup data, expires exactly 24 h after its creation, and is appended to the recovery list while the other lists stay unchanged |
| Ledger.RequiredSignatures | lib/blockchain-utils.js:235 | `Math.ceil(n / 2)` is the least count whose double reaches `n` |
| Ledger.RequiredSignaturesValues | lib/blockchain-utils.js:235 | the threshold is exactly half for an even count, half rounded up for an odd count, and never more than the number of verifiers |
| Ledger.CreateMultiSigVerification | lib/blockchain-utils.js:226-247 | a multi-signature request is pending with no signatures, needs `ceil(n/2)` signatures (0 for no verifiers), expires exactly 7 days after its creation, and is appended to its list while the other lists stay unchanged |
| Ledger.RunExtends | lib/blockchain-utils.js:57-60 | over any sequence of registrations, recovery requests and multi-signature requests, each stored list keeps its earlier entries as a prefix, and the store grows by one entry per operation; this covers the registration append shown here and the recovery and multi-signature appends at lines 208-211 and 241-244 |
| Ledger.LookupStable | lib/blockchain-utils.js:86-89 | once an ID is found, later operations never change which record the lookup returns |
| Ledger.RegisterThenLookup | lib/blockchain-utils.js:40-67 | a freshly registered ID is found at once, at the level for age 0; if the ID already existed, the older record still wins |
| Ledger.RegistrationLifecycle | lib/blockchain-utils.js:161-175 | a user registered in an empty store reads as basic after 30 minutes, verified after 2 hours and trusted after 48 hours |
| Language.Translate | lib/language-context.jsx:59-72 | `t(key)` returns the value reached by following the dot-separated segments through nested tables when that value is truthy, and the key itself when a segment is missing, a non-table is met, or the final value is falsy |
| Language.Resolve | lib/language-context.jsx:63-69 | the empty path resolves to the table itself, and a non-empty path resolves only through a table holding its first key; `Translate` is proved to follow it |
| Language.ActiveTable | lib/language-context.jsx:37-43 | the active table is Hindi exactly when the code is `hi` and the Hindi table is truthy; every other case, a code without a table or a falsy selected table included, gives English |
| Language.InitialLanguage | lib/language-context.jsx:23-31 | the start-up language is the saved preference when it names a truthy table, and `en` otherwise: a code other than `en` is adopted only from the saved preference and only with a truthy table |
| Language.ChangeLanguage | lib/language-context.jsx:54-57 | changing language sets the current language and the saved preference to exactly the given code |
| Language.ChangeSurvivesReload | lib/language-context.jsx:23-57 | after a change, reloading from the saved preference shows the same table as before the reload, and an unknown code shows English |
| SafetyHeatmap.SafetyColor | components/tourist-sections/safety-heatmap-section.jsx:173-178 | green for scores of 90 and more, blue for 80 to 89, yellow for 70 to 79 and red below 70; each score gets exactly one colour |
| SafetyHeatmap.SafetyColorMonotone | components/tourist-sections/safety-heatmap-section.jsx:173-178 | a higher score never gets a less safe colour |
| SafetyHeatmap.SafetyBadge | components/tourist-sections/safety-heatmap-section.jsx:180-188 | very-safe, safe, moderate and caution get default, secondary, outline and destructive; any other category gets outline |
| SafetyHeatmap.CrowdIconFor | components/tourist-sections/safety-heatmap-section.jsx:190-201 | high, medium and low get the red, yellow and green circle, and only those levels do; anything else gets the white circle |
| SafetyHeatmap.CrowdBadge | components/tourist-sections/safety-heatmap-section.jsx:203-214 | high, medium and low get destructive, outline and default, and only those levels do; anything else gets secondary |
| SafetyHeatmap.CrowdIconAgreesWithBadge | components/tourist-sections/safety-heatmap-section.jsx:190-214 | the white icon and the secondary badge go to the same crowd levels |
| SafetyHeatmap.FilledStars | components/tourist-sections/safety-heatmap-section.jsx:368-376 | the rating never fills more than five stars; `FilledStarsFormula` gives the exact count |
| SafetyHeatmap.FilledAmong | components/tourist-sections/safety-heatmap-section.jsx:368-376 | of the first `n` stars, those with index below `floor(score/20)` are filled, so at most `n`; `FilledAmongFormula` gives the count `min(n, max(0, floor(score/20)))` |
| SafetyHeatmap.FilledStarsFormula | components/tourist-sections/safety-heatmap-section.jsx:368-376 | the number of filled stars is `floor(score/20)` clamped to 0..5, so a score in 0..100 fills `floor(score/20)` of the five stars |
| SafetyHeatmap.CountWhere | components/tourist-sections/safety-heatmap-section.jsx:482-486 | `filter(p).length` never exceeds the number of locations; `CountWhereAgree` shows two filters that agree on every location give the same count |
| SafetyHeatmap.SafeZones | components/tourist-sections/safety-heatmap-section.jsx:482-486 | the safe-zone count never exceeds the number of locations and equals the number of locations the map shows green or blue |
| SafetyHeatmap.CautionAreas | components/tourist-sections/safety-heatmap-section.jsx:488-492 | the caution-area count never exceeds the number of locations and equals the number of locations the map shows red |
| SafetyHeatmap.CountersDisjoint | components/tourist-sections/safety-heatmap-section.jsx:483-491 | safe zones plus caution areas never exceed the number of locations |
| SafetyHeatmap.TotalIncidents | components/tourist-sections/safety-heatmap-section.jsx:494-498 | when no count is negative the incident total is not negative; `TotalIncidentsConcat` and `TotalIncidentsBounds` relate it to the single counts |
| SafetyHeatmap.TotalIncidentsConcat | components/tourist-sections/safety-heatmap-section.jsx:495-497 | the incident total over two joined lists is the sum of their totals, so appending a location adds its count |
| SafetyHeatmap.TotalIncidentsBounds | components/tourist-sections/safety-heatmap-section.jsx:495-497 | when no count is negative, the total is at least every location's count |
| OfficialDashboard.FilterTourists | app/official-dashboard/page.jsx:166-170 | the search keeps exactly the tourists whose lower-cased name or ID contains the lower-cased query, and never adds any |
| OfficialDashboard.MatchesQuery | app/official-dashboard/page.jsx:166-170 | a tourist matches exactly when the lower-cased query occurs at some position of the lower-cased name or ID, and the empty query matches everyone |
| OfficialDashboard.FilterConcat | app/official-dashboard/page.jsx:166-170 | filtering a joined list equals joining the filtered parts, so input order is kept |
| OfficialDashboard.EmptyQueryKeepsAll | app/official-dashboard/page.jsx:166-170 | the empty query keeps every tourist, in order |
| OfficialDashboard.QueryCaseInsensitive | app/official-dashboard/page.jsx:168-169 | upper-casing the query does not change which tourists match |
| OfficialDashboard.SeverityBadge | app/official-dashboard/page.jsx:236-242 | high gives destructive, medium gives default, and every other severity gives secondary |
| OfficialDashboard.StatusBadge | app/official-dashboard/page.jsx:414 | an active tourist gets the default badge and any other status gets destructive |
| OfficialDashboard.ClusterStyleFor | app/official-dashboard/page.jsx:307-310 | a cluster is drawn with radius twice its count, red above 200, yellow from 151 to 200 and green up to 150, with fill and stroke always the same colour |
| OfficialDashboard.ClusterStyleMonotone | app/official-dashboard/page.jsx:307-310 | a bigger cluster is drawn with no smaller radius and never in a calmer colour |
| OfficialDashboard.AbbreviateId | app/official-dashboard/page.jsx:258 | the abbreviation is the first `min(n,10)` characters, then `...`, then the last `min(n,8)` characters of the ID |
| OfficialDashboard.ShortIdRecoverable | app/official-dashboard/page.jsx:410 | an ID of 10 to 18 characters can be rebuilt from its abbreviation |
| OfficialDashboard.ActiveSection | app/official-dashboard/page.jsx:551-562 | lookup and efir show their own sections, and every other name shows the dashboard |
| BlockchainStatus.VerificationColor | components/blockchain-status.jsx:39-50 | level 1 is yellow, 2 blue and 3 green, and every other level, 0 included, is gray |
| BlockchainStatus.VerificationIcon | components/blockchain-status.jsx:52-63 | level 1 shows a clock, 2 a check circle and 3 a shield, and every other level shows the warning triangle |
| BlockchainStatus.ColorAgreesWithIcon | components/blockchain-status.jsx:39-63 | for a ledger level the badge is gray exactly when the icon is the warning triangle, which is exactly when the ID is unverified |
| BlockchainStatus.TrustScore | components/blockchain-status.jsx:110 | the score of a level in 0..3 lies in 0..100 and is 0 exactly for level 0; `TrustScoreRange` gives its values |
| BlockchainStatus.TrustScoreRange | components/blockchain-status.jsx:110-112 | the trust score of any ledger level is 0, 33, 66 or 99 and never passes 100 |
| BlockchainStatus.TrustScoreMonotoneInTime | components/blockchain-status.jsx:110 | the trust score shown for an ID never drops as time passes |
| BlockchainStatus.LoadBlockchainData | components/blockchain-status.jsx:21-37 | without an ID (missing or empty) the panel shows the placeholder and queries nothing; otherwise it shows the ledger's verification level and the ledger's history for that ID, and the history is empty exactly at level 0 |

## Left out

- Browser storage, `JSON.parse`/`JSON.stringify` and the ISO date strings are
  not modelled. Stored timestamps are integer milliseconds, and the three
  lists live in the `Store` value.
- Clock: the source reads the clock several times within one operation, and
  the model merges all of those readings into the single parameter `now`.
  The readings are, all in lib/blockchain-utils.js:
  - registration: line 9, for the ID's time token, and line 42, for the
    record timestamp;
  - a recovery request: line 220, for the ID, line 197, for the timestamp,
    and line 205, for `expiresAt`;
  - a multi-signature request: line 253, for the ID, line 228, for the
    timestamp, and line 238, for `expiresAt`;
  - loading the status panel: line 165, in `getVerificationLevel`, and
    line 140, in `getBlockchainHistory`.

  In the source these readings can differ by a few milliseconds. The time
  token of an ID can then differ from the stored timestamp, and
  `expiresAt - timestamp` can exceed the 24-hour or 7-day window. The panel's
  level and history can also use slightly different instants. In the model
  every reading is the same instant. So "decodes to the issuing instant"
  means the ID's own reading, which the model identifies with the stored
  timestamp.
- Randomness: the float-to-base-36 formatting of `Math.random()` is not
  modelled. Random tokens, history transaction IDs and block heights are
  parameters.
- `getBlockchainNetworkStatus`, `generateTransactionId` and the network card
  of the status panel are not modelled. They only format random numbers and
  constants.
- Nothing in the source signs a multi-signature request, approves it, expires
  a request or checks a new ID for a collision, so none of this is modelled.
- Character codes are taken as `char` values. For text outside the Basic
  Multilingual Plane, JavaScript's `charCodeAt` sees two UTF-16 code units
  where the model sees one character.
- Case mapping covers ASCII letters only. Full Unicode `toLowerCase` and
  `toUpperCase` are not modelled.
- The JavaScript `in` operator and object lookups also see prototype-chain
  keys such as `"toString"`. The model treats the translation tables, the
  badge table and `allTranslations` as plain maps without them.
- Translation values are text, integers, booleans, `null` and nested tables.
  JSON arrays, non-integer numbers and `NaN` are not modelled.
- `t` is modelled on the already-selected table. The React state and effect
  machinery around it is not modelled.
- The average-safety figure uses `Math.round` over a floating-point division
  (components/tourist-sections/safety-heatmap-section.jsx:474) and is not
  modelled. Safety scores and incident counts are integers.
- All rendering, maps, geolocation, the chat assistant, forms, navigation,
  redirects and the recovery form's delay are not modelled. The contents of
  the translation JSON files and of the location database are inputs.
- `loadBlockchainData`'s one-second delay and its refreshing flag are not
  modelled.
