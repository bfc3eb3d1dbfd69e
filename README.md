# MindShield-AI: a Dafny model of the scan routes and the dashboard logic

MindShield-AI is a Next.js security dashboard. It has three scanners and a chat
assistant.

- **Phishing URL.** A keyword heuristic, with an OpenAI explanation.
- **IP reputation.** The VirusTotal `malicious` count, with an OpenAI explanation.
- **E-mail breach lookup.** BreachDirectory via RapidAPI, with an OpenAI summary.
- **Chat assistant.** Relays the user's message to the model.

Each scanner has its own page, and the main dashboard runs all three. The client
turns the loosely typed answers into a score, a colour, a risk level, a history
with charts, and cards with badges.

This project models that logic in Dafny and proves what it promises.

- **JavaScript values** (`Js`). Values are modelled as a datatype. The operators
  the code relies on are written out:
  - truthiness;
  - `||` versus `??`;
  - property reads on non-objects;
  - object spread;
  - `.length > 0`;
  - the `> 0` comparison, with `Number()` on integers, signed decimal digit
    strings, `null`, booleans and arrays of at most one element.
- **String built-ins** (`Text`): `toLowerCase`, `startsWith`, `includes`, `trim`,
  and the decimal rendering of a number.
- **Each `POST` handler.** It is a pure function from the request body, the
  configured keys and the collaborators' outcomes to a 400, 500 or 200 response.
  The collaborators are the VirusTotal or BreachDirectory lookup and the chat
  completion.
  - `PhishingRoute`, `IpRoute`, `DataLeakRoute`, `ChatRoute`.
  - The data-leak route keeps its `let`/`try` block as a method.
- **Client components.**
  - The scanner pages, the dashboard, the `ResultCard` toggle and the chat widget
    are classes. Their methods update the same state the React hooks do, in the
    same order.
  - The score chain, the colour rule, `RiskMeter`, `Analytics`, the badge rule and
    the leak lists are functions.
- **End-to-end lemmas.** These connect the halves: the answer a route gives, as a
  page, the dashboard or the chat widget presents it.

The routes return only `isSuspicious`, `maliciousCount` or `breached`. On the
client, `finalScore`, `riskScore`, `riskLevel` and `color` are only *read*, and
as optional fields. This model follows the code.

Two consequences of the code that the proofs make explicit:
- `RiskMeter` reads `riskScore` before `finalScore`, the reverse of the pages'
  order. This is invisible on a page's stored result, because the page writes its
  own score into `riskScore` (`RiskMeter.MeterAgreesWithPage`).
- The dashboard's analytics classify an entry by `riskScore` or `isRisky`. No
  route produces either field, so every entry the dashboard records counts as
  safe, even one the dashboard paints red (`Dashboard.RouteEntriesCountSafe`).

## Model

| member | source | states |
|---|---|---|
| Text.IncludesIff | src/app/api/analyze/phishing/route.ts:27 | `includes` scanning start positions holds exactly when some window of the string equals the word |
| Text.LowerOfUpper | src/app/api/analyze/phishing/route.ts:27 | lower-casing forgets the case a string was written in, for ASCII text |
| Text.TrimEmptyIff | src/app/dashboard/phishing/page.tsx:102 | `trim()` is empty exactly when every character is JavaScript white space |
| Text.TrimPadded | src/app/dashboard/phishing/page.tsx:102 | `trim()` removes exactly the white space around a string that neither starts nor ends with white space |
| Text.DigitsRoundTrip | src/components/Analytics.tsx:31 | the decimal rendering of a number reads back as that number |
| Text.NatToStringInjective | src/components/Analytics.tsx:31 | distinct numbers render as distinct digit strings |
| Js.OrCoalesceDiffer | src/app/api/analyze/ip/route.ts:44-46 | `||` and `??` agree except on falsy values that are not null or undefined, where `||` falls back and `??` does not |
| Js.PositiveIsTruthy | src/app/dashboard/ip/page.tsx:41 | a value that compares greater than 0 is truthy |
| Js.NumberOfDecimal | src/app/dashboard/ip/page.tsx:41 | `Number()` reads every rendered natural number back, bare or with a `+` or `-` sign, whatever white space surrounds it, and a blank string as 0 |
| Js.NaNStrings | src/app/dashboard/ip/page.tsx:41 | fractions, exponents, hex, `Infinity`, a lone or doubled sign and inner white space are NaN in the model |
| Js.PaddingIgnored | src/app/dashboard/ip/page.tsx:41 | white space around a number's text does not change what `Number()` gives |
| Js.PositiveExamples | src/app/dashboard/ip/page.tsx:41 | "+3", [5], ["2"] and true compare greater than 0; "-3", [], [1, 2], null and an object do not |
| Http.OrText | src/app/api/analyze/phishing/route.ts:63-65 | the text is JavaScript's `content || fallback` on the optional chain's value, which is null when the answer has no content |
| Http.CoalesceText | src/app/api/analyze/ip/route.ts:81-83 | the text is JavaScript's `content ?? fallback` on the optional chain's value, which is null when the answer has no content |
| Http.FallbackDifference | src/app/api/analyze/ip/route.ts:81-83 | on empty content `||` gives the fallback and `??` gives "" |
| Http.Deliver | src/app/dashboard/phishing/page.tsx:31 | axios delivers exactly for status 200, and what it delivers is the response's JSON body; any other status rejects |
| Scan.TypeNamesDistinct | src/app/dashboard/page.tsx:44 | the three `type` tags are distinct |
| Scan.ParseColor | src/app/dashboard/phishing/page.tsx:46-47 | a value names a colour exactly when it is one of the four colour strings |
| PhishingRoute.ValidUrlIff | src/app/api/analyze/phishing/route.ts:17-22 | a URL is accepted exactly when it is a non-empty string beginning with the case-sensitive "http" |
| PhishingRoute.SomeIncludedIff | src/app/api/analyze/phishing/route.ts:26-28 | `some(p => s.includes(p))` holds exactly when one of the words occurs in the string |
| PhishingRoute.IsSuspiciousIff | src/app/api/analyze/phishing/route.ts:25-28 | a URL is suspicious exactly when one of login, verify, bank, account, free, update occurs in its lower-cased form |
| PhishingRoute.SuspicionIgnoresCase | src/app/api/analyze/phishing/route.ts:27 | the verdict does not change when the URL is lower- or upper-cased, for ASCII text |
| PhishingRoute.SuspiciousExample | src/app/api/analyze/phishing/route.ts:25-28 | "http://Bank" is suspicious |
| PhishingRoute.SafeExample | src/app/api/analyze/phishing/route.ts:25-28 | "https://example.com" is not suspicious |
| PhishingRoute.InvalidUrlRejectedFirst | src/app/api/analyze/phishing/route.ts:17-22 | an invalid URL is a 400 "Invalid URL provided." whatever the model configuration and answer |
| PhishingRoute.VerdictIndependentOfAi | src/app/api/analyze/phishing/route.ts:26-42 | every 200 echoes the URL and carries the same verdict, with or without a model |
| PhishingRoute.MissingAiDegrades | src/app/api/analyze/phishing/route.ts:31-42 | without a model a valid URL is a 200 with the fixed unavailable text |
| PhishingRoute.EmptyExplanationReplaced | src/app/api/analyze/phishing/route.ts:63-70 | an absent or empty model answer becomes "Could not generate AI explanation." |
| PhishingRoute.ServerErrorOnlyWhenThrown | src/app/api/analyze/phishing/route.ts:71-78 | a 500 always carries "Failed to analyze URL.", and arises only from a body that cannot be destructured or a model call that throws |
| PhishingRoute.ThrownIsServerError | src/app/api/analyze/phishing/route.ts:13-78 | an unparseable body, a JSON null body, and a throwing model call for a valid URL each give the 500 "Failed to analyze URL." |
| IpRoute.InvalidIpRejectedFirst | src/app/api/analyze/ip/route.ts:17-25 | an empty or non-string ip is a 400 before the key is checked |
| IpRoute.MissingKeyRejected | src/app/api/analyze/ip/route.ts:25-32 | a valid ip without a VirusTotal key is a 500 with the key message |
| IpRoute.MaliciousCountDefault | src/app/api/analyze/ip/route.ts:44-46 | the count is the reported `last_analysis_stats.malicious`, or 0 when that is null or undefined |
| IpRoute.FailedLookupIsError | src/app/api/analyze/ip/route.ts:35-42 | a lookup that throws is a 500 "Failed to check IP." |
| IpRoute.MissingAiDegrades | src/app/api/analyze/ip/route.ts:49-60 | without a model the 200 carries the count and the fixed unavailable text |
| IpRoute.ExplanationCoalesces | src/app/api/analyze/ip/route.ts:81-83 | an empty model answer is kept and only an absent one is replaced |
| IpRoute.SuccessCarriesCount | src/app/api/analyze/ip/route.ts:85-92 | every 200 echoes the ip and carries the lookup's count |
| DataLeakRoute.LookupBreaches | src/app/api/analyze/dataleak/route.ts:36-61 | the breaches are the lookup's result when `success` and `result` are truthy, else []; `breached` says whether they have entries |
| DataLeakRoute.NormaliseAll | src/app/api/analyze/dataleak/route.ts:113-118 | one normalised entry per breach |
| DataLeakRoute.InvalidEmailRejectedFirst | src/app/api/analyze/dataleak/route.ts:17-22 | a missing or non-string email, or one without "@", is a 400 whatever the configuration |
| DataLeakRoute.MissingKeyRejected | src/app/api/analyze/dataleak/route.ts:25-33 | a valid email without a RapidAPI key is a 500 with the key message |
| DataLeakRoute.BreachedMatchesLeaks | src/app/api/analyze/dataleak/route.ts:64-121 | on every 200 `breached` says whether the breaches have entries; without a model `leaks` is the raw value, the summary is the "missing OpenAI API Key" text and there is no note; with one `leaks` is the normalised list of the breaches and the source note is set |
| DataLeakRoute.FailedLookupDegrades | src/app/api/analyze/dataleak/route.ts:52-61 | a failed or empty lookup still gives a 200 with no breaches |
| DataLeakRoute.NormaliseDefaults | src/app/api/analyze/dataleak/route.ts:113-118 | each entry keeps its own truthy fields and defaults the rest: "Unknown Source", "N/A", "Unknown", ["Email", "Password"] |
| DataLeakRoute.ExamplesArePrefix | src/app/api/analyze/dataleak/route.ts:90-93 | the prompt names at most the first three breaches, by their normalised names |
| DataLeakRoute.EmptySummaryReplaced | src/app/api/analyze/dataleak/route.ts:105-107 | an absent or empty summary becomes "AI summary unavailable." |
| DataLeakRoute.ServerErrors | src/app/api/analyze/dataleak/route.ts:124-130 | a 500 is the key message exactly for a valid email without a key, and otherwise "Failed to check data leak." |
| ChatRoute.InvalidMessageRejectedFirst | src/app/api/chat/route.ts:14-22 | a missing, empty or non-string message, or a JSON null body, is a 400 before the key is checked |
| ChatRoute.MissingKeyRejected | src/app/api/chat/route.ts:24-30 | a valid message without an OpenAI key is a 500 "Server missing AI configuration." |
| ChatRoute.ReplyNeverEmpty | src/app/api/chat/route.ts:46-50 | every 200 reply is non-empty: the model's text, or the fixed text when it is absent or empty |
| ChatRoute.ServerErrors | src/app/api/chat/route.ts:24-57 | a 500 carries either "Failed to process chat request." or "Server missing AI configuration.", the first exactly when the body did not parse or the model call threw with the key present |
| ChatRoute.ThrownIsServerError | src/app/api/chat/route.ts:12-57 | an unparseable body, and a throwing model call for a valid message with the key present, each give the 500 "Failed to process chat request." |
| ScannerPages.ScannerPage.FinishScan | src/app/dashboard/phishing/page.tsx:31-70 | the stored result and background after a request settles, with loading cleared |
| ScannerPages.ScannerPage.HandleScan | src/app/dashboard/phishing/page.tsx:25-71 | a whole scan: the result, the background, loading false and the input untouched |
| ScannerPages.ScanDisabledIff | src/app/dashboard/phishing/page.tsx:102 | the button is disabled exactly while loading or when the input is all white space |
| ScannerPages.PalettesAgree | src/app/dashboard/dataleak/page.tsx:46-48 | each page's colour list accepts exactly the four colour names |
| ScannerPages.ColorRule | src/app/dashboard/phishing/page.tsx:45-52 | the answer's own colour when it names one, else red from 70, purple from 35, green below |
| ScannerPages.DefaultColors | src/app/dashboard/dataleak/page.tsx:36-53 | with no numeric score or colour, a flagged answer is red (70 or 75) and an unflagged one green (20) |
| ScannerPages.ScorePriority | src/app/dashboard/ip/page.tsx:36-43 | `finalScore` wins over `riskScore`, which wins over the page's own signal |
| ScannerPages.ScoredKeepsFields | src/app/dashboard/ip/page.tsx:57-61 | the stored result keeps every field of the answer and sets `riskScore` and `riskColor` |
| ScannerPages.ResultColorMatchesBackground | src/app/dashboard/dataleak/page.tsx:55-68 | on success the stored `riskColor` is the background; a failure stores 70 and red and keeps the start colour |
| ScannerPages.PhishingPageVerdict | src/app/dashboard/phishing/page.tsx:35-52 | end to end, a 200 from the phishing route shows 70 and red for a suspicious URL, 20 and green otherwise |
| ScannerPages.PhishingReportShown | src/app/dashboard/phishing/page.tsx:35-52 | a delivered phishing report is shown red with 70 when suspicious and green with 20 otherwise |
| ScannerPages.IpPageVerdict | src/app/dashboard/ip/page.tsx:36-53 | end to end, a 200 from the IP route shows 70 and red exactly when the count compares greater than 0 |
| ScannerPages.DataLeakPageVerdict | src/app/dashboard/dataleak/page.tsx:36-53 | end to end, a 200 from the data-leak route shows 75 and red exactly when breaches were found |
| RiskMeter.Percent | src/components/RiskMeter.tsx:33 | the percentage lies in 0..100, equals the raw score when in range, and clamps it otherwise |
| RiskMeter.BucketIff | src/components/RiskMeter.tsx:38 | High exactly from 70, Medium exactly from 35 below 70, Low below 35 |
| RiskMeter.BucketMonotone | src/components/RiskMeter.tsx:38 | a higher percentage never gives a lower level |
| RiskMeter.SuppliedLevelWins | src/components/RiskMeter.tsx:36-37 | a supplied `riskLevel` is the level shown, whatever the score |
| RiskMeter.ReversedPriority | src/components/RiskMeter.tsx:20-31 | the meter takes `riskScore` where the pages take `finalScore` |
| RiskMeter.LevelMatchesPageColor | src/components/RiskMeter.tsx:36-62 | for the same score the level's colour is the pages' threshold colour |
| RiskMeter.MeterAgreesWithPage | src/components/RiskMeter.tsx:20-62 | on a page's stored result the meter reads the page's score, and without overrides shows the page's colour |
| Analytics.SafeCount | src/components/Analytics.tsx:17-20 | the safe count is at most the number of scans |
| Analytics.PartitionCounts | src/components/Analytics.tsx:15-22 | both counts are non-negative, sum to the number of scans, and the risky count is the number of unsafe entries |
| Analytics.SafeCountAppend | src/components/Analytics.tsx:17-20 | adding an entry raises the safe count by one exactly when the entry is safe |
| Analytics.PieData | src/components/Analytics.tsx:15-27 | the Safe slice and then the Risky slice, both non-negative, together covering every scan once, the Risky one counting exactly the entries that are not safe |
| Analytics.LineData | src/components/Analytics.tsx:30-37 | one point per entry |
| Analytics.LinePoints | src/components/Analytics.tsx:30-37 | point i carries the entry's score and the label "#" followed by i+1 |
| Analytics.LabelsDistinct | src/components/Analytics.tsx:31 | no two points share a label |
| Analytics.SafeIffLowPoint | src/components/Analytics.tsx:17-37 | an entry is counted safe exactly when its line point lies below 40 |
| Analytics.CategoryCount | src/components/Analytics.tsx:40-44 | a bar counts at most the number of scans |
| Analytics.CategoryData | src/components/Analytics.tsx:40-44 | three bars named Phishing, IP Check and Data Leak, each counting the entries of its type, summing to the typed entries and so to at most the number of scans |
| Analytics.BarsSum | src/components/Analytics.tsx:40-44 | the bars sum to the number of typed entries, at most the number of scans, and exactly that when every entry has one of the three types |
| Analytics.CategoryAppend | src/components/Analytics.tsx:40-44 | adding an entry raises its own bar by one and no other |
| Analytics.BarAppend | src/components/Analytics.tsx:40-44 | adding an entry raises the drawn bar of its type by one and leaves the other bars alone |
| ResultCard.BadgePriority | src/components/ResultCard.tsx:42-49 | each badge colour is given exactly when its word occurs in the lower-cased label and no word of higher priority does |
| ResultCard.BadgeIgnoresCase | src/components/ResultCard.tsx:43 | the label's letter case does not matter, for ASCII text |
| ResultCard.PasswordBeatsEmail | src/components/ResultCard.tsx:44-45 | "Email Password" is red |
| ResultCard.ShippingIsPurple | src/components/ResultCard.tsx:47 | "Shipping" is purple |
| ResultCard.Badges | src/components/ResultCard.tsx:110-124 | for a list of data classes, badge i is the colour of class i (none for a non-string class); no badges for anything else |
| ResultCard.DisplayedLeaks | src/components/ResultCard.tsx:96 | at most five lines |
| ResultCard.DisplayedLeaksAreFirstFive | src/components/ResultCard.tsx:96-108 | the first five leaks in order, each field its own truthy value or "Unknown Source", "unknown.com", "Date Unknown" |
| ResultCard.VisibleIff | src/components/ResultCard.tsx:70-85 | details show exactly when the card is open and the toggle is on screen |
| ResultCard.Card.Click | src/components/ResultCard.tsx:70-77 | a click flips `open` when the toggle is shown and does nothing otherwise |
| Dashboard.Page.FinishAnalyze | src/app/dashboard/page.tsx:44-52 | success stores the tagged entry and appends it; failure stores the error record; loading and the active scan are cleared |
| Dashboard.Page.ApplyEffect | src/app/dashboard/page.tsx:56-62 | the background after the effect on `[result, loading]` |
| Dashboard.Page.HandleAnalyze | src/app/dashboard/page.tsx:28-62 | a whole scan: the result, the history, loading false, no active scan, the final background and the inputs untouched |
| Dashboard.HistoryGrowsByOne | src/app/dashboard/page.tsx:44-48 | success appends one entry tagged with its type and keeps the earlier ones; failure leaves the history unchanged |
| Dashboard.EntryKeepsFields | src/app/dashboard/page.tsx:44 | the entry keeps every field of the answer and adds `type` |
| Dashboard.FinalColorRule | src/app/dashboard/page.tsx:35-62 | a failure keeps the start colour; an answer without `error` ends red when risky and green otherwise |
| Dashboard.OneCardLoading | src/app/dashboard/page.tsx:94-114 | while a scan runs exactly its own card shows loading, and none does afterwards |
| Dashboard.HistoryFeedsCategory | src/app/dashboard/page.tsx:46 | a recorded scan raises its own analytics count and drawn bar by one and no other |
| Dashboard.RouteEntriesCountSafe | src/app/dashboard/page.tsx:44-46 | every route answer recorded in the history counts as safe in the analytics, even a suspicious one painted red |
| Dashboard.SummaryText | src/app/dashboard/page.tsx:153-157 | the text is a truthy `explanation`, else a truthy `aiSummary`, else "AI analysis summary not available.", so it is always truthy |
| Dashboard.SummaryShowsRouteText | src/app/dashboard/page.tsx:153-157 | on a recorded route answer the card shows the non-empty phishing or IP explanation or data-leak summary, and "AI analysis summary not available." for an empty IP explanation |
| Dashboard.CardsMatchBackground | src/app/dashboard/page.tsx:161-199 | the breach card is blue for null, red for truthy, green otherwise; a red risk or IP card implies a red background |
| Dashboard.DashboardLeaks | src/app/dashboard/page.tsx:301-303 | at most five lines, and none without leaks |
| Dashboard.LeakLinesAgree | src/app/dashboard/page.tsx:282-321 | the dashboard's own leak list matches the shared card's in leaks, names, dates and badge colours, and in the domain when the leak has one |
| ChatAssistant.BotText | src/components/ChatAssistant.tsx:27-31 | the bot text is always truthy |
| ChatAssistant.Assistant.BeginSend | src/components/ChatAssistant.tsx:20-24 | a blank input changes nothing; otherwise it appends one user message with the text, clears the input and sets loading |
| ChatAssistant.Assistant.FinishSend | src/components/ChatAssistant.tsx:26-34 | appends exactly one bot message and clears loading |
| ChatAssistant.Assistant.HandleSend | src/components/ChatAssistant.tsx:19-35 | a whole send appends the user's and then the bot's message after the unchanged old list |
| ChatAssistant.BotTextCases | src/components/ChatAssistant.tsx:27-31 | the reply when truthy, "⚠️ I couldn’t process that request right now." when the answer's reply is falsy, the network error on failure |
| ChatAssistant.RouteReplyShown | src/components/ChatAssistant.tsx:27-29 | end to end, a 200 from the chat route is shown as its reply unchanged, and any other status as the network error |

## Left out

- HTTP, `req.json()` and `process.env`. The calls to VirusTotal, BreachDirectory and OpenAI are parameters, as an outcome that threw or answered. Body parsing is a parameter, as parsed or not. Each key is a boolean, present or not.
- The prompt texts sent to the model are not rendered. The only part modelled is the data-leak prompt's three example names, because their indexing can throw.
- Numbers are integers. Floating point and the meter's rounding, rotation and width maths are not modelled.
- `Js.Positive`: `Number()` of a string with a fraction, an exponent, a hex, binary or octal prefix, or `Infinity` is modelled as `NaN`, so such a string never compares greater than 0. This affects only the IP page's `maliciousCount > 0` on an answer whose count is such a string.
- `Js.HasEntries`: `.length > 0` is modelled for arrays and strings only. An object with its own numeric `length` property counts as having no entries.
- `Dashboard.DashboardLine`: the dashboard's own `getBadgeColor` (src/app/dashboard/page.tsx:282-288) is the same rule as the card's, so its badges are modelled by `ResultCard.BadgeColor` rather than by a second copy.
- `RiskMeter.MeterLevel`: a supplied level that is not High, Medium or Low gives no level. In the source the colour lookup then returns undefined and rendering fails.
- `Js.Spread`: spreading a string or an array answer gives no fields. In JavaScript it would give index keys.
- `Text.Lower` and `Text.Upper` map only ASCII letters. So `Text.LowerOfUpper`, `PhishingRoute.SuspicionIgnoresCase` and `ResultCard.BadgeIgnoresCase` hold for ASCII text only. In JavaScript "ı" and "ſ" upper-case to "I" and "S": "pasſword" gets a gray badge while "PASſWORD" gets a red one, and "http://logın" is safe while its upper-case form is suspicious.
- `Dashboard.DashboardLeaks` and `ResultCard.Badges`: a `leaks` or `dataClasses` value that is a non-empty string counts as having entries but shows nothing. In the source `.slice(...).map` or `.map` would throw on it.
- `ResultCard.BadgeFor`: a non-string data-class label is modelled as no badge. In the source `toLowerCase` throws on it.
- Null leak items on the client are not modelled: `l.name` would throw on them. Every leak the data-leak route normalises is an object.
- The IP card's description "Detected … malicious engines …" embeds the count's JavaScript string form. Only its colour is modelled.
- Concurrency is not modelled: no overlapping scans, and no chat sends by Enter while loading. One scan or send runs at a time. The dashboard effect runs after each batch of updates: once before the request is awaited and once after the `finally`.
- React rendering, animation and Tailwind classes are not modelled, beyond the colour, level and badge enums.
- `Background`, the theme provider, the profile page, `Navbar`, the about page and the home page are UI only and are not part of this model.
