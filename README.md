# ColdCall Pro: the entitlement ledger and the routes around it

This project models the server-side core of ColdCall Pro, a cold-call practice application. Callers are anonymous: they carry an identity in a `ccp_anon` cookie. The model covers:

- **The entitlement ledger** (`Access`). The store holds two tables keyed by anonymous id:
  - `free_sims`, a `used` flag per id;
  - `anon_purchases`, a `simulations_remaining` balance per id.
- **The gate `checkAccess`**, which decides whether a caller may start a simulation.
- **`decrementPaidSim`**, which spends one paid credit in place on a `Ledger` object.
- **The identity read** (`Cookie`), which extracts the cookie value from the request's `Cookie` header.
- **The session broker** (`VoiceSession`), the `POST /api/voice-session` route. It is an ordered chain of early returns:
  1. access denied;
  2. unreadable body;
  3. missing scenario id;
  4. missing API key;
  5. failed paid decrement;
  6. unknown scenario;
  7. upstream error;
  8. missing token.

  The paid decrement is its one store mutation. It comes before the scenario lookup and the upstream request.
- **The two ledger writers**:
  - the payment webhook (`StripeWebhook`), which sets a purchaser's balance to 50;
  - the free-sim recorder (`UseFreeSim`), which sets the caller's `used` flag.
- **The scenario catalogue** (`Scenarios`): the five personas, their ids, list order, portraits and the voice-session prompt.
- **The scorecard route** (`Scorecard`): request validation, the speaker-labelled transcript text, the coaching prompt, and the empty-completion error.
- **The landing page's simulated call** (`CallHero`): the `MM:SS` clock and the scripted transcript revealed one line at a time. It is a class with a seconds counter and the shown lines.

`Wrappers` holds `Option` and `Result`. `Js` holds the JavaScript behaviour the source relies on:

- truthiness of possibly-absent strings;
- `trim`, `padStart` and `Math.max`;
- number to decimal text;
- `join` and `split`.

Each route that touches the store is a pure function `Respond` over a store snapshot (`Access.Store`). Beside it sits a method `Post` that runs the route against a `Ledger` in place. The method's postcondition ties its response and the ledger's new contents to `Respond`. The lemmas are stated about `Respond`.

Some things the routes call are outside the program. The model takes them as parameters:

- the realtime API's client-secrets request, a function from the request sent to the reply;
- the chat-completion call;
- `JSON.parse`;
- Stripe's `constructEvent`;
- `request.json()`, given as the fields it produced or the message it threw with;
- the configured secrets, given as optional strings.

`hasSupabase()` is the ledger's `configured` flag. Request headers are a map keyed in lower case.

In the voice-session route, `Respond` and `Post` read the caller's identity from the `cookie` header once and pass it to the admission chain (`Admit`, `AdmitOn`), as the source's single `getAnonymousIdFromRequest` call does. The lemmas about the chain are stated for any identity.

The long prompt texts are written as concatenations of verbatim pieces. The split points carry no meaning.

The functions that assemble prompts from these texts, `Scenarios.GetSystemPromptForSession` and `Scorecard.ScoringPrompt` with `Scorecard.PromptWith`, carry no postconditions of their own. A postcondition there would be assumed in every proof that passes a prompt along, and would make each of those proofs reason about the texts character by character. Their properties are stated by separate lemmas: `Scenarios.SessionPromptParts`, and the `Scorecard.Prompt…` lemmas ending in `Scorecard.PromptCarriesCallFacts`.

The free tier is modelled as the code keeps it:

- **The free tier is a single boolean `used` per id** in the `free_sims` table (src/lib/access.ts:46, src/app/api/use-free-sim/route.ts:21), not a counter with a limit of three. The denial message at src/app/api/voice-session/route.ts:20 speaks of "3 free calls", but nothing counts them.
- **No balance row is created** for free callers.
- **A row with a balance of zero or less** makes the gate refuse with `no_credits`. This holds even when the free sim is unused.

## Model

| member | source | states |
|---|---|---|
| Cookie.GetAnonymousId | src/lib/access.ts:5-9 | no identity for a missing or empty header; an identity exactly when `ccp_anon=` followed by a non-`;` character occurs somewhere; it is the trimmed run of non-`;` characters after the leftmost such match |
| Cookie.ValueAfterMatch | src/lib/access.ts:7-8 | a value of non-blank, non-`;` characters right after the leftmost match, ended by `;` or the end of the header, is returned unchanged |
| Cookie.ReadsWrittenCookie | src/lib/access.ts:7-8 | a header starting `ccp_anon=<id>`, followed by nothing or by further cookies after `;`, yields exactly `<id>` |
| Cookie.MatchExtends | src/lib/access.ts:7 | text appended after a complete leftmost match leaves it the leftmost match |
| Cookie.FollowedByCookies | src/lib/access.ts:7-8 | a complete match and its value, followed by nothing or by further cookies after `;`, yields that value |
| Cookie.ForeignNameMatches | src/lib/access.ts:7 | in `x_ccp_anon=abc` the pattern is first found at offset 2, inside the longer cookie name |
| Cookie.LongerNameShadowsCookie | src/lib/access.ts:7-8 | the pattern is unanchored, so a foreign cookie `x_ccp_anon=abc`, sent first, yields `abc` whatever cookies follow, a real `ccp_anon=def` included |
| Cookie.MatchesInsideLongerName | src/lib/access.ts:7-8 | the header `x_ccp_anon=abc` alone yields `abc` |
| Cookie.EmptyValueIsNoMatch | src/lib/access.ts:6-8 | a null header, and `ccp_anon=` followed by nothing or by `;`, give no identity |
| Cookie.ValueAtLeftmost | src/lib/access.ts:7-8 | once the leftmost match is known, the identity is the trimmed group after it |
| Cookie.GetAnonymousIdFromRequest | src/lib/access.ts:85-88 | no `cookie` header gives no identity; an identity never contains `;` |
| Access.CheckAccess | src/lib/access.ts:11-83 | open free-tier answer without a store or without an id; otherwise may simulate iff (no purchase row and free sim unused) or (row with positive balance); a reason exactly when refused, `free_used` iff no row and free sim used, `no_credits` iff a row with balance ≤ 0; `hasPaid` iff a row exists; the balance reported is the row's, or 0 when it is ≤ 0 |
| Access.PaidSimDecrement | src/lib/access.ts:91-107 | succeeds without change when no store is configured; otherwise succeeds iff the row exists with a positive balance; on failure nothing changes; on success exactly the caller's balance drops by one and stays ≥ 0, and no other row or key changes; a table of non-negative balances stays so |
| Access.Ledger.DecrementPaidSim | src/lib/access.ts:91-107 | the in-place decrement: its result and the new purchases table are those of `PaidSimDecrement` on the old table; `free_sims` is untouched |
| Access.DecrementAgreesWithGate | src/lib/access.ts:67-82 | for a caller with a purchase row, the decrement succeeds exactly when the gate lets them simulate |
| Access.DecrementConsumesOneCredit | src/lib/access.ts:67-82 | after a successful decrement the gate reports one credit fewer, and refuses with `no_credits` exactly when that was the last credit |
| Access.BalanceServesExactlyThatMany | src/lib/access.ts:99-106 | a row with balance `b` ≥ 0 pays for exactly `b` sessions: of `k` attempts in a row, `min(k, b)` succeed and the balance ends at `b - min(k, b)` |
| VoiceSession.SessionRequestFor | src/app/api/voice-session/route.ts:57-81 | the client-secrets request authenticates with `Bearer <key>` and carries the scenario's full session prompt and voice, the fixed model and the VAD settings |
| VoiceSession.AfterCharge | src/app/api/voice-session/route.ts:54-111 | with the corrected lookup, an upstream request is sent exactly when the scenario id is one of the five; a token body only with status 200 after a request was sent |
| VoiceSession.Admit | src/app/api/voice-session/route.ts:13-52 | the guard chain up to the charge changes only purchase balances, never rows or `free_sims`; admission implies a non-empty scenario id and key |
| VoiceSession.Respond | src/app/api/voice-session/route.ts:11-112 | the identity comes from the request's cookie; the store the route leaves is the admission's for that identity; a refused call answers the refusal and sends nothing |
| VoiceSession.AdmitOn | src/app/api/voice-session/route.ts:13-52 | the in-place guard chain and decrement: result and new store are those of `Admit` on the old store |
| VoiceSession.Post | src/app/api/voice-session/route.ts:11-112 | the route against the ledger: its response and the ledger's new contents are those of `Respond` on the old contents |
| VoiceSession.DeniedCallerIsForbidden | src/app/api/voice-session/route.ts:14-26 | a refused caller gets 403 with the gate's reason as `code`, the free-calls message iff the reason is `free_used`, and no store change |
| VoiceSession.EarlyFailuresChangeNothing | src/app/api/voice-session/route.ts:28-42 | an unreadable body (500), a missing scenario id (400) and a missing key (500) are answered before any charge, and the store is unchanged |
| VoiceSession.OnlyPaidCallersAreCharged | src/app/api/voice-session/route.ts:44-46 | the store changes only for a caller the gate admitted as paying, with an identity, and then by exactly the decrement; free-tier calls never touch the purchases table |
| VoiceSession.SessionNeverRaisesBalance | src/app/api/voice-session/route.ts:44-52 | a call never raises any balance and never adds or removes a row; non-negative balances stay non-negative |
| VoiceSession.DecrementNeverRefusedAfterGate | src/app/api/voice-session/route.ts:45-51 | for a call running alone, the route's own 403 "No simulations remaining." after a decrement cannot occur, because the gate already saw a positive balance |
| VoiceSession.CreditSpentBeforeLateFailures | src/app/api/voice-session/route.ts:44-54 | with a scenario id and a key, a paying caller is admitted only after one credit is spent, before the lookup and the upstream request, so no later failure gives it back |
| VoiceSession.UnknownScenarioIsServerError | src/app/api/voice-session/route.ts:54 | with the corrected lookup, an id other than the five is answered 500 `Unknown scenario: <id>` and nothing is sent upstream |
| VoiceSession.InheritedIdChargedBeforeLookup | src/app/api/voice-session/route.ts:44-54 | as written, a paying caller asking for `constructor` is admitted with one credit spent, and the lookup as written then does not throw, although the corrected one would |
| VoiceSession.UpstreamErrorPassesThrough | src/app/api/voice-session/route.ts:83-90 | a non-2xx upstream reply is answered with its own status and its text, or the default message when the text is empty |
| VoiceSession.AdmissionPassedGuards | src/app/api/voice-session/route.ts:13-52 | an admitted call passed the gate and carried a scenario id and a key; every refusal is an error body |
| VoiceSession.TokenOnlyFromOkReply | src/app/api/voice-session/route.ts:54-104 | with the corrected lookup, a token is returned only for one of the five scenarios, after the request carrying that scenario's prompt and voice; it is the non-empty `value` of a 2xx reply, and the configuration names the same voice and the realtime model |
| VoiceSession.TokenOnlyForAdmittedCaller | src/app/api/voice-session/route.ts:11-104 | a token is returned only with status 200 and only to a caller the gate admitted, with a scenario id and a key; with the corrected lookup, the request sent carries that scenario's prompt, and the answer names its voice |
| VoiceSession.LastCreditServesOneSession | src/app/api/voice-session/route.ts:14-52 | a caller with one credit is admitted once, leaving a balance of 0; the next call is refused 403 with `no_credits` |
| StripeWebhook.PurchaserId | src/app/api/webhooks/stripe/route.ts:36 | the purchaser is `client_reference_id` when it is non-empty, else `metadata.anonymous_id` |
| StripeWebhook.RecordPurchase | src/app/api/webhooks/stripe/route.ts:45-55 | with a store, the purchaser's balance becomes 50 whatever it was, the row is added if missing, and no other row changes; without a store nothing changes |
| StripeWebhook.Respond | src/app/api/webhooks/stripe/route.ts:10-60 | every answer is 200, 400 or 503, and the store changes only with a 200 acknowledgement |
| StripeWebhook.Post | src/app/api/webhooks/stripe/route.ts:10-60 | the webhook against the ledger: response and new contents are those of `Respond` |
| StripeWebhook.UnconfiguredIsUnavailable | src/app/api/webhooks/stripe/route.ts:11-16 | without both secrets the answer is 503 and the store is unchanged |
| StripeWebhook.BadSignatureIsRejected | src/app/api/webhooks/stripe/route.ts:20-32 | a missing signature and one verification rejects are answered 400 with no store change |
| StripeWebhook.VerifiedEventEffect | src/app/api/webhooks/stripe/route.ts:34-59 | every verified event is acknowledged 200; only a completed, paid checkout naming a purchaser changes the store, and then exactly that purchaser's balance becomes 50 |
| StripeWebhook.RedeliveryIsIdempotent | src/app/api/webhooks/stripe/route.ts:47-55 | delivering the same event twice gives the same response and store as delivering it once |
| StripeWebhook.PurchaseOpensGate | src/app/api/webhooks/stripe/route.ts:47-55 | after a purchase the gate admits the purchaser as paying with 50 credits, even if their free sim was used |
| UseFreeSim.MarkUsed | src/app/api/use-free-sim/route.ts:19-23 | with a store, the caller's flag becomes true and the row is added if missing; no other row and no balance changes; without a store nothing changes |
| UseFreeSim.Respond | src/app/api/use-free-sim/route.ts:5-25 | no identity gives 400 and no change; with an identity the answer is 200 `ok` and the store is the one `MarkUsed` leaves: the caller's flag set, every other row kept, an unconfigured store untouched |
| UseFreeSim.Post | src/app/api/use-free-sim/route.ts:5-25 | the recorder against the ledger: response and new contents are those of `Respond` |
| UseFreeSim.RecordingIsIdempotent | src/app/api/use-free-sim/route.ts:20-23 | recording twice gives the same response and store as recording once |
| UseFreeSim.RecordedCallerIsOutOfFreeSims | src/app/api/use-free-sim/route.ts:20-23 | afterwards, a caller without a purchase row is refused by the gate with `free_used` |
| UseFreeSim.RecordingLeavesBalances | src/app/api/use-free-sim/route.ts:20-23 | recording never changes the purchases table |
| Scenarios.ScenarioIdsComplete | src/lib/scenarios.ts:35-41 | `SCENARIO_IDS` has five distinct elements and every id is among them |
| Scenarios.ParseScenarioId | src/lib/scenarios.ts:6 | a string names an id exactly when it is one of the five id strings, and then it is that id's string |
| Scenarios.ParseName | src/lib/scenarios.ts:6 | every id's string parses back to that id |
| Scenarios.TableKeyedById | src/lib/scenarios.ts:59-242 | the table's keys are exactly the five id strings, and every entry's `id` is the key it is filed under |
| Scenarios.PortraitPath | src/lib/scenarios.ts:79 | the portrait path is `/personas/`, then the id, then `.png` |
| Scenarios.AvatarUrlFollowsId | src/lib/scenarios.ts:79 | each scenario's avatar is the portrait named after its id |
| Scenarios.AvatarUrlsFollowIds | src/lib/scenarios.ts:59-242 | for every key of the table, the avatar is `/personas/<key>.png` |
| Scenarios.GetScenario | src/lib/scenarios.ts:272-276 | succeeds exactly for the five id strings, with the entry whose id is that string; fails with `Unknown scenario: <id>` otherwise (the corrected lookup, see Findings) |
| Scenarios.EntryFiledUnderId | src/lib/scenarios.ts:59-242 | every id's string is a key of the table, and the entry under it carries that id |
| Scenarios.GetScenarioList | src/lib/scenarios.ts:278-280 | five scenarios, the i-th being the table entry for `SCENARIO_IDS[i]` |
| Scenarios.SessionPromptParts | src/lib/scenarios.ts:283-285 | the session prompt starts with the persona prompt, the shared rules are the rest, and the length is the sum of the two |
| Scenarios.LookupProperty | src/lib/scenarios.ts:273 | a property read gives an own entry exactly for the five ids, an inherited member exactly for other `Object.prototype` member names, otherwise `undefined` |
| Scenarios.GetScenarioAsWritten | src/lib/scenarios.ts:272-276 | the lookup as written fails only for strings that are neither an id nor an inherited member name |
| Scenarios.InheritedMemberPassesLookup | src/lib/scenarios.ts:273-274 | `constructor`, which is not a scenario, passes the lookup as written but is rejected by the corrected one |
| Scenarios.CorrectedLookupAgreesOnIds | src/lib/scenarios.ts:272-276 | the corrected lookup agrees with the one as written on every id, and rejects every string for which the one as written gives no own entry |
| Scorecard.RenderEntry | src/app/api/generate-scorecard/route.ts:29-30 | a line is the speaker, then `: `, then the text as spoken |
| Scorecard.RenderTranscript | src/app/api/generate-scorecard/route.ts:27-31 | one line per entry, in transcript order |
| Scorecard.ShownTranscript | src/app/api/generate-scorecard/route.ts:44 | the text when it is non-empty, otherwise `(No transcript provided)` |
| Scorecard.TranscriptLinesRoundTrip | src/app/api/generate-scorecard/route.ts:27-32 | with no line breaks in the name or the texts, splitting the transcript text on newlines gives back the rendered lines, one per entry |
| Scorecard.TranscriptText | src/app/api/generate-scorecard/route.ts:27-32 | no entries give no text, one entry gives its rendered line, and every further entry follows the first after a line break |
| Scorecard.EmptyTextIffEmptyTranscript | src/app/api/generate-scorecard/route.ts:27-32 | the text is empty exactly when the transcript is, and then the placeholder is shown |
| Scorecard.PromptOpensWithScenario | src/app/api/generate-scorecard/route.ts:34-37 | the prompt opens with the fixed opening and the scenario's name |
| Scorecard.PromptEndsWithRules | src/app/api/generate-scorecard/route.ts:45-89 | the prompt ends with the scoring rules |
| Scorecard.PromptNamesDuration | src/app/api/generate-scorecard/route.ts:41 | the prompt contains the duration line |
| Scorecard.MissingDurationIsZero | src/app/api/generate-scorecard/route.ts:41 | a missing duration appears as `- Call duration: 0 seconds` |
| Scorecard.PromptShowsTranscript | src/app/api/generate-scorecard/route.ts:43-44 | the prompt contains the transcript, or its placeholder, under the `TRANSCRIPT:` heading |
| Scorecard.PromptCarriesCallFacts | src/app/api/generate-scorecard/route.ts:34-89 | the prompt actually sent has all four of the facts above |
| Scorecard.Respond | src/app/api/generate-scorecard/route.ts:12-117 | with the corrected lookup, a scorecard is answered only after the model was asked |
| Scorecard.ValidationBeforeLookup | src/app/api/generate-scorecard/route.ts:19-24 | a missing scenario id or a transcript that is not an array gives 400 before any lookup or model call |
| Scorecard.UnknownScenarioIsServerError | src/app/api/generate-scorecard/route.ts:26 | with the corrected lookup, an id other than the five gives 500 with the lookup's message, and the model is not asked |
| Scorecard.EmptyCompletionIsError | src/app/api/generate-scorecard/route.ts:97-103 | an empty or absent completion gives 500 `No response from model` |
| Scorecard.ScorecardOnlyFromParsedContent | src/app/api/generate-scorecard/route.ts:91-109 | with the corrected lookup, a scorecard is returned only for a valid request about one of the five scenarios, with the model asked on that scenario's prompt and transcript, from non-empty content that parsed |
| CallHero.Pad2 | src/app/components/CallInProgressHero.tsx:19 | all digits, at least two, never cut; exactly two iff the number is below 100 |
| CallHero.Pad2RoundTrip | src/app/components/CallInProgressHero.tsx:19 | the padded digits read back as the number |
| CallHero.ClockText | src/app/components/CallInProgressHero.tsx:19 | digits, a colon, then exactly two digits; the fields are the padded counts; five characters iff the minutes are below 100 |
| CallHero.FormatTime | src/app/components/CallInProgressHero.tsx:16-20 | digits, a colon, then exactly two digits; five characters iff the seconds are below 6000 |
| CallHero.ClockTextRoundTrip | src/app/components/CallInProgressHero.tsx:19 | both fields read back as the counts they were rendered from |
| CallHero.FormatTimeRoundTrip | src/app/components/CallInProgressHero.tsx:16-20 | the seconds field reads `seconds % 60` (in 00..59) and the minutes field the whole minutes, so reading the clock back gives the seconds counted |
| CallHero.FormatTimeZero | src/app/components/CallInProgressHero.tsx:16-20 | the clock starts at `00:00` |
| CallHero.NextTranscript | src/app/components/CallInProgressHero.tsx:32-39 | a prefix of the script stays a prefix; the next scripted line is appended while lines remain, and nothing once all seven are shown |
| CallHero.RevealStepsShowPrefix | src/app/components/CallInProgressHero.tsx:6-14 | after `k` reveals the first `min(k, 7)` script lines are shown, in order |
| CallHero.CallInProgressHero.constructor | src/app/components/CallInProgressHero.tsx:23-24 | the clock starts at zero with no lines shown |
| CallHero.CallInProgressHero.Clock | src/app/components/CallInProgressHero.tsx:16-20 | the displayed clock has the `MM:SS` shape and reads back as the seconds counted |
| CallHero.CallInProgressHero.Tick | src/app/components/CallInProgressHero.tsx:27-30 | each tick raises the counter by exactly one and leaves the transcript |
| CallHero.CallInProgressHero.RevealNext | src/app/components/CallInProgressHero.tsx:32-39 | each reveal appends as `NextTranscript` says, keeps the shown lines a prefix of the script, and leaves the clock |

## Left out

- `decodeURIComponent`: the identity is the trimmed raw value. This is exact for values without `%`. The browser's cookie writer stores a URI-encoded UUID, which has none.
- Cookie header parsing: the regular expression is modelled as the leftmost-match search it performs. No other regular-expression behaviour is modelled.
- Access.Ledger.DecrementPaidSim: the source reads the row and writes the lowered balance in two separate requests. Two simulations started at once can both pass, and the model does not claim otherwise. The decrement is a single step, and concurrency is not modelled anywhere.
- Store errors: a `.single()` that finds no row is modelled as an absent row. Other database errors and thrown exceptions inside the store client are not modelled.
- Unmodelled columns and defaults:
  - `stripe_session_id` and `purchased_at`;
  - a null `simulations_remaining`, which the source reads as 0 through `?? 0`.
- Non-string JSON values in request bodies are not modelled. Each field is read as a string or as absent. A transcript that is not an array is absent. A duration is an integer; fractional durations are not modelled.
- The VAD `threshold: 0.5` is carried as the constant `0.5` and never computed with.
- VoiceSession.AfterCharge: the voice-session route is modelled with the corrected lookup. For an inherited member name such as `constructor`, the source goes on after the charge. It sends a request whose instructions are `undefined` followed by the shared rules and which has no voice, and it may return a token. The model answers 500 `Unknown scenario: <id>` and sends nothing. `VoiceSession.InheritedIdChargedBeforeLookup` states the part of this that is modelled: the credit is spent and the lookup as written does not throw.
- VoiceSession.UnknownScenarioIsServerError: holds for the corrected lookup only. In the source, inherited member names are not answered 500; see `VoiceSession.AfterCharge` above.
- VoiceSession.TokenOnlyFromOkReply: "only for one of the five scenarios" holds for the corrected lookup only. The source can return a token for `constructor`.
- VoiceSession.TokenOnlyForAdmittedCaller: the scenario facts hold for the corrected lookup only. The source can return a token for an inherited member name.
- Scorecard.UnknownScenarioIsServerError: holds for the corrected lookup only. For an inherited member name the source builds the prompt with `undefined` for most of the scenario's fields (the name is the function's name) and asks the model; the model of the route answers 500.
- Scorecard.ScorecardOnlyFromParsedContent: "about one of the five scenarios" holds for the corrected lookup only. The source also asks the model for `constructor`.
- Scorecard.Respond: modelled with the corrected lookup, as `Scorecard.UnknownScenarioIsServerError` above says. Its own contract states only that a scorecard implies the model was asked. The rest is stated by the lemmas beside it. The JSON scorecard is returned as the raw content that parsed, not as a parsed object.
- The upstream reply:
  - `response.text()` or `response.json()` throwing is modelled only as the parse error given with the reply;
  - a failed fetch is modelled as the message it threw with.
- Messages of thrown values: when a thrown value is not an `Error`, the routes answer a fixed default. The model carries a message string for each thrown case.
- Logging (`console.error`) and the timers' wall-clock behaviour are not modelled. This includes the random 2.5-4 s delay between revealed lines and the interval's one-second period. Each call of `Tick` or `RevealNext` is one firing.
- The page components are not part of this model: the landing, pricing and scenarios pages, and the layout. Neither are the cookie writer (browser I/O and `crypto.randomUUID()`), the image-generation and fetch-polyfill scripts, the thin `check-access` and `create-checkout` routes, and the Supabase client construction.
- The simulation views under src/app/sim/[scenarioId]/ are not modelled. These are the live call in CallView.tsx (WebRTC, microphone, data channel, timers), the briefing and the scorecard display. They are browser I/O and rendering.
- Scenarios: the persona records keep every field the routes read and all prompt texts verbatim. Fields no modelled code reads are kept as data only: difficulty, skill tag, tips, intel, hint and the product brief.

## Findings

| source | as written | input that shows it | evidently intended | confidence | as-written member | corrected member |
|---|---|---|---|---|---|---|
| src/lib/scenarios.ts:272-276 | `SCENARIOS[id]` on a plain object also finds the members every object inherits from `Object.prototype`. These are truthy, so `if (!s)` does not throw for them and `getScenario` returns a function or `Object.prototype` instead of a scenario. Through the voice-session route, a paying caller's credit is spent before the lookup, which then lets `constructor` through. | scenario id `constructor` | only the five own ids pass the lookup; every other string throws `Unknown scenario: <id>` | not executed | Scenarios.GetScenarioAsWritten, Scenarios.InheritedMemberPassesLookup, VoiceSession.InheritedIdChargedBeforeLookup | Scenarios.GetScenario, Scenarios.CorrectedLookupAgreesOnIds |
