# Metered AI backend of the muscle-longevity ebook, in Dafny

The backend of the bonus-ebook app is a set of Supabase edge functions. Three of them generate content with Gemini, and each of those requests is paid for in credits:

- `ai-chat` answers a tutor conversation in one of four modes;
- `ai-image` draws an illustration;
- `ai-audio` reads a text aloud.

A fourth function, `credits-balance`, tells the caller what it has left.

Callers come in two kinds. A signed-in user pays from a wallet. An anonymous demo device pays from a demo session. A reset session holds 15 credits and 1 image for 14 days, and a newly created one is assumed to start with the same.

Every generating request follows the same ledger protocol:

1. Resolve who is asking.
2. Replay a cached answer for the same idempotency key, if there is one.
3. Run the read-only checks: limits, soft budget cap, daily or weekly usage, price.
4. Reserve the credits under a request id derived from the key.
5. Call the model.
6. Commit the ledger entry, then save the answer in the idempotency cache.

Any error after a granted reservation rolls the reservation back.

The model is organised as follows:

- The shared helpers (`_shared/identity.ts`, `idempotency.ts`, `pricing.ts`, `gemini.ts` without the network, `systemPrompt.ts`) become functions over values.
- The idempotency cache (`Idempotency.IdempotencyTable`) is a class whose field changes in place. So are the credit tables (`Pricing.CreditStore`); the methods of that class are the `pricing.ts` wrappers.
- The four handlers are methods over those two objects. Each handler returns its HTTP response and the log of the steps it took (`Orchestration.Event`).

Several things outside the backend are inputs of type `Orchestration.Env`:

- the auth lookup, the random UUID and the clock;
- the store errors and their messages;
- the `usage_limits` row, the budget procedure's answer and the price procedure's answer;
- the Gemini reply to each request payload.

The four SQL procedures are not part of the repository: `reserve_user_credits`, `reserve_demo_credits`, `commit_ledger_request` and `rollback_ledger_request`. Module `Procedures` writes down, as explicit and labelled assumptions, how they behave:

- a reservation on a live request id is a no-op success;
- commit takes pending to committed;
- rollback takes pending to rolled back and refunds.

Every property about the handlers is proved relative to those definitions. The central one is `Orchestration.Served`, proved for every input of each handler. It says:

- every check comes before the reservation;
- generation happens only after a granted reservation;
- the cache is written only after commit returned;
- rollback happens on every 500 after a grant, as the last step, and otherwise never;
- a replay changes nothing;
- a request that was not granted touches no wallet and no ledger row;
- when the rollback call itself works, nothing is left pending and nobody is charged without an accepted commit.

Three modelling choices are worth knowing:

- Instants are integer milliseconds since the epoch.
- JSON numbers that the backend treats as counts are integers. The money figures of the balance payload are reals.
- The system instruction is threaded into the chat handler as the parameter `instruction`. `Chat.HandleChat` passes `SystemPrompt.BuildSystemInstruction`.

Source paths below are relative to the repository root.

## Model

| member | source | states |
|---|---|---|
| Text.TakeLast | supabase/functions/ai-chat/index.ts:58 | `slice(-n)`: the last `n` elements (all of them when there are fewer), as a suffix of the input |
| Text.Filter | supabase/functions/_shared/identity.ts:11 | `replace(/[^…]/g, '')`: the result is no longer than the input and holds only kept characters |
| Text.FilterConcat | supabase/functions/_shared/idempotency.ts:5-6 | filtering distributes over concatenation, so the parts of a built string are filtered independently |
| Text.FilterKeepsClean | supabase/functions/_shared/idempotency.ts:5-6 | a string made only of kept characters passes the filter unchanged |
| Text.TrimStartStrips | supabase/functions/ai-chat/index.ts:77 | `trim()` at the front removes exactly a whitespace prefix and leaves a non-space first character |
| Text.TrimEndStrips | supabase/functions/ai-chat/index.ts:77 | `trim()` at the back removes exactly a whitespace suffix |
| Text.Trim | supabase/functions/ai-chat/index.ts:77 | a trimmed string is empty or starts and ends with a non-space character |
| Text.TrimEmptyIff | supabase/functions/ai-chat/index.ts:77-79 | a trimmed field is empty, and so rejected with 400, exactly when it is all whitespace |
| Text.TrimAddsNothing | supabase/functions/_shared/identity.ts:16 | trimming never introduces a character, so a comma-free string stays comma-free |
| Text.BeforeFirst | supabase/functions/_shared/identity.ts:16 | `split(',')[0]`: the longest prefix without a comma, followed in the input by the comma when one exists |
| Text.UpperAscii | supabase/functions/_shared/systemPrompt.ts:27 | `toUpperCase` keeps the length of the mode name |
| Text.JoinSnoc | supabase/functions/_shared/gemini.ts:103 | `join` of one more element appends the separator and that element |
| Json.ErrorResponse | supabase/functions/_shared/cors.ts:9-17 | `jsonResponse(status, { error })` carries that status and that error code |
| Json.FailureResponse | supabase/functions/ai-chat/index.ts:241-247 | the catch-all answer is a 500 carrying the handler's failure code |
| Json.FieldOr | supabase/functions/ai-chat/index.ts:77 | `body.f ?? fallback`: the field when present and not null, the fallback otherwise |
| Json.Truthy | supabase/functions/ai-chat/index.ts:101 | JavaScript truthiness: false exactly for missing, `null`, `false`, `0`, `0.0` and `""` |
| Json.ToJsString | supabase/functions/ai-chat/index.ts:77 | `String(v)`: a string is itself; `null`, booleans and objects print as in JavaScript; an integer prints its non-empty decimal form; an empty array prints empty |
| Types.ModeNamesDistinct | supabase/functions/ai-chat/index.ts:21-35 | the four mode names are pairwise different, so `isChatMode` identifies one mode |
| Types.TierNamesDistinct | supabase/functions/_shared/types.ts:2 | the four tier names are pairwise different |
| Identity.SanitizeFingerprint | supabase/functions/_shared/identity.ts:10-12 | the result has at most 120 characters, all from `[a-zA-Z0-9._:-]` |
| Identity.SanitizeFixesClean | supabase/functions/_shared/identity.ts:10-12 | a clean fingerprint is returned unchanged |
| Identity.SanitizeIdempotent | supabase/functions/_shared/identity.ts:10-12 | sanitizing twice is sanitizing once |
| Identity.SanitizeKeepsCleanPrefix | supabase/functions/_shared/identity.ts:18-20 | a clean prefix such as `ip_` or `anon_` survives sanitization |
| Identity.FallbackFingerprint | supabase/functions/_shared/identity.ts:14-21 | the fallback fingerprint is clean |
| Identity.ForwardedIp | supabase/functions/_shared/identity.ts:15-16 | `x-forwarded-for`, else `cf-connecting-ip`, else empty; the part before the first comma, trimmed, so it holds no comma and no outer space |
| Identity.SanitizeOfPrefixed | supabase/functions/_shared/identity.ts:10-20 | sanitizing a clean prefix followed by anything keeps the prefix and filters the rest, cut to what is left of 120 characters |
| Identity.FallbackShape | supabase/functions/_shared/identity.ts:15-20 | with a forwarded address: `ip_` then the address with disallowed characters removed, cut to 117 characters; without one: `anon_` then the filtered UUID, cut to 115 |
| Identity.PrefixesAreClean | supabase/functions/_shared/identity.ts:18-20 | both fallback prefixes are clean fingerprints |
| Identity.DeviceFingerprint | supabase/functions/_shared/identity.ts:27-28 | the device fingerprint is always clean |
| Identity.BearerToken | supabase/functions/_shared/identity.ts:30-40 | a token exactly when the authorization header starts with `Bearer `; it is the rest of the header, trimmed |
| Identity.Authenticates | supabase/functions/_shared/identity.ts:30-58 | only a `Bearer ` header with a non-empty token can authenticate |
| Identity.ResolveIdentity | supabase/functions/_shared/identity.ts:23-66 | the identity carries the device fingerprint, whatever the authorization |
| Identity.IdentityInvariant | supabase/functions/_shared/identity.ts:30-65 | demo exactly when there is no user id, exactly when the bearer token does not authenticate; the scope key is `demo:`+fingerprint or `user:`+id, with the id the lookup returned |
| Identity.DemoWithoutToken | supabase/functions/_shared/identity.ts:30-48 | a missing or non-`Bearer ` header, or an empty token, gives the demo identity |
| Identity.DemoOnFailedLookup | supabase/functions/_shared/identity.ts:50-58 | a lookup error or a missing or empty user id gives the demo identity |
| Identity.FingerprintIndependentOfAuth | supabase/functions/_shared/identity.ts:27-28 | the fingerprint depends only on the fingerprint and address headers |
| Identity.FingerprintSource | supabase/functions/_shared/identity.ts:28 | a fingerprint header is sanitized; without one the fallback is used |
| Identity.EmptyFingerprintIsKept | supabase/functions/_shared/identity.ts:28 | for example, a header that sanitizes to empty is kept, since `??` falls back only when the header is missing, giving scope key `demo:` |
| Idempotency.ScopePart | supabase/functions/_shared/idempotency.ts:5 | at most 120 characters, from `[a-zA-Z0-9:_-]` |
| Idempotency.KeyPart | supabase/functions/_shared/idempotency.ts:6 | at most 120 characters, from `[a-zA-Z0-9._:-]` |
| Idempotency.BuildRequestId | supabase/functions/_shared/idempotency.ts:3-8 | the request id is at most 32+1+120+1+120 characters long |
| Idempotency.RequestIdParts | supabase/functions/_shared/idempotency.ts:3-8 | the id is the endpoint prefix, `:`, the filtered scope (which holds no `.`), `:`, the filtered key |
| Idempotency.CleanScopeIsKept | supabase/functions/_shared/idempotency.ts:5 | a scope key made of scope characters appears verbatim in the id |
| Idempotency.ScopeDropsDot | supabase/functions/_shared/idempotency.ts:5 | the demo scope keys `demo:a.b` and `demo:ab` differ yet give the same request id, because the scope class drops the `.` that fingerprints may hold |
| Idempotency.KeyKeepsDot | supabase/functions/_shared/idempotency.ts:6 | idempotency keys `a.b` and `ab` give different request ids |
| Idempotency.Lookup | supabase/functions/_shared/idempotency.ts:16-28 | a row is found exactly when the (endpoint, scope, key) triple is present, and it is that row's response |
| Idempotency.Upsert | supabase/functions/_shared/idempotency.ts:38-48 | the upsert adds the key to the table's keys and nothing else |
| Idempotency.GetAfterSave | supabase/functions/_shared/idempotency.ts:10-53 | reading a key after saving it returns the saved response |
| Idempotency.SaveOverwrites | supabase/functions/_shared/idempotency.ts:47 | on conflict the second save replaces the first |
| Idempotency.SaveLeavesOthers | supabase/functions/_shared/idempotency.ts:38-48 | saving one key leaves every other key's lookup unchanged |
| Idempotency.IdempotencyTable.Get | supabase/functions/_shared/idempotency.ts:10-29 | a query error raises `Failed to query idempotency cache: …`; otherwise the stored response or nothing |
| Idempotency.IdempotencyTable.Save | supabase/functions/_shared/idempotency.ts:31-53 | a write error raises `Failed to save idempotency cache: …` and changes nothing; otherwise the rows become the upsert |
| Store.Balance | supabase/functions/_shared/pricing.ts:318-330 | a user without a wallet row has balance 0, otherwise the row's balance |
| Store.CountCommitted | supabase/functions/_shared/pricing.ts:262-274 | the usage count is zero exactly when no ledger entry is a committed one of that owner and operation since the window start |
| Store.CountedIds | supabase/functions/_shared/pricing.ts:262-268 | the ids counted are exactly the committed entries of that owner and operation created since the window start |
| Store.CountAfterUpdate | supabase/functions/_shared/pricing.ts:262-268 | changing one ledger entry moves a usage count by that entry's change in membership |
| Store.CountUnchanged | supabase/functions/_shared/pricing.ts:262-268 | an update that is counted neither before nor after leaves the count unchanged |
| Store.FullSession | supabase/functions/_shared/pricing.ts:348-390 | a new or reset demo session keeps its id and expires after `now` |
| Store.FetchSession | supabase/functions/_shared/pricing.ts:332-398 | getting the session leaves wallets and ledger alone, stores the session it returns, and that session has not expired |
| Store.FetchSessionCases | supabase/functions/_shared/pricing.ts:346-397 | a missing session is created with the next id, 15 credits, 1 image and 14 days; an expired one is reset in place with its id; a live one is returned with nothing changed; other devices' sessions are untouched |
| Store.FetchSessionStable | supabase/functions/_shared/pricing.ts:332-398 | getting the session a second time at the same instant changes nothing and returns the same session |
| Procedures.ReserveUser | supabase/functions/_shared/pricing.ts:75-113 | the assumed `reserve_user_credits` touches only its own ledger entry and the user's wallet, never a demo session |
| Procedures.ReserveDemo | supabase/functions/_shared/pricing.ts:115-157 | the assumed `reserve_demo_credits` touches only its own ledger entry and the device's session, never a wallet |
| Procedures.Commit | supabase/functions/_shared/pricing.ts:159-184 | the assumed `commit_ledger_request` touches only its own entry; an accepted commit leaves it committed with the given usage |
| Procedures.Rollback | supabase/functions/_shared/pricing.ts:186-195 | the assumed `rollback_ledger_request` touches only its own entry, leaves it not pending with its usage unchanged, and changes nothing when the entry does not exist |
| Procedures.ReserveUserOutcome | supabase/functions/_shared/pricing.ts:88-112 | under the assumed procedure, the reservation succeeds exactly when the request id is live or the balance covers the price; a failure changes nothing and says `INSUFFICIENT_CREDITS`; the row's balance is the balance afterwards |
| Procedures.NoDoubleCharge | supabase/functions/_shared/pricing.ts:88-97 | repeating a granted reservation, before or after its commit, changes nothing |
| Procedures.RollbackRestoresUser | supabase/functions/_shared/pricing.ts:186-195 | a reservation followed by its rollback restores every balance and leaves nothing pending |
| Procedures.RefundScenario | supabase/functions/_shared/pricing.ts:75-195 | a wallet of 10 reserving 5 shows 5, and 10 again after the rollback |
| Procedures.RetryAfterRollbackCharges | supabase/functions/_shared/pricing.ts:88-97 | a retry after a rollback is charged afresh and pends again |
| Procedures.TerminalIsFinal | supabase/functions/_shared/pricing.ts:159-195 | a committed or rolled-back entry is neither committed (answer `false`) nor rolled back again |
| Procedures.CommitAnswer | supabase/functions/_shared/pricing.ts:159-184 | commit answers `true` exactly on a pending entry, and never touches a wallet |
| Procedures.SettleClearsPending | supabase/functions/_shared/pricing.ts:159-195 | when only this request pends, an accepted commit or a rollback leaves nothing pending |
| Procedures.ReservePendsOnlyItself | supabase/functions/_shared/pricing.ts:75-157 | from a state without pending entries, a reservation leaves at most its own entry pending |
| Procedures.DemoLeavesWallets | supabase/functions/_shared/pricing.ts:115-157 | a demo reservation never touches a wallet |
| Procedures.RollbackRestoresDemo | supabase/functions/_shared/pricing.ts:115-195 | a demo reservation and its rollback leave the device's session as `getOrCreateDemoSession` would, and nothing pending |
| Procedures.DemoImageQuotaScenario | supabase/functions/_shared/pricing.ts:115-157 | with one image left, a demo image is granted, leaving 0 images and the credits untouched; the next is refused with `INSUFFICIENT_IMAGE_QUOTA` and changes nothing |
| Procedures.CountsMoveOnlyOnCommit | supabase/functions/_shared/pricing.ts:159-195 | a commit adds its entry to the usage counts that match it; a rollback changes no count |
| Procedures.ReserveLeavesCounts | supabase/functions/_shared/pricing.ts:75-113 | a reservation changes no committed-usage count |
| Pricing.FirstRow | supabase/functions/_shared/pricing.ts:42-47 | the first element of an array, none for an empty array or null, the object itself otherwise |
| Pricing.JsRound | supabase/functions/_shared/pricing.ts:72 | `Math.round` is within half of its argument |
| Pricing.PriceCredits | supabase/functions/_shared/pricing.ts:49-73 | an RPC error raises; null is 0; a non-finite value raises `Invalid price credits value`; otherwise the rounded value, clamped at 0 |
| Pricing.MapUserReserve | supabase/functions/_shared/pricing.ts:75-113 | an RPC error or an empty answer raises its message; otherwise the first row's success, error code and balance |
| Pricing.MapDemoReserve | supabase/functions/_shared/pricing.ts:115-157 | the same for the demo procedure, with images remaining and the session id |
| Pricing.CommitOutcome | supabase/functions/_shared/pricing.ts:159-184 | commit succeeds exactly when the procedure answered `true`, otherwise it raises the error or `unknown error` |
| Pricing.LimitsFrom | supabase/functions/_shared/pricing.ts:197-214 | a query error raises; each column is its value or its default 2 / 60 / 2.5 / 84 |
| Pricing.BudgetFrom | supabase/functions/_shared/pricing.ts:216-253 | an RPC error raises; with no row the caller is within the cap; each column takes its value or its default |
| Pricing.DayStart | supabase/functions/_shared/pricing.ts:278-279 | midnight UTC of the same day, at or before `now` and less than a day before |
| Pricing.UtcWeekday | supabase/functions/_shared/pricing.ts:257 | `getUTCDay` is one of seven days |
| Pricing.DistanceToMonday | supabase/functions/_shared/pricing.ts:258-259 | counting back that many days from the weekday lands on a Monday |
| Pricing.WeekStartIsLastMonday | supabase/functions/_shared/pricing.ts:255-260 | the week start is the latest Monday midnight UTC at or before `now`, less than a week before |
| Pricing.DayWithinWeek | supabase/functions/_shared/pricing.ts:255-294 | the daily window starts inside the weekly one |
| Pricing.CreditStore.ReserveUserCredits | supabase/functions/_shared/pricing.ts:75-113 | an RPC error changes nothing and raises; otherwise the tables become the procedure's and the answer is its row |
| Pricing.CreditStore.ReserveDemoCredits | supabase/functions/_shared/pricing.ts:115-157 | the same for the demo procedure |
| Pricing.CreditStore.CommitLedger | supabase/functions/_shared/pricing.ts:159-184 | an error changes nothing; otherwise the tables become the commit's, and the call succeeds exactly when the commit was accepted |
| Pricing.CreditStore.RollbackLedger | supabase/functions/_shared/pricing.ts:186-195 | an error is ignored and changes nothing; otherwise the tables become the rollback's |
| Pricing.CreditStore.GetOrCreateDemoSession | supabase/functions/_shared/pricing.ts:332-398 | a read error, or a write error when creating or resetting, raises its message and changes nothing; otherwise the tables and session are `FetchSession`'s |
| Pricing.CreditStore.GetUserCreditsBalance | supabase/functions/_shared/pricing.ts:318-330 | an error raises `Unable to read wallet balance: …`; otherwise the wallet balance or 0 |
| Pricing.CreditStore.GetWeeklyImageUsage | supabase/functions/_shared/pricing.ts:255-275 | the number of the user's committed image entries since the week start |
| Pricing.CreditStore.GetDailyChatUsageForUser | supabase/functions/_shared/pricing.ts:277-294 | the number of the user's committed chat entries since midnight UTC |
| Pricing.CreditStore.GetDailyChatUsageForDemo | supabase/functions/_shared/pricing.ts:296-316 | the number of the session's committed chat entries since midnight UTC |
| Gemini.RoleName | supabase/functions/_shared/gemini.ts:27 | the assistant speaks as `model`, everyone else as `user` |
| Gemini.HistoryContents | supabase/functions/_shared/gemini.ts:25-29 | no more turns than items, none with empty text, each with role `model` or `user` |
| Gemini.HistoryContentsConcat | supabase/functions/_shared/gemini.ts:25-29 | the history mapping distributes over concatenation |
| Gemini.HistoryContentsOne | supabase/functions/_shared/gemini.ts:25-29 | one item gives no turn when its content trims to empty, and otherwise one turn with its role's name and the trimmed content |
| Gemini.BlankTakesWindowPlace | supabase/functions/_shared/gemini.ts:23-37 | the window is taken before blanks are filtered: a trailing blank item keeps its place among the last 8, so only 7 earlier items can reach the model |
| Gemini.HistoryWindow | supabase/functions/_shared/gemini.ts:23-29 | at most 8 history turns reach the model, none empty |
| Gemini.ToContents | supabase/functions/_shared/gemini.ts:22-37 | between 1 and 9 turns, the last being the trimmed message as `user` |
| Gemini.Turns | supabase/functions/_shared/gemini.ts:26-29 | one turn per item |
| Gemini.HistoryContentsKeepsNonBlank | supabase/functions/_shared/gemini.ts:25 | with no blank item, the filter keeps every turn |
| Gemini.ToContentsWindow | supabase/functions/_shared/gemini.ts:22-37 | with no blank item, the contents are the last 8 turns followed by the message |
| Gemini.GetTextModel | supabase/functions/_shared/gemini.ts:39-44 | the deep-dive model exactly for researcher with `deep_dive`, the default model otherwise |
| Gemini.GetImageModel | supabase/functions/_shared/gemini.ts:46-48 | the high-quality model for `high_quality`, the standard one otherwise; under the default configuration both are the standard model |
| Gemini.TextPayload | supabase/functions/_shared/gemini.ts:67-80 | the text request carries the contents, the system instruction, the search tool exactly when asked, temperature 0.65 and 1100 output tokens |
| Gemini.ImagePayload | supabase/functions/_shared/gemini.ts:148-162 | the image request asks for text and image, with the trimmed prompt followed by the style suffix |
| Gemini.AudioPayload | supabase/functions/_shared/gemini.ts:223-240 | the audio request asks for audio of the trimmed text, in voice Kore unless a voice is given |
| Gemini.FirstCandidate | supabase/functions/_shared/gemini.ts:95-96 | the first candidate, or an empty one when there is none |
| Gemini.PartsOf | supabase/functions/_shared/gemini.ts:97-98 | the first candidate's parts, or none |
| Gemini.PartTexts | supabase/functions/_shared/gemini.ts:100-102 | only non-empty string parts are kept |
| Gemini.PartTextsConcat | supabase/functions/_shared/gemini.ts:100-102 | the text filter distributes over concatenation |
| Gemini.PartTextsOne | supabase/functions/_shared/gemini.ts:100-102 | one part contributes its text exactly when it is a non-empty string, and nothing otherwise |
| Gemini.JoinedPartsAppend | supabase/functions/_shared/gemini.ts:100-102 | appending a part with non-empty string text adds a newline and that text, or is the whole text when no earlier part had any; any other part adds nothing |
| Gemini.ReplyText | supabase/functions/_shared/gemini.ts:100-104 | the reply text is trimmed; which parts it joins is stated by `PartTextsConcat`, `PartTextsOne` and `JoinedPartsAppend` |
| Gemini.ReplyTextJoins | supabase/functions/_shared/gemini.ts:100-104 | for example, non-string and empty parts drop out, and the rest are joined with newlines |
| Gemini.SourcesOf | supabase/functions/_shared/gemini.ts:111-118 | every source has a non-empty URI |
| Gemini.SourcesOfConcat | supabase/functions/_shared/gemini.ts:111-118 | the source extraction distributes over concatenation |
| Gemini.SourcesOfOne | supabase/functions/_shared/gemini.ts:111-118 | a chunk without `web`, or whose URI is missing, null or prints empty, gives no source; otherwise one source with that URI and the title, `Fuente` when missing or null |
| Gemini.SourceDefaults | supabase/functions/_shared/gemini.ts:111-118 | for example, a missing title becomes `Fuente`; a chunk without a URI or without `web` is dropped |
| Gemini.UsageOf | supabase/functions/_shared/gemini.ts:120-133 | each token count is its number, or 0 when missing or not finite; a missing total is the sum of the other two unless one of them is NaN |
| Gemini.ExtractText | supabase/functions/_shared/gemini.ts:95-134 | the text is `ReplyText` (the trimmed newline-join of the first candidate's part texts), the sources are `SourcesOf` its grounding chunks, each with a URI, the grounded queries are counted from its search queries, and the usage is `UsageOf` the body |
| Gemini.FindInline | supabase/functions/_shared/gemini.ts:182-185 | the inline data found is a part's, with string data; when none is found no part has string data |
| Gemini.FindInlineFirst | supabase/functions/_shared/gemini.ts:182-185 | when found, the inline data is that of the earliest part with string data; nothing is found exactly when no part has any |
| Gemini.FindInlineTakesFirst | supabase/functions/_shared/gemini.ts:182-185 | for example, the first part with data wins |
| Gemini.BinaryOf | supabase/functions/_shared/gemini.ts:187-193 | the MIME type falls back to the default and the data to empty |
| Gemini.ExtractImage | supabase/functions/_shared/gemini.ts:182-206 | fails with `Gemini image response did not contain binary image data` exactly when there is no data; otherwise a `data:` URL with the MIME type and the usage |
| Gemini.ExtractAudio | supabase/functions/_shared/gemini.ts:260-285 | fails exactly when there is no audio data; otherwise non-empty data with its MIME type (default `audio/pcm;rate=24000`) and the usage |
| Gemini.ImageDefaultsToPng | supabase/functions/_shared/gemini.ts:187-201 | data without a MIME type becomes a `data:image/png;base64,` URL |
| Gemini.EmptyBodyHasNoImage | supabase/functions/_shared/gemini.ts:14-20 | an unparsable body, which becomes `{}`, yields neither image nor audio |
| Gemini.CallText | supabase/functions/_shared/gemini.ts:50-135 | a non-OK reply raises its message; otherwise the extraction |
| Gemini.CallImage | supabase/functions/_shared/gemini.ts:137-208 | the same for images |
| Gemini.CallAudio | supabase/functions/_shared/gemini.ts:210-287 | the same for audio |
| SystemPrompt.Sections | supabase/functions/_shared/systemPrompt.ts:24-31 | six sections |
| SystemPrompt.InstructionLayout | supabase/functions/_shared/systemPrompt.ts:23-32 | the instruction is preamble, context and mode line joined by blank lines, then the rest |
| SystemPrompt.ModeLines | supabase/functions/_shared/systemPrompt.ts:27 | the mode line reads `Modo activo: MENTOR.` and so on, per mode |
| SystemPrompt.ModeLineInitial | supabase/functions/_shared/systemPrompt.ts:27 | the character after `Modo activo: ` is the mode's initial |
| SystemPrompt.InstructionAnchors | supabase/functions/_shared/systemPrompt.ts:23-32 | every instruction starts with the tutor preamble, ends with the no-invented-clinical-data rule, and has the mode initial at a fixed offset |
| SystemPrompt.DistinctModesDistinctInstructions | supabase/functions/_shared/systemPrompt.ts:3-32 | different modes get different instructions |
| Orchestration.MethodGate | supabase/functions/ai-chat/index.ts:62-68 | OPTIONS gets the preflight, any other method but the allowed one a 405, and only the allowed one goes on |
| Orchestration.ParsedBody | supabase/functions/ai-chat/index.ts:71-73 | an unparsable body or JSON `null` raises, so the answer is 500; otherwise the body |
| Orchestration.TrimmedField | supabase/functions/ai-chat/index.ts:77 | `String(body.f ?? '').trim()` is trimmed |
| Orchestration.ReplayPayload | supabase/functions/ai-chat/index.ts:92-95 | the replay is the cached payload with `idempotentReplay: true` added |
| Orchestration.CheckReplay | supabase/functions/ai-chat/index.ts:90-96 | a cache read error answers 500; a hit answers 200 with the replay; a miss goes on |
| Orchestration.RefusalPayload | supabase/functions/ai-chat/index.ts:178-185 | a refused reservation answers its error code or `INSUFFICIENT_CREDITS`, the credits and images remaining, and whether demo |
| Orchestration.ChecksOnlyProtocol | supabase/functions/ai-chat/index.ts:73-122 | a log of checks alone keeps the protocol |
| Orchestration.RefusedProtocol | supabase/functions/ai-chat/index.ts:129-185 | checks followed by a refused reservation keep the protocol |
| Orchestration.GrantedOrder | supabase/functions/ai-chat/index.ts:129-197 | after checks and a granted reservation, no check follows and generation comes after the grant |
| Orchestration.GrantedSettle | supabase/functions/ai-chat/index.ts:189-240 | the settle tail saves only after commit and rolls back exactly on failure, last |
| Orchestration.GrantedProtocol | supabase/functions/ai-chat/index.ts:129-240 | checks, a granted reservation and any settle tail keep the whole protocol |
| Orchestration.Settle | supabase/functions/ai-chat/index.ts:189-240 | generate, commit and save, or roll back: commit is accepted exactly when generation and the commit call work and the entry pended; 200 exactly when also the save works; the cache gains the answer only then; any failure rolls back |
| Orchestration.UserReserveReversible | supabase/functions/_shared/pricing.ts:75-113 | a user reservation can be undone by its rollback |
| Orchestration.DemoReserveReversible | supabase/functions/_shared/pricing.ts:115-157 | a demo reservation can be undone by its rollback |
| Orchestration.ReversibleAfterFetch | supabase/functions/ai-chat/index.ts:147-175 | getting the demo session before reserving keeps the reservation reversible |
| Orchestration.SettledState | supabase/functions/ai-chat/index.ts:205-239 | after a reversible reservation and its commit or rollback nothing pends, and without commit every balance is restored |
| Orchestration.ReplayServed | supabase/functions/ai-chat/index.ts:90-96 | a replay serves the request with nothing changed |
| Orchestration.RefusedServed | supabase/functions/ai-chat/index.ts:98-185 | a refusal before or at the reservation serves the request with ledger and wallets unchanged |
| Orchestration.GrantedServed | supabase/functions/ai-chat/index.ts:129-240 | a granted reservation and its settle tail serve the request |
| Orchestration.Reservation | supabase/functions/ai-chat/index.ts:129-176 | the reservation by user or device under the given operation, mode, model, tier and price: a refused row changes no ledger entry or wallet; a granted one leaves the entry live; a user's row shows the balance afterwards, a device's its images remaining |
| Orchestration.SettleServed | supabase/functions/ai-chat/index.ts:187-240 | the shared settle step, from a reversible reservation, serves the request; a 200 carries the generated answer; 200 exactly when generation, the commit call and the cache write work and the commit is accepted; an accepted commit leaves the tables as the commit of the generated usage; otherwise the tables are its rollback's |
| Chat.ChatModeOf | supabase/functions/ai-chat/index.ts:33-35 | a mode is recognised exactly when the field is one of the four names as a string |
| Chat.HistoryItemOf | supabase/functions/ai-chat/index.ts:43-57 | an item is kept exactly when its role is `user` or `assistant` and its content a string, and keeps both |
| Chat.ValidHistory | supabase/functions/ai-chat/index.ts:42-57 | no more items than given |
| Chat.ValidHistoryConcat | supabase/functions/ai-chat/index.ts:42-57 | the filter distributes over concatenation |
| Chat.NormalizeHistory | supabase/functions/ai-chat/index.ts:37-59 | a non-array history is empty; otherwise the last 8 valid items |
| Chat.ValidateChat | supabase/functions/ai-chat/index.ts:73-85 | `INVALID_MODE`, then `EMPTY_MESSAGE`, then `MISSING_IDEMPOTENCY_KEY`; accepted exactly when all three pass, with the trimmed fields, `deepDive` truthiness and the normalized history |
| Chat.PlanChat | supabase/functions/ai-chat/index.ts:100-110 | over the soft cap: mentor, stable and downgraded; otherwise the requested mode, `deep_dive` exactly for researcher with `deepDive` |
| Chat.PlanFor | supabase/functions/ai-chat/index.ts:100-110 | a demo device keeps its mode and is never downgraded; a user is downgraded exactly when the budget read fails or is outside the cap, and then runs as mentor on the stable tier; deep dive exactly for an undowngraded researcher with `deepDive` |
| Chat.PlanModel | supabase/functions/ai-chat/index.ts:101-121 | the deep-dive model exactly for in-cap researcher deep dives; search exactly for in-cap researchers |
| Chat.ChatRequest | supabase/functions/ai-chat/index.ts:190-197 | the planned model, the mode's system instruction, search exactly in researcher mode, and the history and message as contents |
| Chat.SourcesJson | supabase/functions/ai-chat/index.ts:219 | one JSON source per grounding source |
| Chat.ChatUsage | supabase/functions/ai-chat/index.ts:205-215 | the ledger gets the tokens and grounded queries, and no image |
| Chat.ChatPayload | supabase/functions/ai-chat/index.ts:217-232 | the answer's nine keys; an empty reply becomes the fixed apology |
| Chat.DemoLimitPayload | supabase/functions/ai-chat/index.ts:150-157 | the demo 429's four keys: the error code, the session's credits and images, and `isDemo` |
| Chat.ReserveBase | supabase/functions/ai-chat/index.ts:146-176 | what the reservation starts from: the tables for a user, after getting the session for a device; neither touches a ledger entry or a wallet |
| Chat.ReserveChat | supabase/functions/ai-chat/index.ts:129-185 | a failing reservation call answers 500 with nothing changed; otherwise the tables become the chat reservation of the planned mode, model, tier and price, the request is admitted exactly when the row succeeds, with that row, and a refused row answers 402 with its `RefusalPayload` |
| Chat.AdmitUser | supabase/functions/ai-chat/index.ts:104-145 | a budget read error answers 500 and at or over the daily message limit the user gets a 429, both before any reservation; when every read works and the count is below the limit, the reservation is made, admitted exactly when its row succeeds, and 402 with that row otherwise |
| Chat.DemoReads | supabase/functions/ai-chat/index.ts:146-157 | a read error answers 500 and a session at or over the daily limit 429 with its figures, changing no ledger entry or wallet; a failing session write matters only when the session has to be created or reset; when every needed read works and the count is below the limit it lets the device through, with the session fetched and the plan's price |
| Chat.AdmitDemo | supabase/functions/ai-chat/index.ts:146-176 | the device gets its session, and at or over the daily limit a 429 with the session's figures before any reservation; below it, with every read working, the reservation is made from the fetched session, admitted exactly when its row succeeds, and 402 with that row otherwise |
| Chat.Admit | supabase/functions/ai-chat/index.ts:98-185 | a limits error answers 500; a user at the daily limit gets `USER_LIMIT_PAYLOAD`'s 429 and a demo device at the limit the 429 with its session's figures, both before any reservation; an admission carries the plan, model and price and is reversible; when every read passes and the reservation call works, admitted exactly when the planned reservation's row succeeds, and 402 with that row otherwise |
| Chat.ServeChat | supabase/functions/ai-chat/index.ts:87-240 | serves the request under the ledger protocol; on a cache miss, the 429 of a user or of a demo device at the daily limit, and with every read passing: a refused row answers 402 with that row and changes nothing, a granted one answers 200 exactly when generation, commit and cache write work and the commit is accepted, and an accepted commit records `ChatUsage` of the reply |
| Chat.AnswerChat | supabase/functions/ai-chat/index.ts:98-240 | after a cache miss, the same as `ServeChat`: both daily-limit 429s, the 402 of a refused row, the 200 iff and the committed `ChatUsage` |
| Chat.ChargeChat | supabase/functions/ai-chat/index.ts:187-240 | the admitted branch serves the request; a 200 carries the chat payload of the generated reply, price and remaining credits; 200 exactly when generation, commit and cache write work and the commit is accepted; an accepted commit records `ChatUsage` of the reply, otherwise the entry is rolled back |
| Chat.HandleChat | supabase/functions/ai-chat/index.ts:61-248 | the method gate, a 500 for an unreadable body, the 400 checks with nothing done, and then `Served` and, on a cache miss, the user's and the demo device's daily-limit 429s and `AnswerChat`'s 402, 200 and commit promises |
| Image.QualityOf | supabase/functions/ai-image/index.ts:28-30 | `high_quality` exactly for that string, `standard` otherwise |
| Image.ValidateImage | supabase/functions/ai-image/index.ts:43-53 | `EMPTY_PROMPT`, then `MISSING_IDEMPOTENCY_KEY`; accepted exactly when both pass, with the trimmed fields and the quality |
| Image.ImageRequestOf | supabase/functions/ai-image/index.ts:135-138 | the image request uses the quality's model |
| Image.ImageUsage | supabase/functions/ai-image/index.ts:142-152 | the ledger gets the tokens, no grounded queries and one image |
| Image.ImageAnswer | supabase/functions/ai-image/index.ts:154-168 | the answer's eight keys; a demo device is charged 0 credits |
| Image.WeeklyLimitPayload | supabase/functions/ai-image/index.ts:79-86 | the weekly 429's three keys: the error code, the limit and a quota of 0 |
| Image.ReserveImage | supabase/functions/ai-image/index.ts:89-132 | a failing reservation call answers 500 with nothing changed; otherwise the tables become the image reservation (image operation, visionary mode, the quality's model and tier, the price, as an image for a device), admitted exactly when the row succeeds, with that row, and 402 with its `RefusalPayload` otherwise |
| Image.UserChecks | supabase/functions/ai-image/index.ts:70-87 | over the soft cap 403; at or over the weekly image limit 429; a read error 500 |
| Image.Screen | supabase/functions/ai-image/index.ts:66-87 | the limits and price reads, then the user checks; a request passes exactly when both reads work and, for a user, the budget read works, the user is within the cap, the usage read works and the weekly count is below the limit; a demo device skips the user checks |
| Image.Admit | supabase/functions/ai-image/index.ts:66-132 | a limits error 500, over the cap 403, at the weekly limit 429, all before any reservation; an admission carries the model and price and is reversible; when the screen passes and the reservation call works, the image reservation is made, admitted exactly when its row succeeds, and 402 with that row otherwise |
| Image.ServeImage | supabase/functions/ai-image/index.ts:55-176 | serves the request under the ledger protocol; on a cache miss with a working cache read, a user over the soft cap gets 403 `SOFT_CAP_PAYLOAD` and a user within the cap at the weekly limit gets 429 `WeeklyLimitPayload`, both with no reservation in the log; on a cache miss that passes the screen: a refused row answers 402 with that row and changes nothing, a granted one answers 200 exactly when generation, commit and cache write work and the commit is accepted, and an accepted commit records `ImageUsage`, one image |
| Image.AnswerImage | supabase/functions/ai-image/index.ts:66-176 | after a cache miss, the same, without the cache-miss condition: the soft-cap 403 and the weekly 429 before any reservation, then the 402, 200 and commit promises |
| Image.ChargeImage | supabase/functions/ai-image/index.ts:134-176 | the admitted branch serves the request; a 200 carries the image answer; 200 exactly when generation, commit and cache write work and the commit is accepted; an accepted commit records `ImageUsage`, otherwise the entry is rolled back |
| Image.HandleImage | supabase/functions/ai-image/index.ts:32-184 | the method gate, a 500 for an unreadable body, the 400 checks with nothing done, and then `Served` and, on a cache miss, `AnswerImage`'s soft-cap 403, weekly 429, 402, 200 and commit promises |
| Audio.ValidateAudio | supabase/functions/ai-audio/index.ts:33-42 | `EMPTY_TEXT`, then `MISSING_IDEMPOTENCY_KEY`; accepted exactly when both pass |
| Audio.AudioRequestOf | supabase/functions/ai-audio/index.ts:97-101 | the audio request uses the TTS model |
| Audio.AudioUsage | supabase/functions/ai-audio/index.ts:109-120 | the ledger gets the tokens, no grounded queries and no image |
| Audio.AudioAnswer | supabase/functions/ai-audio/index.ts:122-133 | the answer's six keys |
| Audio.AudioRefusal | supabase/functions/ai-audio/index.ts:89-94 | a refusal answers only the error code and the credits remaining |
| Audio.Admit | supabase/functions/ai-audio/index.ts:55-94 | a price error 500 before any reservation; a failing reservation call 500 with nothing changed; otherwise the tables become the reservation of a chat in mentor mode with the TTS model on the stable tier, not as an image, admitted exactly when its row succeeds, and 402 with `AudioRefusal` of the row otherwise |
| Audio.ChargeAudio | supabase/functions/ai-audio/index.ts:96-141 | the admitted branch serves the request; a 200 carries the audio answer; 200 exactly when generation, commit and cache write work and the commit is accepted; an accepted commit records `AudioUsage`, otherwise the entry is rolled back |
| Audio.AnswerAudio | supabase/functions/ai-audio/index.ts:55-141 | after a cache miss, it serves the request; with the price read and the reservation call working: a refused row answers 402 with that row and changes nothing, a granted one answers 200 exactly when generation, commit and cache write work and the commit is accepted, and an accepted commit records `AudioUsage` |
| Audio.ServeAudio | supabase/functions/ai-audio/index.ts:44-141 | serves the request under the ledger protocol, and on a cache miss `AnswerAudio`'s 402, 200 and commit promises |
| Audio.HandleAudio | supabase/functions/ai-audio/index.ts:22-149 | the method gate, a 500 for an unreadable body, the 400 checks with nothing done, and then `Served` and, on a cache miss, `AnswerAudio`'s 402, 200 and commit promises |
| Balance.DaysUntilSunday | supabase/functions/credits-balance/index.ts:15 | fewer than seven days, landing on a Sunday |
| Balance.DaysAroundWeek | supabase/functions/credits-balance/index.ts:14-18 | the days back to Monday and forward to Sunday add up to six |
| Balance.EndOfWeekIsSundayNight | supabase/functions/credits-balance/index.ts:12-20 | the period end is 23:59:59.999 UTC of a Sunday, not before `now` and less than a week after; the next millisecond is the start of the week after the one the image counter counts |
| Balance.QuotaLeft | supabase/functions/credits-balance/index.ts:45 | `Math.max(0, limit - used)` |
| Balance.UserBalance | supabase/functions/credits-balance/index.ts:42-52 | the user answer's nine keys, not demo |
| Balance.DemoBalance | supabase/functions/credits-balance/index.ts:57-67 | the demo answer's nine keys: the session's credits, images and expiry as the period end, limits 1 and 60, no budget figures (`null`), demo |
| Balance.QuotaAgreesWithImageGate | supabase/functions/credits-balance/index.ts:45 | the shown image quota is positive exactly when the image handler's weekly check would pass |
| Balance.UserReadError | supabase/functions/credits-balance/index.ts:35-40 | the user path fails exactly when one of the four reads fails |
| Balance.SessionError | supabase/functions/credits-balance/index.ts:55 | a session read error always fails; a live session never fails |
| Balance.HandleBalance | supabase/functions/credits-balance/index.ts:22-75 | the GET gate; no wallet or ledger is touched; the user path changes nothing and answers the balance, period end, quota, limits and budget, or a 500; the demo path stores the session it answers, or fails with nothing changed |

## Left out

- The USD estimates (`estimateTextUsd`, `estimateImageUsd`, `gemini.ts:289-302`) and every ledger `metadata` object are left out: they are recorded, never read back by the backend.
- The request field `conversationId` only feeds metadata and is left out.
- Model names take their `config.ts` defaults. The environment overrides of `GEMINI_*_MODEL` are not modelled. So `GetImageModel` is always the standard model, as it is under the default configuration.
- CORS headers are left out: `jsonResponse` is modelled by status and payload. So is the preflight body.
- `fetch`, `safeJson` and the network are left out. The Gemini reply to a payload is an input, either a parsed body or a failure message. The error message, which embeds `JSON.stringify(body)`, is an input string.
- Instants are integers in milliseconds. Their ISO-8601 rendering is not modelled.
- Store.FetchSession: the expiry test compares instants. pricing.ts:367 compares the stored `expires_at` string with the ISO string of now. A database timestamp written with microseconds and `+00:00` can sort below a `Z` string of an earlier instant within the same millisecond, so the source's string order and the model's instant order can disagree there.
- `endOfWeekIso` reads its own clock, and so do `pricing.ts:256`, `:278`, `:300`, `:346` and `:368` (`new Date()` for the week start, the day start twice, and the session expiry). The model uses one `now` for the whole request.
- `Promise.all` rejects with whichever of the four reads fails first in time. The model takes the first in list order.
- Concurrency is not modelled: two requests interleaving between reservation and commit, and races on the upsert or on session creation. Every handler is one atomic sequence of store calls here.
- Demo session ids are a counter rather than database UUIDs. `ledger_id` and the recorded rollback reason are never read and are left out.
- Token counts are integers. A fractional or negative count from the model is not modelled.
- Procedures: the SQL bodies of the four procedures are not part of this model. Their behaviour is an assumption, stated in module `Procedures`. So are the budget procedure and the price procedure: their answers are inputs. One assumed choice: a reservation on a rolled-back request id opens the entry again and charges afresh, rather than returning the recorded outcome. The request id comes from the idempotency key, and a failed attempt caches nothing, so a client's retry with the same key must be able to generate and pay again.
- A new demo session row is inserted with only its fingerprint (`pricing.ts:352`). Its 15 credits, 1 image and 14 days come from the table's column defaults, which are not part of this model. They are assumed to equal the reset values of `pricing.ts:367-374`.
- The `planId` parameter of `getUsageLimits` and `getUserBudgetStatus` always defaults to `default` in the handlers. It is left out.
- `ai-image` imports `getOrCreateDemoSession` and never calls it. The demo reservation creates the session itself, as `Procedures.ReserveDemo` assumes.
- Json.ToJsString: `String(v)` of a non-integral number prints a fixed placeholder rather than its digits.
- Chat.HandleChat: a 200 is stated to carry the chat payload with some `creditsRemaining`. The value is not tied to the reservation row at this level; `Chat.ChargeChat` states it exactly. When a read fails the 402/200 promises are not lifted; those paths answer 500 or 429 under `Served`.
- Image.HandleImage: the same holds for the reservation figures in the 200 answer. `Image.ChargeImage`'s `FreshAnswer` ties them to some reservation row.
- Audio.HandleAudio: the same holds for `creditsRemaining` in the 200 answer.
- Text.UpperAscii: `toUpperCase` is modelled for ASCII letters only, which is all the mode names hold.
