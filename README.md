# FastTrack bot and web API, modelled in Dafny

FastTrack is a Telegram bot with a Next.js web API, built on a Supabase
database. The bot walks a new user through onboarding: weight, then goal
weight, then height, then time zone. After that it logs fasting periods,
photographed meals and weights, and it answers questions and writes summaries
and insights through LLM agents. The web site signs users in with an
eight-character code that they send to the bot, or with the Telegram Login
Widget. It then serves the user's profile and calorie statistics, each
request authenticated by a bearer token.

This project models the logic under that glue and proves what it promises:

- **Database** (`Supabase`): an in-memory copy of the tables.
  - `Tables` is the database as a value. `Store` is the database object, a class whose methods change its fields.
  - Every query function of `lib/supabase.ts` in the core is a pure function, with filter, order, limit and `.single()` semantics. Every write is a pure function returning the result and the new tables.
  - Each `Store` method is proved equal to its function.
  - A refused write is an input (`Faults`): the write returns null and changes nothing.
- **Bot handlers**
  - `StartHandler`, `TextHandler` and `LocationHandler`: the onboarding state machine and the text router.
  - `LoginHandler`, `FastingHandler`, `MenuHandler`, `FoodLoggingHandler`, `PhotoProcessing` and `ErrorHandler`.
  - Each handler is a function on the tables that returns the replies it sends. Handlers that write have a method on `Store` proved equal to that function.
  - The duplicate-photo set is a class, `ProcessedMessages`.
- **Login codes and sessions**
  - `CodeGenerateRoute`: code generation and its bounded uniqueness loop.
  - `CodeStatusRoute`: polling for a code's status, with lazy expiry.
  - `AuthService`: consuming a code.
  - `TelegramAuthRoute`: the Login Widget's data-check-string and sign-in.
  - `ApiAuth`, `MeRoute` and `LogoutRoute`: bearer-token checks.
- **Aggregations**
  - Calories by meal type with percentages and daily averages: `CalorieTally`, `CalorieSlices`, `CaloriesTodayRoute`, `CaloriesPeriodRoute`.
  - The agents' tool bodies: `DailySummaryTools`, `InsightsTools`, `FoodAnalyzerTool`.
  - The mock weight series with its 7-day moving average: `MockWeightData`.
- **Agent replies**: the reply folded from an agent's event stream, and the race against a deadline (`AgentEvents` and the four service modules).
- **Shared modules**: `Strings`, `Numeric`, `Validation`, `Types` and `Messages` hold JavaScript string and number behaviour, the validators, the row types and the reply texts.

Representation choices:

- JavaScript numbers are exact reals, with NaN and the infinities kept as separate cases (`Num`). Times are integer milliseconds. Days are day numbers.
- Inputs stand in for everything outside the program:
  - random bytes and `Math.random()` draws;
  - the clock and local midnight;
  - the HMAC signature;
  - the time-zone oracles;
  - the Telegram file download;
  - each agent, as a function from the message it is sent to the run it performs (its events, its error and its duration).

Behaviour the model keeps as written:

- **Login-code expiry.** A login code expires one minute after it is issued, although the comment beside the constant speaks of five minutes.
- **Login attempts.** The attempt limit of a login code is checked but nothing increments the count.
- **Status of expired codes.**
  - A record with status `expired` whose time has not passed is reported as `pending`.
  - A verified record past its time is reported as `expired`.
- **Eight-character text during onboarding.** Any eight-character alphanumeric text is taken as a login code at every onboarding step.
- **Weight history limit.** The insights agent's weight tool passes its `days` argument as a row limit, not as a date range.
- **Weight logging.** An accepted weight is logged even when the user update is refused.
- **Unchecked candidate code.** The uniqueness loop never checks the sixth candidate code it draws.

## Model

| member | source | states |
|---|---|---|
| Supabase.Single | lib/supabase.ts:78-89 | `.single()` yields the row exactly when one row matched, else null |
| Supabase.Filter | lib/supabase.ts:148-161 | the filtered rows are exactly the table's rows that satisfy the filter, no more |
| Supabase.UpdateWhere | lib/supabase.ts:109-125 | an update applies to exactly the matching rows, keeps positions and leaves the other rows unchanged |
| Supabase.NewestFirstSpec | lib/supabase.ts:148-161 | `order(desc).limit(n)` on a table filled in time order returns min(n, matches) rows, in descending time, and no matching row left out is newer than one returned |
| Supabase.WeightHistory | lib/supabase.ts:148-161 | the weight history has at most `limit` entries, all the user's own logs |
| Supabase.FastingHistory | lib/supabase.ts:234-247 | the fasting history has at most `limit` entries, all the user's own periods |
| Supabase.RecentFoodLogs | lib/supabase.ts:279-292 | the recent food logs are at most `limit` of the user's own logs |
| Supabase.FoodLogsBetween | lib/supabase.ts:294-313 | a log is returned iff it is the user's and its time lies in the closed window |
| Supabase.LastOpenIndex | lib/supabase.ts:183-216 | the position found holds an open period of the user, no later position does, and none is found iff the user has no open period |
| Supabase.ActiveFast | lib/supabase.ts:218-232 | the active fast is an open period of the user; null iff the user has none |
| Supabase.ActiveFastIsLatest | lib/supabase.ts:218-232 | in a table filled in time order, the active fast is the latest-started open period of the user |
| Supabase.SessionByToken | lib/supabase.ts:385-397 | a session is found iff exactly one session has the token and expires strictly after now, and it is that session |
| Supabase.ApplyPatchChangesOnlySupplied | lib/supabase.ts:109-125 | `updateUser` changes exactly the supplied fields plus `updated_at`; id, name and creation time are kept |
| Supabase.CreateUserOn | lib/supabase.ts:91-107 | creation succeeds iff the write is allowed and the id is new; the new row has only id, name and step `weight` set; a failure changes nothing |
| Supabase.UpdateUserOn | lib/supabase.ts:109-125 | the update succeeds iff the user exists and the write is allowed; only that user's row changes; a failure changes nothing |
| Supabase.LogWeightOn | lib/supabase.ts:131-146 | a weight log appends exactly one row stamped now; a refused write changes nothing |
| Supabase.StartFastOn | lib/supabase.ts:167-181 | `startFast` always appends one open period, without looking for an open one |
| Supabase.EndFastOn | lib/supabase.ts:183-216 | `endFast` sets `ended_at` on the user's latest open period only; with none open, or a refused write, it returns null and changes nothing |
| Supabase.CreateFoodLogOn | lib/supabase.ts:265-277 | a food log appends exactly the given row, numbered and stamped now; a refused write changes nothing |
| Supabase.InsertSessionOn | lib/services/auth.ts:57-70 | a session insert appends exactly one session row, or changes nothing when refused |
| Supabase.DeleteSessionOn | lib/supabase.ts:406-417 | after `deleteSession`, a session remains iff it was there and carries another token; no other table changes |
| Supabase.DeleteUserSessionsOn | lib/supabase.ts:419-430 | after `deleteUserSessions`, a session remains iff it was there and belongs to another user |
| Supabase.DeleteSessionIdempotent | lib/supabase.ts:406-417 | deleting a token's sessions twice is the same as once |
| Supabase.PendingWithCode | lib/services/auth.ts:17-22 | the code lookup of `verifyLoginCode` finds a record exactly when one pending record has that code, and then it is that record |
| Supabase.CodeWithValue | app/api/auth/code/status/route.ts:35-39 | the status lookup finds a record exactly when one record has that code, whatever its status, and then it is that record |
| Supabase.UniqueCodeFound | lib/services/auth.ts:17-22 | the only record holding the code (the only pending one, for `verifyLoginCode`) is the one found |
| Supabase.AbsentCodeNotFound | app/api/auth/code/status/route.ts:35-39 | with no record holding the code (no pending one, for `verifyLoginCode`) nothing is found |
| Supabase.InsertLoginCodeOn | app/api/auth/code/generate/route.ts:67-75 | a new code record is pending with no attempts and the given expiry, appended once |
| Supabase.SetCodeStatusOn | lib/services/auth.ts:30-33 | a status update changes the status of the records with that id and nothing else |
| Supabase.MarkCodeVerifiedOn | lib/services/auth.ts:73-80 | verification sets status `verified`, the user and the token on the records with that id and nothing else |
| Supabase.Store.GetUser | lib/supabase.ts:78-89 | `getUser` returns the user's row, or null (not an error) when there is none |
| Supabase.Store.CreateUser | lib/supabase.ts:91-107 | the new state and result are those of `CreateUserOn`; the tables stay valid |
| Supabase.Store.UpdateUser | lib/supabase.ts:109-125 | the new state and result are those of `UpdateUserOn`; the tables stay valid |
| Supabase.Store.LogWeight | lib/supabase.ts:131-146 | the new state and result are those of `LogWeightOn`; the tables stay valid |
| Supabase.Store.StartFast | lib/supabase.ts:167-181 | the new state and result are those of `StartFastOn`; the tables stay valid |
| Supabase.Store.EndFast | lib/supabase.ts:183-216 | the find-then-update by id gives the new state and result of `EndFastOn`; the tables stay valid |
| Supabase.Store.CreateFoodLog | lib/supabase.ts:265-277 | the new state and result are those of `CreateFoodLogOn`; the tables stay valid |
| Supabase.Store.InsertSession | lib/services/auth.ts:57-70 | the new state and result are those of `InsertSessionOn`; the tables stay valid |
| Supabase.Store.DeleteSession | lib/supabase.ts:406-417 | the new state and result are those of `DeleteSessionOn`; the tables stay valid |
| Supabase.Store.DeleteUserSessions | lib/supabase.ts:419-430 | the new state and result are those of `DeleteUserSessionsOn`; the tables stay valid |
| Supabase.Store.InsertLoginCode | app/api/auth/code/generate/route.ts:67-75 | the new state and result are those of `InsertLoginCodeOn`; the tables stay valid |
| Supabase.Store.SetCodeStatus | lib/services/auth.ts:30-33 | the new state is that of `SetCodeStatusOn`; the tables stay valid |
| Supabase.Store.MarkCodeVerified | lib/services/auth.ts:73-80 | the new state is that of `MarkCodeVerifiedOn`; the tables stay valid |
| Supabase.Store.constructor | lib/supabase.ts:10 | a new database is empty and valid |
| Types.StepIndex | lib/types.ts:10 | the five onboarding steps have positions 0 to 4 |
| Types.NextStep | lib/types.ts:10 | the next step is one position further; `completed` is final |
| Types.SenderId | lib/handlers/text.ts:29-32 | a sender id is present iff there is a sender whose id is non-zero (`!telegramId`) |
| Types.FirstNameOf | lib/handlers/start.ts:51 | the first name is the sender's, or "there" when absent |
| Strings.Trim | lib/handlers/text.ts:30 | `trim` leaves no whitespace at either end and never lengthens the text |
| Strings.TrimPadded | lib/handlers/text.ts:30 | trimming recovers any trimmed text from the same text padded with whitespace |
| Strings.TrimStartDropsWhitespace | lib/handlers/text.ts:30 | trimming the start removes exactly a leading run of whitespace |
| Strings.TrimEndDropsWhitespace | lib/handlers/text.ts:30 | trimming the end removes exactly a trailing run of whitespace |
| Strings.TrimIdempotent | lib/handlers/text.ts:30 | trimming twice is trimming once |
| Strings.Split | lib/handlers/start.ts:61 | `split(" ")` has at least one piece and no piece contains the separator |
| Strings.JoinSplit | lib/handlers/start.ts:61 | joining the pieces of a split gives back the text |
| Strings.SplitNoSeparator | lib/handlers/start.ts:61-62 | a text without a space splits into itself alone |
| Strings.AsciiUpper | lib/services/auth.ts:20 | on the ASCII text of a login code, `toUpperCase` keeps the length, upper-cases each ASCII letter and keeps every other character |
| Strings.StrLessTransitive | app/api/auth/telegram/route.ts:36-37 | the default sort order on strings is transitive |
| Strings.StrLessTotal | app/api/auth/telegram/route.ts:36-37 | of two distinct strings, one sorts before the other |
| Numeric.RoundHalfUp | app/api/calories/period/route.ts:60-65 | `Math.round` gives the integer within one half, halves rounded up |
| Numeric.ParseNatToString | lib/utils/validation.ts:18 | `parseFloat` and `Number` read the decimal text of a natural number back as that number |
| Numeric.ParseFloatNoNumber | lib/utils/validation.ts:18-20 | text that does not begin like a number parses to NaN |
| Numeric.ParseFloat | lib/utils/validation.ts:18 | empty or whitespace-only text is NaN to `parseFloat` |
| Numeric.ParseFloatSkipsLeadingWhitespace | lib/utils/validation.ts:18 | leading whitespace does not change what `parseFloat` reads |
| Numeric.StringToNumber | lib/mastra/agents/food-analyzer.ts:78-82 | `Number` of empty or whitespace-only text is 0; text with a `0x`, `0o` or `0b` prefix is NaN or a non-negative whole number |
| Numeric.NumberIgnoresPadding | lib/mastra/agents/food-analyzer.ts:78-82 | whitespace around a literal does not change what `Number` reads |
| Numeric.NonDecimalLiterals | lib/mastra/agents/food-analyzer.ts:46 | `Number` reads "0x1F" as 31, " 0b101" plus a line feed as 5, and "0O17" as 15 |
| Numeric.BadNonDecimalLiterals | lib/mastra/agents/food-analyzer.ts:46 | "0x" (no digits), "0b102" (a digit outside the base) and "-0x1F" (signed) are NaN |
| Validation.IsLoginCode | lib/utils/validation.ts:2-4 | a login code is exactly eight characters, each an ASCII letter of either case or a digit |
| Validation.ValidateNumber | lib/utils/validation.ts:13-33 | valid iff the parsed number is positive and within each given bound (inclusive); NaN or non-positive gives the not-positive error; a valid result carries the parsed value |
| Validation.ValidateWeight | lib/utils/validation.ts:36-41 | a weight passes iff it lies in [20, 300] (NaN compares false and passes) |
| Validation.ValidateHeight | lib/utils/validation.ts:44-49 | a height passes iff it lies in [100, 250] (NaN passes likewise) |
| Validation.BoundsInclusive | lib/utils/validation.ts:24-30 | a number equal to both bounds is accepted with its value |
| Validation.UnboundedAcceptsPositive | lib/utils/validation.ts:24-32 | without bounds any positive whole number is accepted with its value |
| Validation.ZeroRefused | lib/utils/validation.ts:20-22 | "0" is refused as not positive |
| AgentEvents.LastReply | lib/services/insights.ts:29-49 | the loop's reply is "" or the text of one of the qualifying events |
| AgentEvents.Race | lib/services/insights.ts:52-60 | `Promise.race` resolves iff the run ends before the deadline without throwing, and then with the run's reply; a run at or past the deadline rejects with the timeout message, an earlier failure with the run's error |
| AgentEvents.CollectResponse | lib/services/insights.ts:29-49 | the `for await` loop leaves the text of the last qualifying event (its non-empty text parts concatenated), "" when none |
| AgentEvents.OtherEventsIgnored | lib/services/insights.ts:36-39 | events by other authors, or without parts, never change the reply |
| AgentEvents.NoQualifyingEvent | lib/services/insights.ts:29 | with no qualifying event the reply is "" (likewise at line 49) |
| AgentEvents.LastQualifyingWins | lib/services/insights.ts:39-46 | the reply is the text of the last qualifying event; earlier events are discarded |
| AgentEvents.TextlessPartsEmpty | lib/services/insights.ts:41-45 | parts without a non-empty text contribute nothing |
| AgentEvents.TextlessEventResets | lib/services/insights.ts:40 | a later agent event whose parts have no text resets the reply to "" |
| InsightsService.InsightsRequest | lib/services/insights.ts:19-27 | the request is one text part naming the user's id |
| InsightsService.GenerateInsights | lib/services/insights.ts:52-60 | a run of 30 000 ms or more rejects with "Insights generation timed out"; a faster run rejects with its own error or resolves to the folded reply |
| DailySummaryService.DailySummaryRequest | lib/services/daily-summary.ts:18-26 | the request is one text part naming the user's id |
| DailySummaryService.GenerateDailySummary | lib/services/daily-summary.ts:50-58 | a run of 30 000 ms or more rejects with "Daily summary generation timed out"; otherwise its error or the folded reply |
| QuestionsService.QuestionRequest | lib/services/questions.ts:18-26 | the request carries the user's id, a blank line and then the question itself |
| QuestionsService.AnswerQuestion | lib/services/questions.ts:50-58 | a run of 60 000 ms or more rejects with "Question answering timed out"; otherwise its error or the folded reply |
| FoodAnalyzerService.FoodPhotoRequest | lib/services/food-analyzer.ts:21-34 | the image part comes first, then the text naming the user's id |
| FoodAnalyzerService.AnalyzeFoodPhoto | lib/services/food-analyzer.ts:4-56 | with no deadline, the result is the run's error or the folded reply, whatever the run's duration |
| CodeGenerateRoute.CodeOf | app/api/auth/code/generate/route.ts:22-30 | a code has one symbol per byte: symbol i is the alphabet entry at byte i mod 32 |
| CodeGenerateRoute.GenerateCode | app/api/auth/code/generate/route.ts:22-30 | the loop that appends one symbol per byte computes `CodeOf` |
| CodeGenerateRoute.AlphabetShape | app/api/auth/code/generate/route.ts:23 | the alphabet has 32 letters and digits and excludes 0, O, 1 and I |
| CodeGenerateRoute.GeneratedCodeIsLoginCode | app/api/auth/code/generate/route.ts:23-29 | every code of eight bytes is a login code as the bot recognises one |
| CodeGenerateRoute.Candidates | app/api/auth/code/generate/route.ts:42-54 | the candidates are the codes of the successive draws, in order |
| CodeGenerateRoute.SearchFailsIffAllCollide | app/api/auth/code/generate/route.ts:42-61 | the uniqueness loop fails exactly when each of the first five candidates collides |
| CodeGenerateRoute.SearchYieldsFreeCandidate | app/api/auth/code/generate/route.ts:42-54 | a candidate the loop settles on is free and is one of the five checked |
| CodeGenerateRoute.GenerateOn | app/api/auth/code/generate/route.ts:32-96 | generation keeps the tables valid |
| CodeGenerateRoute.IssuedCodeIsStored | app/api/auth/code/generate/route.ts:42-88 | an issued code is a login code that no single pending record held; it is stored once as pending with no attempts and an expiry 60 000 ms away; the response returns exactly that code and expiry |
| CodeGenerateRoute.GenerateFailsOnlyAfterFiveCollisions | app/api/auth/code/generate/route.ts:56-61 | 500 "Failed to generate unique code", with nothing stored, exactly when all five checked candidates collide; the sixth draw never matters |
| CodeGenerateRoute.Generate | app/api/auth/code/generate/route.ts:32-96 | the `while` retry loop and the insert give the response and new state of `GenerateOn` |
| CodeStatusRoute.Classify | app/api/auth/code/status/route.ts:49-98 | a record is past expiry iff `expires_at` < now; it yields a token iff unexpired, `verified` and holding a non-empty token |
| CodeStatusRoute.CodeStatusOn | app/api/auth/code/status/route.ts:20-106 | polling keeps the tables valid, whatever upper-casing `toUpperCase` applies to the URL code |
| CodeStatusRoute.PastExpiryReportsExpired | app/api/auth/code/status/route.ts:49-61 | a record past expiry reports `expired` even when verified; only a pending one is rewritten |
| CodeStatusRoute.StatusOnlyExpires | app/api/auth/code/status/route.ts:51-56 | polling changes nothing but turning pending records with the found id into expired ones |
| CodeStatusRoute.TokenOnlyForLiveVerified | app/api/auth/code/status/route.ts:64-98 | a token is returned exactly for the one unexpired verified record holding a non-empty token, together with the expiry of the single session with that token (else none) and the view of the record's user (else none); every other unexpired record, a verified one without a token included, reports pending with its expiry; an unexpired record changes no table |
| CodeStatusRoute.BadCodes | app/api/auth/code/status/route.ts:23-46 | a missing or empty code gives 400; an unknown code gives 404 |
| CodeStatusRoute.UpperCasedCodeFound | app/api/auth/code/status/route.ts:35-46 | when the upper-cased URL code is held by exactly one record, the answer is a 200 report, never 404 |
| CodeStatusRoute.CodeStatus | app/api/auth/code/status/route.ts:20-106 | the method gives the response and new state of `CodeStatusOn` |
| AuthService.VerifyLoginCodeOn | lib/services/auth.ts:10-92 | verification keeps the tables valid |
| AuthService.SuccessIff | lib/services/auth.ts:10-92 | a login succeeds exactly under the success conditions; every failure carries an error text |
| AuthService.NoPendingRecordChangesNothing | lib/services/auth.ts:17-26 | an unknown or non-pending code fails with "Invalid or expired code" and changes nothing |
| AuthService.ExpiredCodeRefused | lib/services/auth.ts:29-35 | a pending code past expiry fails with "Code has expired" whatever its attempts; it is set to `expired` and no user or session is created |
| AuthService.ExhaustedCodeRefused | lib/services/auth.ts:38-44 | an unexpired code with three or more attempts fails with "Too many attempts" and is set to `expired` |
| AuthService.AttemptsNeverChange | lib/services/auth.ts:38 | no verification changes the `attempts` of any record |
| AuthService.SuccessfulLogin | lib/services/auth.ts:47-80 | on success exactly one session is added for the user with a seven-day expiry; the user exists (created at step `weight` if unknown); the code becomes `verified` with that user and token |
| AuthService.PartialFailures | lib/services/auth.ts:47-85 | a refused user insert fails before any session; a refused session insert leaves the code pending; a refused code update leaves the session in place |
| AuthService.ConsumedAtMostOnce | lib/services/auth.ts:21 | after a successful login the consumed record is no longer pending, so a second lookup cannot find it; the status write is at line 78 |
| AuthService.VerifyLoginCode | lib/services/auth.ts:10-92 | the method's writes give the result and new state of `VerifyLoginCodeOn` |
| AuthService.CompleteLoginOn | lib/services/auth.ts:47-85 | the login step after the checks keeps the tables valid and either leaves the codes as they were or, on success, marks the consumed code verified |
| AuthService.CompleteLogin | lib/services/auth.ts:47-85 | the method's writes give the result and new state of `CompleteLoginOn` |
| LoginHandler.LoginReply | lib/handlers/login.ts:15-23 | success replies with the success text and the menu; failure with the invalid-code text, "Invalid code" when there is no error |
| LoginHandler.HandleLoginCodeOn | lib/handlers/login.ts:7-25 | the handler keeps the tables valid |
| LoginHandler.LoginHandlerReplies | lib/handlers/login.ts:7-25 | without a sender id nothing is verified or sent; with one exactly one reply, the success reply iff the login succeeds, and the first name defaults to "there" |
| LoginHandler.HandleLoginCode | lib/handlers/login.ts:7-25 | the method gives the replies and new state of `HandleLoginCodeOn` |
| TelegramAuthRoute.Insert | app/api/auth/telegram/route.ts:36-37 | inserting a key gives the same keys plus exactly that one |
| TelegramAuthRoute.SortKeys | app/api/auth/telegram/route.ts:36-37 | sorting is a permutation of the keys |
| TelegramAuthRoute.SortKeysOrdered | app/api/auth/telegram/route.ts:36-37 | the sorted keys are in order |
| TelegramAuthRoute.OrderedUnique | app/api/auth/telegram/route.ts:36-37 | two ordered arrangements of the same distinct keys are equal |
| TelegramAuthRoute.KeyOrderIrrelevant | app/api/auth/telegram/route.ts:33-40 | the sorted keys do not depend on the order the payload's keys arrive in |
| TelegramAuthRoute.Lines | app/api/auth/telegram/route.ts:38-39 | filtering out undefined keys yields at most one line per key |
| TelegramAuthRoute.SortedKeysAreSorted | app/api/auth/telegram/route.ts:36-37 | sorting the payload's keys gives the alphabetical order |
| TelegramAuthRoute.CheckStringLayout | app/api/auth/telegram/route.ts:33-40 | the check string lists `auth_date`, `first_name`, `id`, then the defined optional fields in alphabetical order, joined by line feeds; `hash` is never included |
| TelegramAuthRoute.CheckString | app/api/auth/telegram/route.ts:36-40 | sorting the present keys gives the fixed order `auth_date`, `first_name`, `id`, `last_name`, `photo_url`, `username`, each line `key=value` for a defined field |
| TelegramAuthRoute.VerifyAuth | app/api/auth/telegram/route.ts:32-55 | the data are accepted iff the signature of that documented check string equals `hash` |
| TelegramAuthRoute.CheckStringIgnoresHash | app/api/auth/telegram/route.ts:33 | changing `hash` leaves the check string as it was |
| TelegramAuthRoute.AuthTooOld | app/api/auth/telegram/route.ts:79-80 | the age test on seconds is exactly `now > (auth_date + 86400) * 1000` in milliseconds |
| TelegramAuthRoute.TelegramSignInOn | app/api/auth/telegram/route.ts:57-162 | sign-in keeps the tables valid |
| TelegramAuthRoute.RefusalsInOrder | app/api/auth/telegram/route.ts:62-85 | a missing bot token gives 500 first, then a signature mismatch 401, then an old `auth_date` 401 "Authentication expired"; each refusal changes nothing |
| TelegramAuthRoute.SuccessfulSignIn | app/api/auth/telegram/route.ts:90-141 | sign-in succeeds exactly under its conditions; then one session with a seven-day expiry is added, an existing user is not modified and a missing one is created at step `weight` |
| TelegramAuthRoute.SessionFailureKeepsNewUser | app/api/auth/telegram/route.ts:123-141 | a refused session insert gives 500; a user created just before it remains |
| TelegramAuthRoute.TelegramSignIn | app/api/auth/telegram/route.ts:57-162 | the method gives the response and new state of `TelegramSignInOn` |
| ApiAuth.BearerToken | lib/api/auth.ts:38-47 | a token is present iff the header starts with exactly "Bearer "; it is the rest of the header |
| ApiAuth.BearerRoundTrip | lib/api/auth.ts:47 | a token sent as "Bearer <token>" is recovered unchanged |
| ApiAuth.LowerCaseSchemeRefused | lib/api/auth.ts:38-45 | "bearer " in lower case is refused |
| ApiAuth.ValidateSessionOn | lib/api/auth.ts:35-67 | authenticated iff a bearer token is present and a live session has it, with that session's user; otherwise 401 with the missing-header or invalid-session error, so exactly one of id and error |
| ApiAuth.AuthedByLiveSession | lib/api/auth.ts:50-66 | an authenticated request has a session with the header's token expiring strictly after now |
| ApiAuth.NoLiveSessionRefused | lib/api/auth.ts:50-64 | with no live session for the token the answer is 401 "Invalid or expired session" |
| ApiAuth.NoMatchNoSession | lib/supabase.ts:385-397 | with no live session for a token the lookup finds nothing |
| MeRoute.MeOn | app/api/auth/me/route.ts:24-30 | a request without a "Bearer " header is refused with 401 before any lookup |
| MeRoute.MeFollowsValidateSession | app/api/auth/me/route.ts:24-76 | 401 exactly when the session check refuses; then 404 exactly when the user has no row; otherwise the six user fields and the session's expiry |
| MeRoute.MeIgnoresOtherUsers | app/api/auth/me/route.ts:51-76 | the response depends only on the session's own user row |
| LogoutRoute.LogoutOn | app/api/auth/logout/route.ts:21-57 | logout keeps the tables valid |
| LogoutRoute.LogoutOutcomes | app/api/auth/logout/route.ts:24-49 | without a "Bearer " header (401) or when the delete is refused (500) nothing is deleted; otherwise success even when nothing matched, every session with the token gone and everything else untouched |
| LogoutRoute.LoggedOutHeaderRefused | app/api/auth/logout/route.ts:36-49 | after a successful logout the same header no longer authenticates |
| LogoutRoute.LogoutIdempotent | app/api/auth/logout/route.ts:49 | logging out twice equals logging out once, and both report success |
| LogoutRoute.Logout | app/api/auth/logout/route.ts:21-57 | the method gives the response and new state of `LogoutOn` |
| StartHandler.PromptNamesStep | lib/handlers/start.ts:11-46 | each step has one prompt that names it back, so different steps get different prompts |
| StartHandler.DeepLinkArgument | lib/handlers/start.ts:60-63 | a deep-link argument is always trimmed |
| StartHandler.StartOutcomes | lib/handlers/start.ts:49-96 | no id gives only the identification error; a login code after `/start` goes to the login handler alone; a completed user is welcomed back without a prompt; an incomplete one is prompted at an unchanged step; a new one is created at `weight` and prompted, or gets the setup error |
| StartHandler.LoginCodeIsWord | lib/utils/validation.ts:2-4 | a login code has no space and is already trimmed |
| StartHandler.DeepLinkArgumentOf | lib/handlers/start.ts:60-63 | the argument of `/start <code>` is the code |
| StartHandler.SecondWord | lib/handlers/start.ts:61 | `a b` with space-free words splits into exactly `[a, b]` |
| StartHandler.DeepLinkLogsIn | lib/handlers/start.ts:60-68 | `/start <code>` runs the login handler and nothing else: no lookup and no user creation |
| StartHandler.HandleStart | lib/handlers/start.ts:49-96 | the method gives the replies and new state of `HandleStartOn` |
| TextHandler.RoutingBeforeLookup | lib/handlers/text.ts:30-51 | a menu-button label gets no reply and changes nothing; a login code goes to the login handler before any lookup, at any step; an unknown sender gets the begin-journey text and no row is created |
| TextHandler.LoginCodeNotButton | lib/handlers/text.ts:13-18 | no menu-button label is a login code |
| TextHandler.LoginCodeTextLogsIn | lib/handlers/text.ts:40-43 | a login code typed at any step, or after onboarding, is handled as a login |
| TextHandler.CompletedUserAsks | lib/handlers/text.ts:54-68 | a completed user's text goes to the questions agent: the thinking notice, then the answer or the error text on an empty answer, failure or timeout; nothing is written |
| TextHandler.TimezoneStepOutcomes | lib/handlers/text.ts:71-113 | at `timezone` the manual button only re-prompts; a valid zone is stored and completes onboarding; an invalid one changes nothing |
| TextHandler.NumericRefusals | lib/handlers/text.ts:116-174 | text that is not a positive number, a weight outside [20, 300] or a height outside [100, 250] is refused with no table changed |
| TextHandler.NumericAccepted | lib/handlers/text.ts:126-174 | an accepted weight sets `current_weight`, moves to `goal` and appends one weight log; a goal sets `goal_weight` and moves to `height`; a height sets `height` and moves to `timezone` |
| TextHandler.StepAdvancesByOne | lib/handlers/text.ts:24-179 | whatever the text, the sender's step stays or moves one position forward, never back, and no other user's row changes |
| TextHandler.LoginKeepsKnownUsers | lib/handlers/text.ts:40-43 | the login path never changes the row of a known user |
| TextHandler.HandleText | lib/handlers/text.ts:24-179 | the method gives the replies and new state of `HandleTextOn` |
| TextHandler.TimezoneStep | lib/handlers/text.ts:71-113 | the method's update gives the replies and new state of the timezone step |
| TextHandler.NumericStep | lib/handlers/text.ts:116-174 | the method's updates and weight log give the replies and new state of the numeric steps |
| LocationHandler.LocationOutcomes | lib/handlers/location.ts:8-53 | no location or id, an unknown user or a user not at `timezone` changes nothing and gets no reply; otherwise the looked-up zone is stored, the step becomes `completed`, the with-goal message is chosen iff current − goal > 0, and there is no reply when the update returns null |
| LocationHandler.HandleLocation | lib/handlers/location.ts:8-53 | the method gives the replies and new state of `HandleLocationOn` |
| FastingHandler.BreakFastOutcomes | lib/handlers/fasting.ts:8-48 | no id changes nothing; an open fast is ended and reported, or the end error is sent with nothing changed; otherwise a fast is started, or the start error is sent with nothing changed |
| FastingHandler.ToggleOpens | lib/handlers/fasting.ts:30-37 | a toggle that goes through with no open period appends one, which becomes the latest open one |
| FastingHandler.ToggleCloses | lib/handlers/fasting.ts:15-23 | a toggle that goes through with an open period closes exactly the latest one at `now` |
| FastingHandler.ClosedAppendLeavesNoneOpen | lib/supabase.ts:183-216 | adding a closed period to a user with no open period leaves them with none |
| FastingHandler.CloseKeepsOneOpenEach | lib/supabase.ts:183-216 | closing an open period keeps "at most one open period per user" |
| FastingHandler.OpenKeepsOneOpenEach | lib/supabase.ts:167-181 | opening a period for a user with none open keeps the invariant |
| FastingHandler.BreakFastKeepsOneOpenEach | lib/handlers/fasting.ts:13-44 | the toggle keeps every user at one open period at most |
| FastingHandler.StartFastAloneBreaksOneOpen | lib/supabase.ts:167-181 | `startFast` on its own, for a user with an open period, leaves two open |
| FastingHandler.BreakFastFlips | lib/handlers/fasting.ts:13-44 | a toggle that goes through flips whether the sender has an open period |
| FastingHandler.TwoTogglesCloseOnePeriod | lib/handlers/fasting.ts:13-44 | two toggles from no open fast leave the table plus one closed period, from the first toggle's time to the second's |
| FastingHandler.BreakFast | lib/handlers/fasting.ts:8-48 | the method gives the replies and new state of `BreakFastOn` |
| MenuHandler.FixedPromptButtons | lib/handlers/menu.ts:9-15 | Food Log and Ask Questions send only their prompt with the menu, for any sender and without calling an agent (likewise at lines 73-78) |
| MenuHandler.DailySummaryOutcomes | lib/handlers/menu.ts:17-43 | Daily Summary sends nothing without an id and the onboarding notice unless the user is completed; otherwise exactly two replies: the generating notice, then the agent's text, or the error text when the text is empty or the run fails or times out |
| MenuHandler.InsightsOutcomes | lib/handlers/menu.ts:45-71 | Get Insights behaves the same with its own notices and its own agent |
| MenuHandler.IneligibleNeverCallsAgent | lib/handlers/menu.ts:22-26 | for an ineligible sender the replies are the same whatever the agents would do (likewise at lines 50-54) |
| MenuHandler.SlowAgentGivesError | lib/handlers/menu.ts:35-41 | an agent run of 30 seconds or more ends in the generation error (likewise at lines 63-69) |
| PhotoProcessing.LargestPhoto | lib/utils/photo-processing.ts:5-7 | the largest photo is the last element of a non-empty list |
| PhotoProcessing.MimeTypeFor | lib/utils/photo-processing.ts:21 | `image/png` iff the path is present and ends with ".png"; `image/jpeg` otherwise, including no path |
| PhotoProcessing.UpperCasePngIsJpeg | lib/utils/photo-processing.ts:21 | the suffix test is case-sensitive: ".PNG" is sent as JPEG |
| PhotoProcessing.PngIsPng | lib/utils/photo-processing.ts:21 | any path ending in ".png" is sent as PNG |
| PhotoProcessing.DownloadPhoto | lib/utils/photo-processing.ts:10-26 | a download carries the file's base64 data and the MIME type of its path; it fails when the file lookup fails |
| FoodLoggingHandler.PhotoOutcomes | lib/handlers/food-logging.ts:9-66 | no photos, or a seen message id, gives no reply and records nothing; otherwise the id is recorded first; a missing or incomplete user gets the onboarding notice; a completed one gets the analysing notice, then the agent text, the meal-logged text when it is empty, or the analysis error |
| FoodLoggingHandler.SeenOnlyGrows | lib/handlers/food-logging.ts:26 | the handler only ever adds to the processed ids |
| FoodLoggingHandler.SecondDeliveryIgnored | lib/handlers/food-logging.ts:20-23 | a message delivered twice is handled once: the second delivery gets no reply and records nothing new |
| FoodLoggingHandler.ProcessedMessages.constructor | lib/handlers/food-logging.ts:9-12 | the processed-id set starts empty |
| FoodLoggingHandler.ProcessedMessages.HandlePhotoMessage | lib/handlers/food-logging.ts:9-66 | the method updates the set in place to give the replies and ids of `HandlePhotoOn` |
| ErrorHandler.ErrorMessage | lib/utils/error-handler.ts:13-17 | an `Error` shows its own message, a string is shown verbatim, anything else shows the default |
| ErrorHandler.ErrorReplies | lib/utils/error-handler.ts:6-52 | the reply is "Sorry, something went wrong: " followed by the chosen message; `handleError` uses the menu; a given keyboard is used, else the menu |
| ErrorHandler.DefaultOnlyForOther | lib/utils/error-handler.ts:13-17 | the default message appears only for a value that is neither an `Error` nor a string |
| ErrorHandler.DatabaseErrorMessage | lib/utils/error-handler.ts:26-32 | one fixed text for an `Error`, another for anything else, never the error's own message |
| CalorieTally.MealTypes | app/api/calories/today/route.ts:36-43 | the meal types are listed once each |
| CalorieTally.MealTypesCover | app/api/calories/today/route.ts:39-43 | the listed meal types are exactly those of the logs, a null type counting as "other" |
| CalorieTally.AbsentMealTypeSumsToZero | app/api/calories/today/route.ts:39-43 | a meal type no log has totals 0 |
| CalorieTally.GroupsAddUp | app/api/calories/period/route.ts:50-57 | before averaging, the group totals add up to the total |
| CalorieTally.GroupAtMostTotal | app/api/calories/period/route.ts:50-57 | with no negative calories a group never exceeds the total |
| CalorieTally.TallyStep | app/api/calories/period/route.ts:53-57 | one more turn of the loop keeps the running tally faithful |
| CalorieTally.SumOverStep | app/api/calories/period/route.ts:53-57 | one more log adds its calories to exactly one of the distinct meal types, when its own is among them |
| CalorieTally.Tally | app/api/calories/period/route.ts:50-57 | the loop lists the meal types in order of first appearance, each with its sum (null calories as 0, null type as "other"), and the total |
| CalorieSlices.Percentage | app/api/calories/period/route.ts:68-72 | the percentage is round(calories / total × 100) when the total is positive, else 0 |
| CalorieSlices.PercentageBounded | app/api/calories/period/route.ts:68-72 | a share of a positive total lies between 0 and 100 percent |
| CalorieSlices.Slices | app/api/calories/period/route.ts:68-72 | one slice per meal type, in order, with its calories and percentage |
| CaloriesTodayRoute.TodayTotals | app/api/calories/today/route.ts:4-60 | a refused session check is returned unchanged; otherwise one slice per meal type of today's logs, each once, with its sum, the slices adding up to the total |
| CaloriesTodayRoute.TodayPercentagesBounded | app/api/calories/today/route.ts:46-50 | with no negative calories every percentage is between 0 and 100 |
| CaloriesTodayRoute.CaloriesToday | app/api/calories/today/route.ts:4-60 | the method gives the response of `CaloriesTodayOn` |
| CaloriesPeriodRoute.DaysIn | app/api/calories/period/route.ts:24-32 | "7d" is 7 days, "30d" is 30, anything else 1 |
| CaloriesPeriodRoute.DailyAverages | app/api/calories/period/route.ts:60-65 | the averaged map has exactly the listed meal types |
| CaloriesPeriodRoute.AverageByDay | app/api/calories/period/route.ts:61-64 | the second loop replaces each entry by its rounded daily average and keeps the keys |
| CaloriesPeriodRoute.PeriodTotals | app/api/calories/period/route.ts:4-82 | a refused session check is returned unchanged; otherwise the period and day count are echoed, the window spans exactly those days, and each slice and the total are the window's sums, divided by the days and rounded when more than one |
| CaloriesPeriodRoute.OneDayMatchesToday | app/api/calories/period/route.ts:13-32 | without a recognised period the answer matches the today route's |
| CaloriesPeriodRoute.Summarise | app/api/calories/period/route.ts:50-72 | the tally of the window's logs, averaged when longer than a day, gives the slices and total |
| CaloriesPeriodRoute.CaloriesPeriod | app/api/calories/period/route.ts:4-82 | the method gives the response of `CaloriesPeriodOn` |
| DailySummaryTools.UserWeightsOn | lib/mastra/agents/daily-summary-agent.ts:27-39 | an unknown user gets the error status; a known one only the two weights |
| DailySummaryTools.SumOfAppend | lib/mastra/agents/daily-summary-agent.ts:60-68 | the column sum over two runs of logs is the sum of their sums |
| DailySummaryTools.CaloriesSumIsRouteTotal | lib/mastra/agents/daily-summary-agent.ts:60-68 | the tool's calorie sum equals the calorie routes' total |
| DailySummaryTools.ItemNames | lib/mastra/agents/daily-summary-agent.ts:79-84 | the item names are one per food item in order, or [] when there are none |
| DailySummaryTools.TodaysFoodLogsSpec | lib/mastra/agents/daily-summary-agent.ts:47-87 | `no_data` iff no logs today; otherwise `total_meals` is the log count, each total is the rounded column sum with nulls as 0, and `meals` lists the logs in order |
| InsightsTools.WeightToLose | lib/agents/insights-agent.ts:26-28 | `weight_to_lose` is current − goal iff both are truthy (non-null and non-zero), else null |
| InsightsTools.ProfileSpec | lib/agents/insights-agent.ts:16-31 | an unknown user gets the error; a known one the three measurements and `weight_to_lose` |
| InsightsTools.WeightHistoryToolSpec | lib/agents/insights-agent.ts:40-57 | `no_data` iff `days` is 0 or the history is empty; otherwise `total_entries` is the number listed, at most `days` |
| InsightsTools.WeightHistoryNewest | lib/agents/insights-agent.ts:40-57 | the listed entries are the user's newest, newest first |
| InsightsTools.RoundTenth | lib/agents/insights-agent.ts:78-89 | rounding to one decimal stays within 0.05 |
| InsightsTools.SumHoursBetween | lib/agents/insights-agent.ts:78-89 | durations between lo and hi sum to between n·lo and n·hi |
| InsightsTools.MeanBetween | lib/agents/insights-agent.ts:78-89 | a mean of values between lo and hi lies between them |
| InsightsTools.FastingHistoryToolSpec | lib/agents/insights-agent.ts:66-96 | only completed periods count; `no_data` iff none; the average is the mean hours to one decimal; at most the first 7 completed periods are listed |
| InsightsTools.AverageWithinDurations | lib/agents/insights-agent.ts:78-89 | the reported average lies between the shortest and longest fast, to the rounding |
| InsightsTools.FastingStatsSpec | lib/agents/insights-agent.ts:70-94 | over completed periods: `no_data` iff there are none; the count is all of them; the average is the mean hours within 0.05; the first min(n, 7) periods are listed with their spans |
| InsightsTools.CompletedOfHistory | lib/agents/insights-agent.ts:67-68 | the completed periods of a user's history are that user's, all ended, and none exist iff every period is open |
| InsightsTools.FoodStatsSpec | lib/agents/insights-agent.ts:108-129 | over the fetched logs: `no_data` iff there are none; the count, the mean calories within 0.5, and the first min(n, 10) meals in order |
| InsightsTools.RecentFoodLogsEmpty | lib/agents/insights-agent.ts:106 | the fetched list is empty iff the limit is 0 or the user has no log |
| InsightsTools.FoodLogsToolSpec | lib/agents/insights-agent.ts:105-131 | `no_data` iff no logs; the average is round(total / count); at most ten recent meals are listed in order |
| FoodAnalyzerTool.NumberOrZero | lib/mastra/agents/food-analyzer.ts:46 | `Number(x) \|\| 0` turns NaN and 0 into 0 and keeps every other number (likewise at line 57) |
| FoodAnalyzerTool.ItemOf | lib/mastra/agents/food-analyzer.ts:54-60 | mapping an element throws exactly for null or undefined |
| FoodAnalyzerTool.MapItems | lib/mastra/agents/food-analyzer.ts:54-60 | the mapped array has the same length and order, unless an element throws |
| FoodAnalyzerTool.ParseFoodItemsSpec | lib/mastra/agents/food-analyzer.ts:39-62 | neither string nor array gives []; a string that is not a JSON array gives []; an array gives one entry per element in order |
| FoodAnalyzerTool.ParseFoodItems | lib/mastra/agents/food-analyzer.ts:39-62 | only an array input can throw; an input that is neither a string nor an array gives [] |
| FoodAnalyzerTool.ToStr | lib/mastra/agents/food-analyzer.ts:45 | `String` keeps a string, gives "" for `[]` and "[object Object]" for an object |
| FoodAnalyzerTool.SingletonText | lib/mastra/agents/food-analyzer.ts:45 | a one-element array prints as its element, null and undefined as "" |
| FoodAnalyzerTool.ToNumber | lib/mastra/agents/food-analyzer.ts:46 | `Number` gives 0 for null, false, `[]` and blank text, 1 for true, NaN for undefined and objects |
| FoodAnalyzerTool.ArrayNumbers | lib/mastra/agents/food-analyzer.ts:46 | `[null]` is 0, and a one-element array reads as its element's text |
| FoodAnalyzerTool.ItemNormalised | lib/mastra/agents/food-analyzer.ts:45-47 | a missing or empty name or portion becomes ""; missing, non-numeric or zero calories become 0; a well-formed entry is kept (likewise at lines 56-58) |
| FoodAnalyzerTool.DigitCaloriesRead | lib/mastra/agents/food-analyzer.ts:46 | calories written as a digit string are read as that number (likewise at line 57) |
| FoodAnalyzerTool.Column | lib/mastra/agents/food-analyzer.ts:78-84 | a coerced number is stored iff finite, as its value |
| FoodAnalyzerTool.IdColumn | lib/mastra/agents/food-analyzer.ts:78 | a coerced id is stored iff it is a whole number |
| FoodAnalyzerTool.ZoneFor | lib/mastra/agents/food-analyzer.ts:86-87 | the meal time zone is the user's, or "UTC" when the user or zone is missing |
| FoodAnalyzerTool.LogFoodSpec | lib/mastra/agents/food-analyzer.ts:76-112 | success reports the id of the one appended row with the coerced numbers, parsed items and meal type; any failure gives status `error` and changes nothing |
| FoodAnalyzerTool.LogFoodToDatabase | lib/mastra/agents/food-analyzer.ts:76-112 | the method gives the result and new state of `LogFoodOn` |
| MockWeightData.MockWeightRange | lib/mock/weightData.ts:22-25 | with draws in [0, 1) every weight lies between 78.3 and 85.7 kg |
| MockWeightData.MockWeights | lib/mock/weightData.ts:18-32 | 90 weights, each that of its day's draw |
| MockWeightData.SumBetween | lib/mock/weightData.ts:35-38 | a sum of values between lo and hi lies between n·lo and n·hi |
| MockWeightData.WindowAverageBetween | lib/mock/weightData.ts:35-38 | the moving average lies within the lightest and heaviest weight of its week |
| MockWeightData.ConstantWeekAverage | lib/mock/weightData.ts:35-38 | a constant week averages to that weight |
| MockWeightData.GenerateMockData | lib/mock/weightData.ts:14-41 | 90 points on consecutive days ending today, each with its draw's weight; the first six without average, every later one the rounded mean of its week |

## Left out

- Network, database transactions and concurrency. Supabase calls are replaced by in-memory tables. Read-then-write checks run without transactions, so races between requests are not modelled.
- Database read errors. Reads always succeed. The source treats a read error like "no row".
- Exceptions from the Telegram API: `ctx.reply` failures, the `catch` blocks that report them, and the "Verification failed" and 500 paths of the routes' outer `try`. Only the failures the model names (refused writes, agent errors, the download) reach a handler.
- Cryptography: SHA-256 and HMAC-SHA-256 of the Login Widget check. The signature is a function parameter. Random bytes and session tokens are inputs.
- TelegramAuthRoute.AuthData: the posted payload is taken to hold exactly the typed widget fields, with an absent optional field as `None`. The source keeps every posted key except `hash` and drops only `undefined` values, so a JSON `null` field (`key=null`) or an extra key would enter its check string and does not enter the model's.
- Timers. Only the outcome of `Promise.race` is modelled: the run's result if it ends before the deadline, otherwise the timeout. A run that keeps going in the background is not.
- Time zones and dates. `geo-tz`, `Intl` zone validation, local midnight and ISO timestamps are oracles or integers. `getMealTypeByTime` is an input. `formatFastDuration` is not part of this model. The calorie windows are fixed multiples of `DayMs` (86 400 000 ms) from the given start of day; the source builds them with local `setHours(23, 59, 59, 999)` and `setDate`, so a day that crosses a daylight-saving change is 23 or 25 hours long there and not here.
- Floating point. Numbers are exact reals, and rounding is `Math.round` on exact values. `toFixed` and float error are not modelled.
- Reply texts and keyboards. They are constants. Several of them, imported by the handlers, are not part of this model, so their wording is a placeholder.
- Agent definitions, prompts and runners. Each agent is a function from its input message to a run.
- UI, plumbing and scripts: React pages, the echo bot, polling scripts, and the HTTP part of the Telegram photo download.
- Supabase.WeightHistory: its own contract states only the bound and the membership. Its order and "newest" property are in Supabase.NewestFirstSpec.
- Supabase.FastingHistory: as for WeightHistory. The order is proved in Supabase.NewestFirstSpec.
- Supabase.RecentFoodLogs: as for WeightHistory. The order is proved in Supabase.NewestFirstSpec.
- Supabase.Store: the writes that stamp a time (`LogWeight`, `StartFast`, `CreateFoodLog`) require that the clock has not passed `now`. Time never runs backwards in the model, so the tables stay sorted by time.
- AuthService.VerifyLoginCodeOn: the code is upper-cased with ASCII rules. Its callers pass only login-code text, which is ASCII, and there `toUpperCase` does the same.
- CodeStatusRoute.CodeStatusOn: JavaScript's full Unicode `toUpperCase` is the parameter `upper`, not a definition. For example, "ß" becomes "SS". The lemmas hold for every `upper`; which stored code a non-ASCII URL code maps to is not modelled.
- CaloriesTodayRoute.CaloriesTodayOn: the query has no `.order(...)`. The model reads logs in table order, which is time order in valid tables. `Object.entries` lists integer-like keys first; the model lists meal types in first-appearance order. Neither changes a total or a percentage.
- CaloriesPeriodRoute.CaloriesPeriodOn: the same as for CaloriesTodayOn: table order, and first-appearance order of the meal types.
- MockWeightData.GenerateMockData: weights are tenths of a kilogram and days are day numbers. The trend arithmetic is exact rather than floating point.
