# WhatsApp auto-reply server: a Dafny model

This project models the server core of a multi-tenant WhatsApp auto-reply bot, and proves properties of it.
Each signed-in user links their own WhatsApp account. The server streams login and status events to the
user's browser over Server-Sent Events (SSE). When the user's AI toggle is on, it answers incoming personal
messages with a reply generated by Gemini, or by GROQ when Gemini has no answer.

The model is functional: immutable maps and sequences keyed by user id and chat id, and pure state-transition
functions. There is one module per source file:

| module | source | what it holds |
|---|---|---|
| `Filters` | `server/src/utils/filters.js` | the personal-chat predicate |
| `Memory` | `server/src/services/memory.js` | the bounded per-chat conversation memory |
| `Metrics` | `server/src/services/metrics.js` | the per-user usage counters |
| `Sse` | `server/src/utils/sse.js` | the subscriber registry with sinks that log frames |
| `Ai`, `AiErrors` | `server/src/services/ai.js` | per-user AI configuration, the cooldown gate, prompt rendering, the retry-delay parser, the token estimate, the Gemini-then-GROQ fallback |
| `Lifecycle` | `waManager.js`, `whatsapp.js` | the client/ready machine both files share |
| `WaManager` | `server/src/services/waManager.js` | the per-user session registry and its event listeners |
| `WhatsApp` | `server/src/services/whatsapp.js` | the single-tenant service |
| `Auth` | `server/src/middleware/auth.js` | token extraction and the 401-or-next decision |
| `Server` | `server/src/index.js` | the routes, wire-once guard, reply pipeline, AI toggle and metrics view |

Support modules hold the rest:

- `Wrappers` holds `Option` and `Result`.
- `Js` holds JavaScript values and truthiness.
- `Strings` holds JavaScript `trim`, ASCII `toLowerCase`, `includes`, `join`, UTF-16 length and decimal digits.
- `Words` holds the word count and the rounding behind "time saved".

Everything outside the process becomes a parameter:

- Clock readings (`Date.now()`) are parameters. `replyFor` reads the clock twice: `now` for the cooldown gate and `errorAt` for the new deadline.
- Each Gemini call outcome is a value: `Generated(text)`, `Failed(message)` or `TimedOut`.
- Each GROQ call outcome is a value: `Completed(content)` or `Threw(message)`.
- The identity provider's verdict is a function from tokens to verdicts.
- The WhatsApp engine's events (`qr`, `ready`, `authenticated`, `disconnected`, `message`) are values, and so is the rendered QR image.
- Initialisation outcomes, send failures and tear-down failures are parameters.
- A subscriber's sink is an append-only log of `(event, data)` frames with a `closed` flag. A failing sink is one whose writes are all skipped.
- Random subscriber ids are replaced by a hub-wide counter, which makes every id fresh.

The server-wide invariant `Server.Valid` ties the pieces together:

- the hub never holds an empty subscriber map, and every subscriber id is below the id counter;
- every session is stored under its own user, and its current client is numbered below its build counter;
- a user's model uses their stored key, or else the global key, and every GROQ key has its client;
- memory keeps the last 10 turns per chat;
- every wired user has exactly one listener per event name, and unwired users have none;
- on every user's meter each success has one attempt and exactly one provider call.

Routes, engine events and the reply pipeline all preserve it.

Behaviours of the code a reader may not expect:

- `sendMessage` checks only that a client exists, not that it is ready.
- A failed `initialize` leaves the client stored, so later `ensure`/`start` calls do nothing and never retry.
- The QR phase pushed to the browser is named `qr_ready`, and the waiting phase `waiting_qr`.
- Conversation memory is keyed by chat id alone, so two users whose accounts talk to the same chat id share one history (`Server.ChatHistoryIsSharedAcrossUsers`).
- The retry-delay pattern is matched case-insensitively, but only the exact unit `ms` is read as milliseconds. A delay written `5MS` therefore counts as 5 seconds (`AiErrors.UpperCaseMillisReadAsSeconds`).

## Model

| member | source | states |
|---|---|---|
| Js.AsString | server/src/services/ai.js:25 | a value is read as a string exactly when its JavaScript type is string, and then it is that string |
| Strings.TrimStart | server/src/services/ai.js:26 | the result is a suffix of the input, everything cut off is whitespace, and the result does not start with whitespace |
| Strings.TrimEnd | server/src/services/ai.js:26 | the result is a prefix of the input, everything cut off is whitespace, and the result does not end with whitespace |
| Strings.Trim | server/src/services/ai.js:26 | `trim()` yields a trimmed infix of the input, framed by whitespace on both sides, and is empty exactly when the input is all whitespace |
| Strings.TrimPasses | server/src/services/ai.js:26 | the two passes of trim compose into a trimmed infix at the offset where the leading whitespace ends |
| Strings.SliceFacts | server/src/services/ai.js:26 | trimming the end after the start leaves an infix followed only by whitespace; it is empty exactly when the whole input is whitespace |
| Strings.WhitespaceConcat | server/src/services/ai.js:26 | two all-whitespace strings concatenate to an all-whitespace string |
| Strings.TrimOfTrimmed | server/src/services/ai.js:26 | trimming a string with no whitespace at either end returns it unchanged |
| Strings.TrimIdempotent | server/src/services/ai.js:26 | trimming twice equals trimming once |
| Strings.ContainsAt | server/src/services/ai.js:108 | `includes` holds exactly when the pattern occurs at some position |
| Strings.MissingCharNotContained | server/src/services/ai.js:108 | a text lacking one of the pattern's characters does not contain the pattern |
| Strings.ToLower | server/src/services/ai.js:108 | lower-casing keeps the length and maps each character through ASCII case folding |
| Strings.Join3 | server/src/services/ai.js:92 | joining three parts places the separator between each adjacent pair |
| Strings.Join4 | server/src/services/ai.js:75-80 | joining four parts places the separator between each adjacent pair |
| Strings.Utf16Length | server/src/services/ai.js:103 | the UTF-16 length lies between the number of code points and twice that |
| Strings.NatToDigits | server/src/services/ai.js:109 | every number has a non-empty decimal spelling made of digits only |
| Strings.ParseNatToDigits | server/src/services/ai.js:112 | round trip: parsing a number's decimal spelling gives the number back |
| Filters.IsPersonalChat | server/src/utils/filters.js:3-11 | a chat is personal iff it has no kind: a truthy group, newsletter or community flag, or the matching server suffix, excludes it; an absent chat is personal |
| Filters.PersonalWhenUnmarked | server/src/utils/filters.js:6-10 | converse direction: a chat with no truthy flag and no excluding server suffix is personal |
| Memory.NewStore | server/src/services/memory.js:5-8 | a fresh store keeps its limit and returns the empty history for every chat |
| Memory.Evict | server/src/services/memory.js:15 | dropping from the front leaves exactly the last `min(length, limit)` turns, in order |
| Memory.GetRecent | server/src/services/memory.js:19-21 | an unknown chat has the empty history; a known chat returns its stored list |
| Memory.AddMessage | server/src/services/memory.js:10-17 | an empty chat id or text changes nothing; otherwise the chat's list becomes the last `min(limit, n+1)` turns of the old list plus the new turn, so it never exceeds the limit; other chats are untouched |
| Memory.Clear | server/src/services/memory.js:23-25 | clearing an empty id changes nothing; otherwise the chat's history becomes empty and every other chat keeps its history |
| Memory.RecentTurnSurvives | server/src/services/memory.js:12-15 | a turn k from the end, k below the limit, is k+1 from the end after one more insertion |
| Memory.AddedTurnNearEnd | server/src/services/memory.js:12-15 | a turn just added is among the last two turns of its chat, and stays so after one more insertion |
| Memory.NearEndSurvives | server/src/services/memory.js:12-15 | with a limit above two, a turn among the last two survives the next insertion |
| Memory.Turns | server/src/services/memory.js:13 | the turns built from a sequence of texts are one per text, in order |
| Memory.TurnsCons | server/src/services/memory.js:13 | building turns distributes over taking the first text |
| Memory.TurnsSuffix | server/src/services/memory.js:13 | building turns commutes with dropping a prefix of the texts |
| Memory.AddAllKeepsWindow | server/src/services/memory.js:10-17 | any run of insertions leaves the chat holding the last `limit` turns of the whole sequence: the FIFO window |
| Memory.WindowOfShort | server/src/services/memory.js:15 | a sequence within the limit is its own window |
| Memory.WindowStep | server/src/services/memory.js:15 | taking the window after one insertion and then continuing equals windowing the whole sequence |
| Memory.Window | server/src/services/memory.js:15 | the window holds `min(limit, length)` elements |
| Memory.WindowOfWindow | server/src/services/memory.js:15 | windowing early loses nothing the final window would keep |
| Memory.WindowAfterManyInserts | server/src/services/memory.js:10-17 | after more insertions than the limit into an empty chat, exactly the last `limit` texts remain, oldest first |
| Sse.Write | server/src/utils/sse.js:59-64 | a write appends the frame to a healthy sink; a failing sink is left as it was, because its exception is caught |
| Sse.End | server/src/utils/sse.js:49 | ending closes a healthy sink and never changes its frames |
| Sse.AddUserClient | server/src/utils/sse.js:35-42 | returns an id not previously registered for the user, registers the sink under it with exactly one `connected` frame, throws iff the sink fails, and leaves every other user's map alone |
| Sse.RemoveUserClient | server/src/utils/sse.js:44-53 | unknown user: no-op; otherwise the id is removed and its sink ended, the user's entry is dropped iff it became empty, and other users are untouched |
| Sse.WriteAll | server/src/utils/sse.js:59-64 | every healthy sink of the map receives the frame, every failing one is unchanged, and no id is added or removed |
| Sse.BroadcastTo | server/src/utils/sse.js:55-65 | a user with no subscribers is a no-op; otherwise one frame goes to each healthy sink of that user and to no sink of any other user |
| Sse.BroadcastIsolatesFailures | server/src/utils/sse.js:59-64 | a failing sink beside a healthy one does not stop the healthy one from receiving the frame |
| Sse.AddClient | server/src/utils/sse.js:9-15 | the legacy registry gains a fresh id whose sink received one `connected` frame; the per-user registry is untouched |
| Sse.RemoveClient | server/src/utils/sse.js:17-23 | the legacy id is removed and its sink ended when present; otherwise nothing changes |
| Sse.Broadcast | server/src/utils/sse.js:25-33 | every healthy legacy sink receives the frame; the per-user registry is untouched |
| Sse.AddThenRemove | server/src/utils/sse.js:35-53 | adding a subscriber and removing it restores every user's subscriber map and ends the sink after its greeting |
| Lifecycle.OnEngine | server/src/services/waManager.js:43-68 | `ready` sets the flag, `disconnected` clears it, other events keep it; the client is never touched; each event is re-emitted, a QR only when it could be rendered |
| Lifecycle.LastFlagEvent | server/src/services/waManager.js:52-64 | finds the last `ready` or `disconnected` event in a sequence, or reports that there is none |
| Lifecycle.ReadyFollowsLastFlagEvent | server/src/services/waManager.js:52-64 | after any event sequence, readiness is what the last `ready`/`disconnected` event says, or unchanged without one; `authenticated` never matters |
| Lifecycle.LastFlagEventTail | server/src/services/waManager.js:52-64 | the last flag event of a sequence relates to that of its tail |
| Lifecycle.EnsureBegin | server/src/services/waManager.js:20-27 | the synchronous prefix of `ensure`: an existing client is kept, otherwise a new client is built and stored before any await |
| Lifecycle.Ensure | server/src/services/waManager.js:19-72 | an existing client is returned with nothing changed; otherwise the new client stays stored whatever `initialize` does, and the result is that outcome |
| Lifecycle.ConcurrentEnsureBuildsOnce | server/src/services/waManager.js:20-27 | two overlapping `ensure` calls build one client: the second sees the client stored by the first |
| Lifecycle.FailedInitIsNotRetried | server/src/services/waManager.js:19-72 | after a failed `initialize`, the next `ensure` succeeds without building or initialising again |
| Lifecycle.Send | server/src/services/waManager.js:74-77 | no client: fails with "Client not started"; otherwise the engine's outcome is returned |
| Lifecycle.SendIgnoresReadiness | server/src/services/waManager.js:74-77 | sending gives the same answer whether or not the client is ready |
| Lifecycle.Stop | server/src/services/waManager.js:79-83 | whether or not destroy throws, the client is cleared and the machine is not ready |
| Lifecycle.StopThenEnsureRebuilds | server/src/services/waManager.js:79-83 | after `stop`, the next `ensure` builds a client different from every earlier one |
| WaManager.NewSession | server/src/services/waManager.js:10-15 | a new session belongs to its user, has no client, is not ready and has no listeners |
| WaManager.SessionOf | server/src/services/waManager.js:91-94 | the session `get` would return belongs to the user |
| WaManager.Registered | server/src/services/waManager.js:91-94 | `get` adds the user to the registry and leaves every existing session as it was |
| WaManager.Get | server/src/services/waManager.js:91-94 | a known user's session is returned unchanged with the registry as it was; an unknown user gets one fresh session; listeners are kept |
| WaManager.GetIsStable | server/src/services/waManager.js:91-94 | a second `get` returns the same session and registry: one session per user |
| WaManager.Put | server/src/services/waManager.js:92 | replacing a session changes no other session |
| WaManager.IsReady | server/src/services/waManager.js:96 | a user is ready iff their session existed and was ready; the lookup registers them |
| WaManager.EnsureSession | server/src/services/waManager.js:98 | `ensure` runs on the user's own session only, which is created if needed; other sessions and all listeners are kept |
| WaManager.SendMessage | server/src/services/waManager.js:100 | a user never seen cannot send; otherwise the session's send decides |
| WaManager.On | server/src/services/waManager.js:102 | the listener is appended to the user's list for that event name; flags and other users are untouched |
| WaManager.OnNewName | server/src/services/waManager.js:102 | the first listener for a name is that name's only listener |
| WaManager.Raise | server/src/services/waManager.js:43-68 | an engine event moves the session's flags and yields the listeners registered for the re-emitted name, in registration order |
| WaManager.StopAll | server/src/services/waManager.js:104-108 | every registered session is stopped, even where tear-down fails, and sessions and listeners stay registered |
| WaManager.NoSendAfterStopAll | server/src/services/waManager.js:104-108 | after `stopAll`, every send fails with "Client not started" |
| WhatsApp.Start | server/src/services/whatsapp.js:16-63 | with a client, nothing happens; otherwise a client is stored before `initialize` and stays stored when it throws, and the failure is rethrown |
| WhatsApp.StartIsEnsure | server/src/services/whatsapp.js:16-63 | the single-tenant `start` is the same machine as the per-user `ensure` |
| WhatsApp.FailedStartIsNotRetried | server/src/services/whatsapp.js:17-62 | after a failed start, the next start is a no-op that succeeds |
| WhatsApp.SendMessage | server/src/services/whatsapp.js:65-68 | without a client, it throws "Client not started"; otherwise the engine's rejection is passed on, and a send it accepts goes out on the current client |
| WhatsApp.StopService | server/src/services/whatsapp.js:70-81 | the `finally` clears the client and readiness whatever destroy does |
| WhatsApp.OnEvent | server/src/services/whatsapp.js:35-47 | `ready` sets readiness and emits `ready`; `disconnected` clears it and emits the reason; other events keep the flag; the client is untouched |
| Auth.ExtractToken | server/src/middleware/auth.js:16-19 | the token is the header after `Bearer ` when it has that prefix, else a string query token, else empty |
| Auth.BearerRoundTrip | server/src/middleware/auth.js:17-18 | round trip: a header built from any token gives that token back, whatever the query holds |
| Auth.MessageOr | server/src/middleware/auth.js:25 | a non-empty message wins; otherwise the non-empty fallback is used |
| Auth.ConfigError | server/src/middleware/auth.js:5-7 | the provider is usable iff both settings are present; a missing URL is reported first |
| Auth.Authenticate | server/src/middleware/auth.js:14-39 | no token: `missing_token`; the request passes iff the settings exist and the provider answers without error with a truthy user id, which is then the request's user; every other case is `unauthorized` with a non-empty message |
| Auth.MissingTokenIgnoresVerifier | server/src/middleware/auth.js:20 | without a token the answer does not depend on the provider |
| Auth.UnconfiguredRejects | server/src/middleware/auth.js:5-12 | with a missing setting, every request with a token is `unauthorized`, whatever the provider would say |
| AiErrors.NotRateLimitedWithout | server/src/services/ai.js:108 | a message with no `4` and no `y`/`Y` is never classified as rate limiting |
| AiErrors.WsRun | server/src/services/ai.js:109 | `\s*` consumes the longest whitespace prefix |
| AiErrors.DigitRun | server/src/services/ai.js:109 | `\d+` consumes the longest digit prefix |
| AiErrors.AfterKey | server/src/services/ai.js:109 | the key `retryDelay"` matches exactly when the text starts with it in any letter case, and the match leaves the rest |
| AiErrors.Skip | server/src/services/ai.js:109 | skipping optional whitespace and a literal character leaves a strictly shorter rest |
| AiErrors.Number | server/src/services/ai.js:109 | `\d+` is greedy: a match splits the text into a non-empty run of digits and a rest that does not start with a digit, and there is no match exactly when the text does not start with a digit |
| AiErrors.MatchAt | server/src/services/ai.js:109 | a match at the start yields a non-empty digit string |
| AiErrors.FirstMatch | server/src/services/ai.js:109 | `match` returns the leftmost match: a result is the match at some position with no match at any earlier position, and there is no result exactly when no position matches |
| AiErrors.FirstMatchStep | server/src/services/ai.js:109 | when nothing matches at the first position, the leftmost match of the rest of the text is the leftmost match of the whole text |
| AiErrors.NoMatchShift | server/src/services/ai.js:109 | a position of the text without its first character is the next position of the whole text |
| AiErrors.DigitRunOf | server/src/services/ai.js:109 | digits followed by a non-digit give a digit run of exactly their length |
| AiErrors.WsRunPrefix | server/src/services/ai.js:109 | a whitespace run that ends inside a text is unchanged by appending more |
| AiErrors.DigitRunPrefix | server/src/services/ai.js:109 | a digit run that ends inside a text is unchanged by appending more |
| AiErrors.AfterKeyOf | server/src/services/ai.js:109 | the key followed by a text matches and leaves exactly that text |
| AiErrors.SkipOf | server/src/services/ai.js:109 | a literal character followed by a text is skipped, leaving exactly that text |
| AiErrors.NumberOf | server/src/services/ai.js:109-112 | a number's spelling followed by a non-digit is read as exactly that spelling |
| AiErrors.UnitOfLiteral | server/src/services/ai.js:109-113 | the units `s`, `ms` and `MS` followed by a quote are read as themselves |
| AiErrors.ValueOf | server/src/services/ai.js:109-113 | a spelled number, a unit and the closing quote are read back as that number and unit |
| AiErrors.MatchAtOf | server/src/services/ai.js:109 | the key, the colon, the opening quote, the digits and the unit with its closing quote, each matched in turn, make a match of those digits and that unit |
| AiErrors.RetryInfoParts | server/src/services/ai.js:109 | the fragment a provider writes is the key, a colon, an opening quote, the digits, the unit and a closing quote |
| AiErrors.MatchRetryInfo | server/src/services/ai.js:109 | the retry-delay fragment a provider writes matches with its number and unit |
| AiErrors.AfterKeyPrefix | server/src/services/ai.js:109 | a key match is unaffected by text appended after it |
| AiErrors.SkipPrefix | server/src/services/ai.js:109 | a skip is unaffected by text appended after it |
| AiErrors.NumberPrefix | server/src/services/ai.js:109 | a number match that stops inside the text is unaffected by text appended after it |
| AiErrors.UnitPrefix | server/src/services/ai.js:109 | a unit match is unaffected by text appended after it |
| AiErrors.MatchAtPrefix | server/src/services/ai.js:109 | a match is unaffected by text appended after it |
| AiErrors.RetryDelayRoundTrip | server/src/services/ai.js:109-115 | round trip: an error carrying `retryDelay":"N s` gives N·1000 ms and with `ms` gives N ms, whatever follows, with N read as an exact integer |
| AiErrors.FirstMatchAfter | server/src/services/ai.js:109 | text in front in which no match starts does not change the leftmost match |
| AiErrors.RetryDelayAfter | server/src/services/ai.js:109-115 | an error whose first `retryDelay":"N s` fragment follows text in which no match starts gives N·1000 ms, and with `ms` gives N ms, whatever follows, with N read as an exact integer |
| AiErrors.NoMatchDefaultDelay | server/src/services/ai.js:110 | a message in which the pattern matches at no position gets the default of 60000 ms |
| AiErrors.NoMatchWithoutR | server/src/services/ai.js:109 | no match starts at a character other than `r` or `R`, so text free of those letters never hides a later fragment |
| AiErrors.UpperCaseMillisReadAsSeconds | server/src/services/ai.js:109-114 | the case-insensitive pattern accepts `MS`, and the exact comparison with `ms` then reads N as seconds |
| Ai.NewState | server/src/services/ai.js:6-18 | a fresh orchestrator holds no per-user key, model, prompt, cooldown, GROQ key or GROQ client |
| Ai.SetKey | server/src/services/ai.js:27-41 | a user key is stored, the user's model uses it and the cooldown is reset to 0; other fields and users are untouched |
| Ai.ClearKey | server/src/services/ai.js:29-41 | the user key is deleted, the model falls back to the global key or is dropped, and the cooldown is reset to 0 |
| Ai.ConfigureKey | server/src/services/ai.js:25-42 | a non-string key changes nothing; a string key stores its trimmed form if non-empty and deletes it otherwise, rebuilds the model from it or the global key, and resets the cooldown |
| Ai.SetPrompt | server/src/services/ai.js:45 | the prompt is stored and nothing else changes |
| Ai.ClearPrompt | server/src/services/ai.js:45 | the prompt is deleted and nothing else changes |
| Ai.ConfigurePrompt | server/src/services/ai.js:43-46 | a string prompt stores its trimmed form if non-empty and deletes it otherwise; a non-string prompt changes nothing |
| Ai.SetGroq | server/src/services/ai.js:49-51 | the GROQ key is stored together with a client built from it |
| Ai.ClearGroq | server/src/services/ai.js:52-55 | the GROQ key and client are both deleted |
| Ai.ConfigureGroq | server/src/services/ai.js:47-56 | a string GROQ key stores its trimmed form with a client, or deletes both when empty; a non-string key changes nothing |
| Ai.Configure | server/src/services/ai.js:24-57 | configuring one user never changes another user's state or the global key; a request with no string field changes nothing |
| Ai.PromptFor | server/src/services/ai.js:20-22 | the custom prompt when one is stored, else the default; never empty |
| Ai.GetConfig | server/src/services/ai.js:59-63 | `hasApiKey` iff a user key is stored or a global key exists; the prompt is the effective prompt; no key material is reported |
| Ai.ModelKey | server/src/services/ai.js:67 | a model is available iff the user has one or a global key exists |
| Ai.ConfigReportsModel | server/src/services/ai.js:59-67 | on a consistent state, `hasApiKey` is reported exactly when a model is available for the reply |
| Ai.ConfigureThenGetConfig | server/src/services/ai.js:24-63 | after configuring with string fields, the view reports a key iff the trimmed key or the global key is non-empty, and the trimmed prompt or the default |
| Ai.ConfigureWithoutKeyKeepsCooldown | server/src/services/ai.js:25-42 | a request without a string key leaves cooldowns, models and keys alone |
| Ai.SenderLabel | server/src/services/ai.js:77 | the contact name when present, else a non-empty placeholder |
| Ai.RoleLabel | server/src/services/ai.js:83 | `Assistant` exactly for the assistant role, `User` for every other role |
| Ai.Line | server/src/services/ai.js:83 | a transcript line starts with its role label and a colon |
| Ai.Lines | server/src/services/ai.js:82-84 | one transcript line per history turn, in order |
| Ai.Header | server/src/services/ai.js:75-80 | the header is the prompt, the sender line, a blank line and the heading, separated by newlines |
| Ai.Footer | server/src/services/ai.js:86-90 | the footer is a blank line, the current message line and `Reply:`, separated by newlines |
| Ai.BuildPrompt | server/src/services/ai.js:92 | the prompt is header, transcript and footer separated by newlines |
| Ai.TranscriptAppend | server/src/services/ai.js:82-84 | one more turn adds exactly one line at the end of the transcript |
| Ai.TranscriptEmpty | server/src/services/ai.js:82-84 | the transcript is empty exactly for an empty history |
| Ai.TranscriptNonEmpty | server/src/services/ai.js:82-84 | a non-empty history's transcript is at least as long as its last line |
| Ai.GroqMessages | server/src/services/ai.js:128-132 | the system prompt, then one message per history turn in order, then the sender and current message |
| Ai.GroqMatchesTranscript | server/src/services/ai.js:128-132 | the GROQ message for each turn carries the same text and role as that turn's transcript line |
| Ai.EstimateTokens | server/src/services/ai.js:103 | `ceil(len/4)` on the UTF-16 length: the least n with 4n at least the length; zero exactly for the empty text |
| Ai.SecondaryReply | server/src/services/ai.js:138-141 | GROQ yields a reply iff it completed with content that does not trim to empty, and the reply is that trimmed content with its token estimate |
| Ai.Fallback | server/src/services/ai.js:125-145 | GROQ is called iff the user has a client, with the rendered messages; without one the result is no reply |
| Ai.ReplyFor | server/src/services/ai.js:66-146 | during a cooldown: no call and no reply; otherwise Gemini is called iff a model exists; a non-empty Gemini text is the reply; otherwise GROQ is tried iff configured; only a rate-limited Gemini error moves the user's cooldown, to `errorAt` plus the parsed delay; any reply is trimmed, non-empty and has positive tokens |
| Ai.TimeoutIsNotRateLimited | server/src/services/ai.js:106-108 | a timeout is never classified as rate limiting, so it leaves the cooldown alone |
| Ai.RateLimitedFailure | server/src/services/ai.js:107-116 | a rate-limited Gemini failure sets the cooldown to the failure time plus the delay its message asks for, and GROQ is still tried when configured |
| Ai.RateLimitSetsCooldown | server/src/services/ai.js:107-116 | a rate-limited Gemini error whose first retry-delay fragment may follow other text sets the cooldown to the error time plus that delay, and GROQ is still tried when configured |
| Ai.CooldownSuppresses | server/src/services/ai.js:68-69 | after a rate limit, every request before the deadline makes no provider call and returns no reply |
| Ai.ConfigureKeyLiftsCooldown | server/src/services/ai.js:41 | configuring a string key lifts any cooldown |
| Ai.ReplyForIsolated | server/src/services/ai.js:66-146 | a reply for one user never changes another user's state |
| Words.Pieces | server/src/index.js:69 | `split(/\s+/)` yields at least one piece |
| Words.WordCount | server/src/index.js:69 | the word count is at least one |
| Words.NoRuns | server/src/index.js:69 | a text without whitespace has no whitespace run |
| Words.RunsAppendWord | server/src/index.js:69 | appending a word adds no whitespace run |
| Words.RunsAppendSpace | server/src/index.js:69 | a space after a word starts one new run |
| Words.JoinEndsWithWord | server/src/index.js:69 | words joined by spaces end in a non-space |
| Words.PiecesOfJoin | server/src/index.js:69 | n words joined by single spaces split into n pieces |
| Words.JoinStartsWithWord | server/src/index.js:69 | words joined by spaces start with the first word's first character |
| Words.WordCountOfWords | server/src/index.js:69 | a reply of n words separated by single spaces counts n words |
| Words.TimeSavedSec | server/src/index.js:70 | the integer formula satisfies `6t <= 4w+3 < 6t+6` |
| Words.TimeSavedIsRounded | server/src/index.js:70 | the integer formula is the nearest integer to `words / 1.5`, as `Math.round` gives |
| Metrics.Get | server/src/services/metrics.js:6-19 | a known user's counters come back unchanged; a new user gets seven zero counters and no other user changes |
| Metrics.Attempted | server/src/services/metrics.js:20 | one more attempt and nothing else; no counter goes down |
| Metrics.Succeeded | server/src/services/metrics.js:21 | one more success and nothing else; no counter goes down |
| Metrics.GeminiCall | server/src/services/metrics.js:24-26 | one more Gemini call, the tokens and the seconds added, and the GROQ, attempt and success fields untouched |
| Metrics.GroqCall | server/src/services/metrics.js:30-32 | one more GROQ call, the tokens and the seconds added, and the Gemini, attempt and success fields untouched |
| Metrics.Clamp | server/src/services/metrics.js:25-26 | `max(0, floor(x))`: zero below one, otherwise the integer part of x |
| Metrics.ClampOfNat | server/src/services/metrics.js:25-26 | clamping a whole number leaves it unchanged |
| Metrics.IncAttempt | server/src/services/metrics.js:20 | the user's attempts rise by exactly one, and no other field or user changes |
| Metrics.IncSuccess | server/src/services/metrics.js:21 | the user's successes rise by exactly one, and no other field or user changes |
| Metrics.AddGeminiUsage | server/src/services/metrics.js:22-27 | Gemini calls +1, tokens and seconds added after clamping; GROQ fields and other users untouched |
| Metrics.AddGroqUsage | server/src/services/metrics.js:28-33 | GROQ calls +1, tokens and seconds added after clamping; Gemini fields and other users untouched |
| Metrics.GeminiUsageOfNat | server/src/services/metrics.js:22-27 | with whole-number arguments the clamping is the identity |
| Metrics.GroqUsageOfNat | server/src/services/metrics.js:28-33 | with whole-number arguments the clamping is the identity |
| Metrics.ForUser | server/src/services/metrics.js:34 | returns the user's current counters, zero for a new user, registering them and changing nobody else |
| Metrics.ApplyGrows | server/src/services/metrics.js:20-34 | every operation keeps all counters non-decreasing and changes only the named user |
| Metrics.ApplyAllGrows | server/src/services/metrics.js:20-34 | any sequence of operations keeps every counter of every user non-decreasing |
| Metrics.ApplyAllIsolated | server/src/services/metrics.js:20-34 | operations on other users never change a user's counters |
| Metrics.GrowsTrans | server/src/services/metrics.js:20-34 | growth of the meter is transitive |
| Metrics.LeTrans | server/src/services/metrics.js:20-34 | the counter order is transitive |
| Server.NewApp | server/src/index.js:12-15 | the server starts consistent, with nobody wired and every toggle off |
| Server.WiringKept | server/src/index.js:32-47 | any change that keeps every session's listeners keeps the wire-once invariant |
| Server.WireListeners | server/src/index.js:34-76 | the five registrations touch only the user's listeners; its flags and other sessions stay |
| Server.FirstThreeListeners | server/src/index.js:34-46 | on a session without listeners, the first three registrations give one listener each for `qr`, `ready` and `authenticated` |
| Server.WireListenersWiresOnce | server/src/index.js:32-76 | wiring a session without listeners leaves exactly one listener per event name |
| Server.LastTwoListeners | server/src/index.js:47-48 | the last two registrations complete the five names with one listener each |
| Server.WiringExtended | server/src/index.js:32-33 | adding a user to the wired set together with their wired session keeps the invariant |
| Server.SessionsExtended | server/src/index.js:31 | registering one user's session keeps every session stored under its own user |
| Server.Wire | server/src/index.js:32-47 | the guard: an already wired user changes nothing; otherwise the user is marked wired and their session gets its listeners |
| Server.StartSession | server/src/index.js:31 | `ensure` succeeds iff a client already existed or `initialize` succeeds; a client is stored either way and readiness is unchanged |
| Server.GreetAll | server/src/index.js:80-83 | the greeting reports the session's readiness and the toggle, to that user's sinks only, adding no subscriber |
| Server.Connect | server/src/index.js:21-86 | `/events` registers the sink and completes iff the first write succeeds and the session starts; only a completed call wires the user and greets the user's sinks with status, phase and AI status from the readiness before the call; other users' sinks, memory, meter, AI state and toggles are untouched |
| Server.ConnectKeepsValid | server/src/index.js:21-86 | `/events` keeps the server invariant, and the subscriber id it hands out was unused |
| Server.ReconnectKeepsOneListener | server/src/index.js:32-33 | wire once: subscribing again with a healthy sink completes and leaves exactly one listener per event name |
| Server.Close | server/src/index.js:85 | closing the stream removes the subscriber, ends its sink and keeps the invariant |
| Server.SenderName | server/src/index.js:61 | the contact's push name, else their number, else empty |
| Server.Admit | server/src/index.js:50-56 | a message passes the gates iff not sent by the account, the toggle is on, the chat is personal and has an id; a stopped message is marked gated |
| Server.Ask | server/src/index.js:57-61 | the user turn is stored, the history read back from memory, one attempt counted, and the orchestrator asked with that history; sessions, hub and toggles are untouched |
| Server.ProviderCall | server/src/index.js:66-72 | the reply's provider gets one call and its tokens, the other provider's counters stay, and time saved grows by the rounded word rate |
| Server.Credited | server/src/index.js:65-72 | a delivered reply adds one success and one provider call, never an attempt |
| Server.AddUsage | server/src/index.js:66-72 | attribution goes to Gemini or GROQ by the reply's provider; other users are untouched |
| Server.CreditMeter | server/src/index.js:65-72 | `incSuccess` and the provider attribution together credit exactly the delivered reply, to that user only |
| Server.AttemptKeepsMeterSound | server/src/index.js:60 | counting the attempt keeps every success matched by an attempt and leaves this attempt open |
| Server.CreditKeepsMeterSound | server/src/index.js:65-72 | crediting an open attempt keeps successes within attempts and API calls equal to successes |
| Server.Deliver | server/src/index.js:63-72 | the reply is sent; only when the send succeeds is the assistant turn stored and the success credited; a failed send changes neither |
| Server.HandleMessage | server/src/index.js:48-76 | a run is stopped at a gate iff the message is from the account, the toggle is off, the chat is not personal or has no id, and then nothing changes; otherwise the history is memory after the user turn |
| Server.Respond | server/src/index.js:57-72 | a run past the gates stores the user turn first and reads the history back from memory |
| Server.HandleMessageMemory | server/src/index.js:58-64 | a run past the gates has no reply exactly when the orchestrator gave none, and stores the assistant turn exactly when the reply was delivered |
| Server.HandleMessageMeter | server/src/index.js:50-72 | counters: unchanged when gated, one attempt when past the gates, plus the credited reply exactly when it was delivered |
| Server.HandleMessageCounts | server/src/index.js:60-65 | attempts grow by one iff the gates pass; successes grow by one iff the reply was delivered |
| Server.HandleMessageIsolated | server/src/index.js:48-76 | a run changes no other user's counters |
| Server.OthersKeepCounters | server/src/services/metrics.js:6-34 | an update confined to one user leaves every other user's counters as they were |
| Server.RepliedNeedsClient | server/src/index.js:63 | a reply can only be delivered through a stored client |
| Server.RegisterKeepsValid | server/src/index.js:63 | a lookup that registers a user keeps the invariant |
| Server.AskKeepsValid | server/src/index.js:57-61 | the middle of a run keeps the invariant and leaves the attempt open |
| Server.DeliverKeepsValid | server/src/index.js:63-72 | delivering the reply of an open attempt keeps the invariant |
| Server.HandleMessageKeepsValid | server/src/index.js:48-76 | every run keeps the server invariant |
| Server.RunListener | server/src/index.js:34-76 | status listeners only push frames to that user's sinks; the message listener runs the reply pipeline |
| Server.RunAll | server/src/index.js:34-76 | running the listeners never drops a session, and a single listener runs as itself |
| Server.Dispatch | server/src/services/waManager.js:43-68 | an engine event on a session keeps it registered |
| Server.RunListenerKeepsValid | server/src/index.js:34-76 | every listener run keeps the invariant |
| Server.RunAllKeepsValid | server/src/index.js:34-76 | running any sequence of listeners keeps the invariant |
| Server.DispatchKeepsValid | server/src/services/waManager.js:43-68 | every engine event keeps the server invariant |
| Server.ReadyEventPushesStatus | server/src/index.js:38-41 | on a wired session, `ready` marks it ready and pushes exactly `phase: ready` and `status: connected`, to that user only, without touching memory or meter |
| Server.SetAi | server/src/index.js:89-95 | the stored flag is the truthiness of `enabled`, the same value is broadcast as `ai_status` to that user and returned, and other users' toggles stay |
| Server.DisabledAiIgnoresMessages | server/src/index.js:50-52 | after switching off, every message is stopped at the gate with no effect |
| Server.EnabledAiAdmits | server/src/index.js:50-54 | after switching on, a message passes iff it is not from the account and comes from a personal chat with an id |
| Server.GetAiConfig | server/src/index.js:98-101 | the view reports a key iff a model is available and always a non-empty prompt |
| Server.PostAiConfig | server/src/index.js:103-108 | only the caller's AI configuration changes, and the invariant is kept |
| Server.PostAiConfigIsolated | server/src/index.js:103-108 | posting a configuration changes no other user's view |
| Server.Proportion | server/src/index.js:122 | a ratio of a count to a larger positive count lies in [0, 1] |
| Server.PostThenGetAiConfig | server/src/index.js:103-108 | what `POST` reports is what a later `GET` reports: the trimmed key's presence or the global key, and the trimmed prompt or the default |
| Server.Status | server/src/index.js:111-116 | the session is started and a failure swallowed; `connected` is the session's readiness, plus the toggle and key availability |
| Server.StatusIsIdempotent | server/src/index.js:111-116 | a second `/status` changes nothing and reports the same |
| Server.MetricsFor | server/src/index.js:119-138 | reports the caller's counters, total calls as the sum of both providers, and a success rate of 0 without attempts and successes/attempts otherwise |
| Server.MetricsAreConsistent | server/src/index.js:121-122 | on a consistent server, API calls equal successes, successes stay within attempts and the success rate is a proportion |
| Server.Shutdown | server/src/index.js:145-152 | every session is stopped, the ones whose tear-down fails included; nothing else changes |
| Server.NoReplyAfterShutdown | server/src/index.js:145-152 | after shutdown no message is answered |
| Server.HistoryEndsWithCurrentMessage | server/src/index.js:58-59 | the history handed to the orchestrator ends with the current message and holds at most ten turns |
| Server.UserTurnNearEnd | server/src/index.js:58-64 | after a run the chat's history ends with the user turn, possibly followed by the delivered reply |
| Server.NearEndReachesHistory | server/src/index.js:58-59 | a turn near the end of a chat's history is in the next run's history on that chat |
| Server.ChatHistoryIsSharedAcrossUsers | server/src/index.js:56-59 | memory is keyed by chat id alone: another user's later run on the same chat id sees the first user's message |

## Left out

- Express routing, HTTP headers, CORS, `res.json` and the JSON text inside SSE frames are not modelled. Frames keep their event name and a structured payload, and responses are Dafny values.
- `Promise.race` with the 8-second timer is not modelled as timing. A timeout is the `TimedOut` outcome, whose message is the timer's error text.
- Real async interleaving is not modelled. Only the two facts that rely on the absence of an await are: the check-then-add of the wire-once guard, and the client stored before `initialize`.
- The whatsapp-web.js client, Puppeteer, `LocalAuth` paths and `qrcode.toDataURL` are foreign code. They appear as engine events, an optional rendered QR image, and initialisation, send and destroy outcomes.
- The Gemini and GROQ SDK request and response formats are foreign code. Each call is an outcome value, with the model name, the prompt or message list, and the client key recorded as the call made.
- `getChat` and `getContact` are foreign calls, and their failure, which the listener's `catch` swallows, is not modelled. The chat and contact arrive with the message.
- A chat id whose `_serialized` field is not a string is read as the empty id. The run then goes on past the gates without touching memory, just as `addMessage` skips a falsy id, and still counts an attempt and asks for a reply. Only a missing `chat.id` is absent. A truthy id that is not a string, such as a number, is not modelled.
- `server/src/config.js` only reads environment variables and is not part of this model. The global Gemini key is a parameter, and the prices are omitted with the cost estimate.
- The client application (React components, landing pages, the auth provider, fetch wrappers, settings RPCs) is not part of this model.
- Console logging, the EBUSY hint in `whatsapp.js`, `process.exit` and signal handling are not modelled. `Server.Shutdown` covers only the `stopAll` step.
- Server.MetricsFor: omits the floating-point `estCost` (`toFixed(4)` of the priced token counts), because it is float formatting of configuration prices. The success rate is a Dafny `real` and is only related to the integer counters.
- Strings.ToLower: folds only the ASCII letters `A`–`Z`. The only comparison made on lower-cased text is against an ASCII pattern, and a non-ASCII letter never becomes one of its letters.
- Strings.Utf16Length: states only the bounds between code points and twice that. Each character counts as two units exactly when it lies above U+FFFF.
- Words.WordCount: its contract states only the lower bound of one. `Words.WordCountOfWords` pins the count for words separated by single spaces. Other whitespace layouts are covered by the definition, one more piece than maximal whitespace runs, but not by a separate lemma.
- Words.Pieces: its contract states only the lower bound of one. `Words.PiecesOfJoin` gives the exact count for joined words.
- Server.Dispatch: its own contract states only that the session stays registered. What an event does is stated by `Server.DispatchKeepsValid`, `Server.ReadyEventPushesStatus`, `WaManager.Raise` and `Server.RunListener`.
- Server.RunAll: its contract states only that no session is dropped and that a single listener runs as itself. Its effect on the invariant is `Server.RunAllKeepsValid`.
- AiErrors.Skip: states only that the rest is shorter. What it consumes is pinned by `AiErrors.SkipOf` and `AiErrors.SkipPrefix`.
- AiErrors.MatchAt: states only the shape of the digits it returns. The full parse is pinned by `AiErrors.MatchAtOf`, `AiErrors.MatchRetryInfo`, `AiErrors.RetryDelayRoundTrip` and `AiErrors.RetryDelayAfter` on the fragments providers write.
- Ai.ReplyFor: the 8-second timeout promise is created before `if (model)`. When the user has no Gemini model (a GROQ-only user), nothing races or catches it, and its rejection is unhandled. Whether that ends the process depends on the Node version, which the sources do not show. The model treats a run without a model as the GROQ fallback alone.
- Server.Connect: the `/events` handler is `async`, and a throwing `addUserClient` write or a rethrown `ensure` failure rejects its promise. Express 4 does not catch such a rejection, so it is unhandled. Whether that ends the process depends on the Node and Express versions, which the sources do not show. The model returns the route as not completed.
- Server.Status: initialisation is one atomic step in which no `ready` event is delivered, although the `ready` handler is installed before `initialize()` is awaited. So `connected` is the readiness the session had before the call.
- Server.StartSession: under the same atomic-initialisation assumption, its contract keeps the session's readiness unchanged.
- Server.Connect: under the same assumption, it greets from the readiness before the call, where the route reads `isReady` after awaiting `ensure`.
- AiErrors.RetryDelayMs: reads the captured digits as an exact integer, and multiplies by 1000 exactly. The source uses `Number(...)` and `val * 1000` on doubles, which agree with the integers only below 2^53. A larger delay such as `9007199254740993ms` is rounded in the source but not in the model.
- AiErrors.RetryDelayRoundTrip: states N·1000 ms and N ms for every N. This is exact in the source only while the delay stays below 2^53, for the reason given for `AiErrors.RetryDelayMs`.
- AiErrors.RetryDelayAfter: the same 2^53 limit applies as for `AiErrors.RetryDelayRoundTrip`.
- Metrics.IncAttempt: the meter's counters and token sums, and the clock sums such as the cooldown deadline `Date.now() + delayMs`, are unbounded integers. In the source they are doubles, which agree with the integers only below 2^53. The same holds for `Metrics.IncSuccess`, `Metrics.AddGeminiUsage`, `Metrics.AddGroqUsage` and `Ai.ReplyFor`.
- Metrics.Clamp: models `Math.max(0, Math.floor(x || 0))` on reals. `NaN` and the infinities are not modelled; the pipeline only passes whole numbers.
