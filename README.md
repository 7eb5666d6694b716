# Terapeuta de Bolso — a verified model of its client-side logic

Terapeuta de Bolso ("pocket therapist") is a single-page chat client. A user
logs in locally and chats with a hosted language-model session. The session
can escalate to an emergency call. The user can also keep a mood diary and
follow guided breathing or meditation exercises. This project models the
parts of the client that hold sequential logic, and proves what they promise:

- **App** (`app.dfy`): the chat turn controller `handleSendMessage`.
  - The class `AppState` holds the message log, the busy flag, the error
    banner, the session handle, the logged-in user, the view and the
    numbers the browser was sent to dial.
  - A turn runs in four steps:
    - `SendMessage` checks the guard;
    - `Start` appends the user message and the loading placeholder;
    - `ReadStream` is the `for await` loop over the reply chunks;
    - `Consume` settles the turn in the `try`/`catch`/`finally`, and
      `Escalate` is its emergency branch.
  - Each method is proved against pure functions of the log: `StartedLog`,
    `Streamed` and `SettledLog`. The lemmas about those functions state the
    turn's invariants: the text accumulates in order, only the placeholder
    changes, at most one entry is loading, and the emergency path cuts the
    stream short.
- **MoodService** (`mood_service.dfy`): `loadMoods` and `saveMood` over a
  per-user map of diary lists, including the case where storage cannot be
  parsed and the case where the write throws.
- **History** (`history.dfy`): the diary page. It covers `moodOptions` for
  levels 1..5 and the newest-first `sortedEntries`, proved to be a permutation
  that is ordered by timestamp. `handleLogMood` goes through the store.
- **Exercises** (`exercises.dfy`): the catalogue, the list/guide dispatch,
  and the breathing guide's `runCycle` phase machine. The guide's one pending
  `setTimeout` is modelled as a `Timer` value.
- **Login** (`login.dfy`): the sign-up / sign-in decision over the stored
  email-to-password map, and the mode toggle.
- **InputBar** (`input_bar.dfy`): the trimmed-input guard of the chat bar,
  and when its field and button are disabled.
- **Text** (`text.dfy`): JavaScript's `trim`, using the ECMAScript whitespace
  set, and decimal rendering for template literals.
- **Types** (`types.dfy`) and **Wrappers** (`wrappers.dfy`): the records of
  `types.ts` and `Option`.

Clocks, storage failures and the model's reply are parameters:

- `Date.now()` ids are given as `userId` / `botId` / `systemId`, or as
  `idTime` / `stamp`.
- `writeFails` says whether `localStorage.setItem` throws. On the login
  form, `loginFails` says whether `onLogin` throws; it does when its own
  `setItem` throws, which `AppState.Login` models with its `writeFails`.
- The reply is a `Stream(chunks, fails)`: the chunks the session delivers,
  and whether it then throws. A stream that cannot even be opened is
  `Stream([], true)`.

JavaScript truthiness is modelled where the code relies on it:

- an empty `chunk.text` adds nothing;
- an empty `functionCalls` list is truthy but matches nothing;
- `hold2` counts only if present and non-zero;
- `users[email]` counts only if the stored password is non-empty.

The session is created once, when the app mounts (App.tsx:28-43).
`handleLogin` (App.tsx:45-50) does not recreate it, so `AppState.Login`
leaves `session` as it is.

## Model

| member | source | states |
|---|---|---|
| App.AppState.constructor | App.tsx:20-43 | The app mounts with the greeting alone in the log. It is not busy and shows the chat. The stored user is logged in only if non-empty. A session that comes back null shows the API-key error; one that throws shows the start-up error. |
| App.AppState.Login | App.tsx:45-50 | `handleLogin` stores and sets the user and resets the log to exactly `[InitialMessage]`, so nothing in it is loading. It shows the chat and changes nothing else. When storing the user throws (line 46), nothing changes and the exception is reported to the caller. |
| App.AppState.Logout | App.tsx:52-55 | `handleLogout` clears the stored and the current user and leaves the log, the flags and the session alone. |
| App.AppState.SetView | App.tsx:26 | A navigation button changes only the view. |
| App.AppState.SendMessage | App.tsx:57-136 | Blocked (busy, blank after trim, or no session): the log, the busy flag and the numbers dialled stay. The "não está disponível" error is set only when the session is missing and no error is shown. Otherwise the log becomes `SettledLog` of the started turn, the flag is cleared, and `tel:190` is dialled once exactly on an emergency call. The error is the send-error text exactly when the stream throws without an emergency call, and is cleared otherwise. The invariant that nothing is loading outside a turn is kept. |
| App.AppState.Start | App.tsx:65-77 | The untrimmed user message, then the loading placeholder with empty text, are appended to the old log, and the flag is set. |
| App.AppState.ReadStream | App.tsx:83-116 | The loop stops at the `FirstEmergency` chunk, if any. `fullResponse` is the concatenation of the text fragments before it, and the log is `Streamed` through those chunks. |
| App.AppState.Consume | App.tsx:79-135 | After reading, the log is `SettledLog`, the busy flag is cleared (`finally`), `tel:190` is dialled once exactly on an emergency call, and the banner shows the send-error text exactly when the stream threw. |
| App.AppState.Escalate | App.tsx:89-103 | The placeholder is filtered out and the one emergency message appended. `tel:190` is added to the numbers dialled, and the busy flag is cleared. |
| App.CallsEmergency | App.tsx:86-105 | The inner scan finds the emergency tool exactly when it is among the call names. |
| App.FirstEmergency | App.tsx:84-104 | The index found is a chunk that calls the emergency tool. |
| App.FirstEmergencyIsFirst | App.tsx:84-104 | No earlier chunk calls the tool; when none is found, no chunk calls it. |
| App.FirstEmergencyAt | App.tsx:84-104 | The first chunk that calls the tool is the one found. |
| App.IsEmergency | App.tsx:86-88 | A chunk escalates when it has a call list naming `CALL_EMERGENCY`; an empty list is truthy but matches nothing. `CallsEmergency` is the loop that decides it. |
| App.HasText | App.tsx:108 | `chunk.text` is truthy: present and non-empty. |
| App.Accumulated | App.tsx:83-109 | `fullResponse` after some chunks: their fragments in order. `AccumulatedGrows` and `AccumulatedEmpty` state its properties. |
| App.Blocked | App.tsx:58 | The send guard: busy, blank after trim, or no session. `InputBar.EnabledSendPassesGuard` and `Text.TrimEmptyIffBlank` state its meaning. |
| App.Fragment | App.tsx:108-109 | A chunk adds nothing to the reply exactly when its text is falsy: missing or empty. |
| App.StartedLog | App.tsx:65-77 | A started turn is the old log, then the user message, then the empty loading placeholder. |
| App.Streamed | App.tsx:84-116 | Republishing the reply never changes the log's length. |
| App.SettledLog | App.tsx:79-135 | Without an emergency call, the settled log is as long as the started one. With one, it ends in the emergency message. |
| App.SetText | App.tsx:110-114 | Republishing keeps the log's length. |
| App.SetTextEntries | App.tsx:110-114 | Republishing changes the text of the entries with the bot id and no other entry, and no other field. |
| App.Settle | App.tsx:118-122 | Settling keeps the log's length. |
| App.SettleEntries | App.tsx:118-122 | Settling gives the entries with the bot id the final text and clears their loading flag; every other entry stays. |
| App.Without | App.tsx:97 | The filter never lengthens the log. |
| App.WithoutMembers | App.tsx:97 | The filter keeps exactly the entries whose id is not the placeholder's. |
| App.WithoutFresh | App.tsx:97 | Filtering an id that names nothing leaves the log as it is. |
| App.WithoutAppend | App.tsx:97-98 | The filter distributes over concatenation. |
| App.AccumulatedGrows | App.tsx:108-109 | The accumulated reply only grows: an earlier value is a prefix of a later one. |
| App.AccumulatedEmpty | App.tsx:108-109 | The accumulated reply is empty exactly when no chunk has text. |
| App.StreamedEntries | App.tsx:108-114 | After any chunks, the placeholder holds the in-order concatenation of the text fragments once some text has arrived. Every other entry is unchanged. |
| App.StreamedPlaceholder | App.tsx:74-77 | During a turn the placeholder sits right after the user message, holds exactly the text so far, and is the only loading entry. |
| App.StreamedFresh | App.tsx:65-114 | With fresh ids, the earlier log and the user message are untouched while the reply streams in. |
| App.StreamedSnoc | App.tsx:84-115 | One more chunk appends its fragment and, if it has text, republishes the log with the new total. |
| App.OtherCallsIgnored | App.tsx:86-88 | A chunk whose calls do not name the emergency tool leaves the escalation point where it was. |
| App.SettledOnEmergency | App.tsx:96-103 | Taken at chunk `i`, the emergency branch leaves the streamed log filtered of the placeholder plus the emergency message; `i` is the first emergency chunk. |
| App.SettledOnEnd | App.tsx:118-132 | Without an emergency call, settling the streamed log gives the full reply, or the error text if the stream threw. |
| App.SettleStreamed | App.tsx:110-122 | The intermediate republications leave no trace once the placeholder is settled. |
| App.WithoutSetText | App.tsx:97 | Dropping the placeholder discards any text it was given. |
| App.WithoutStreamed | App.tsx:96-98 | Dropping the placeholder after streaming is dropping it from the started log: the text in the same chunk and before it is discarded. |
| App.SettledNoneLoading | App.tsx:102 | Once a turn settles, whichever way it ends (lines 102, 120, 130), no entry of the log is loading. |
| App.TurnCompletes | App.tsx:118-122 | A stream that ends normally leaves the earlier log, the user message and the full reply with loading cleared. |
| App.TurnFails | App.tsx:124-132 | A stream that throws leaves the fixed error text, not the partial reply, with loading cleared. |
| App.TurnEmergency | App.tsx:89-99 | An emergency call leaves the earlier log, the user message and the one emergency message; the placeholder is gone. |
| App.EmergencyCutsStream | App.tsx:101-103 | No chunk after the first emergency call matters, nor whether the stream would have thrown. |
| Text.TrimStart | components/InputBar.tsx:21 | Leading-trim never lengthens a string. |
| Text.TrimStartDrops | components/InputBar.tsx:21 | Leading-trim drops a whitespace-only prefix, and the result does not start with whitespace. |
| Text.TrimEnd | components/InputBar.tsx:21 | Trailing-trim never lengthens a string. |
| Text.TrimEndDrops | components/InputBar.tsx:21 | Trailing-trim drops a whitespace-only suffix, and the result does not end with whitespace. |
| Text.Trim | components/InputBar.tsx:21 | `trim` never lengthens a string. |
| Text.TrimEmptyIffBlank | App.tsx:58 | `!text.trim()` holds exactly when every character is whitespace. |
| Text.NatToString | components/ExercisesPage.tsx:94 | A rendered number is a non-empty digit string without a leading zero. |
| Text.NatToStringRoundTrip | components/ExercisesPage.tsx:94 | Reading the rendered digits back gives the number. |
| MoodService.Load | services/moodService.ts:10-18 | The stored list of the user, or the empty list when the user has none or storage does not parse. |
| MoodService.Save | services/moodService.ts:26-39 | The result is the new entry in front of what `loadMoods` finds, so it is one longer and starts with the entry. Storage is rewritten only if it parsed and the write went through, and then it maps the user to exactly the result. After such a save, loading the user gives back the result. Every other user's list is unchanged in all cases. |
| MoodService.SaveTwiceKeepsBoth | services/moodService.ts:30 | There is no deduplication: saving the same entry twice stores two more copies. |
| MoodService.MoodStore.constructor | services/moodService.ts:3 | The store starts with the given contents of the moods key. |
| MoodService.MoodStore.LoadMoods | services/moodService.ts:10-18 | Reading the store gives `Load` of its contents. |
| MoodService.MoodStore.SaveMood | services/moodService.ts:26-39 | The store's new contents and the returned list are those of `Save`. |
| History.MoodOptions | components/HistoryPage.tsx:9-15 | `moodOptions` has a key for each of the levels 1..5 and for no other level. |
| History.OptionFor | components/HistoryPage.tsx:73-76 | The lookup is defined for every entry's level. |
| History.InsertByTime | components/HistoryPage.tsx:41 | Insertion adds exactly the one entry. |
| History.InsertKeepsOrder | components/HistoryPage.tsx:41 | Insertion keeps a list newest first. |
| History.SortedEntries | components/HistoryPage.tsx:40-42 | `sortedEntries` is a permutation of the diary (the same multiset) with timestamps that never increase. |
| History.WithStampCons | components/HistoryPage.tsx:41 | The entries with a given stamp, taken from a list with a known head. |
| History.InsertWithStamp | components/HistoryPage.tsx:41 | Insertion puts the entry ahead of every entry with the same timestamp, and changes the order of no two others. |
| History.SortIsStable | components/HistoryPage.tsx:40-42 | The sort is stable, as `Array.prototype.sort` is: entries with equal timestamps keep the diary's order. |
| History.MoodId | components/HistoryPage.tsx:28 | An entry's id is `mood-` followed by digits that read back as the clock value. |
| History.HistoryPage.Shown | components/HistoryPage.tsx:40-42 | The rendered list holds the diary's entries, newest first. |
| History.ShownIsDiaryReordered | components/HistoryPage.tsx:40-42 | Every diary entry is rendered, and nothing else is. |
| History.HistoryPage.constructor | components/HistoryPage.tsx:21-24 | Mounting loads the user's diary; the confirmation is off. |
| History.HistoryPage.LogMood | components/HistoryPage.tsx:26-37 | The page shows exactly what `saveMood` returns, so the new entry comes first. The store changes as `Save` says, and the confirmation is raised. |
| Exercises.Catalogue | components/ExercisesPage.tsx:5-73 | The catalogue has six exercises. |
| Exercises.CatalogueIds | components/ExercisesPage.tsx:5-73 | The ids of the catalogue, in order. |
| Exercises.CatalogueWellFormed | components/ExercisesPage.tsx:5-73 | Every breathing exercise has timings, which the guide unwraps at line 81. Every meditation has steps, and all ids, which key the cards at line 208, are distinct. |
| Exercises.ScreenFor | components/ExercisesPage.tsx:189-197 | No open exercise shows the list. A breathing exercise opens the breathing guide, a meditation opens the meditation guide, and each guide gets that exercise. |
| Exercises.CatalogueGuidesDefined | components/ExercisesPage.tsx:189-197 | Any catalogue exercise opens a guide that has what it needs. |
| Exercises.ExercisesPage.constructor | components/ExercisesPage.tsx:187 | The page opens on the list. |
| Exercises.ExercisesPage.Select | components/ExercisesPage.tsx:209 | Clicking a card opens that exercise. |
| Exercises.ExercisesPage.Back | components/ExercisesPage.tsx:191 | `onBack` clears the open exercise and the list shows again. |
| Exercises.HasHold2 | components/ExercisesPage.tsx:106-109 | `hold2` is truthy: present and not zero. |
| Exercises.Seconds | components/ExercisesPage.tsx:95 | A duration is shown as digits that read back as the number of seconds, then `s`. |
| Exercises.Inhale | components/ExercisesPage.tsx:93-97 | Inhale grows the circle to scale 1 over the inhale time and arms hold after `inhale * 1000` ms. |
| Exercises.Phase | components/ExercisesPage.tsx:86-121 | Every step arms a timer for a phase in 0..3, so preparation is never re-armed. Preparation shows "Prepare-se...", scale 0.8 over 2s, and then inhale after 2000 ms. Hold arms exhale after `hold * 1000` ms. Exhale shrinks the circle to scale 0.8 over the exhale time and arms hold2 if `hold2` is truthy, inhale otherwise, after `exhale * 1000` ms. Hold2 arms inhale after `hold2 * 1000` ms. Only the two holds leave the style as it was. Inhale, phase 3 without a truthy `hold2`, and every unknown step all run the inhale phase. |
| Exercises.Round | components/ExercisesPage.tsx:93-119 | A round is the phases 0, 1, 2 in order, then 3 exactly when `hold2` is truthy. |
| Exercises.Steps | components/ExercisesPage.tsx:86-121 | The steps visited by `n` firings, one per firing. |
| Exercises.RoundReturns | components/ExercisesPage.tsx:93-119 | From inhale the timer visits inhale, hold and exhale, then hold2 if `hold2` is truthy, and is back at inhale. It has waited exactly `(inhale + hold + exhale [+ hold2]) * 1000` ms. |
| Exercises.NoPrepareAgain | components/ExercisesPage.tsx:86-121 | After the first step, every step the timer reaches is a phase 0..3. |
| Exercises.BreathingGuide.constructor | components/ExercisesPage.tsx:76-91 | The guide starts with "Prepare-se...", scale 0.8 over 2s, and a timer armed for inhale in 2000 ms (line 123). |
| Exercises.BreathingGuide.RunCycle | components/ExercisesPage.tsx:86-121 | `runCycle(step)` sets the instruction and the timer as `Phase` says. It sets the style when the phase has one and leaves it otherwise (hold, hold2). |
| Exercises.BreathingGuide.Fire | components/ExercisesPage.tsx:91-112 | The armed timer runs the step it was armed for: the instruction, the style (kept by the holds) and the next timer are that step's. |
| Exercises.BreathingGuide.Stop | components/ExercisesPage.tsx:125-127 | The cleanup clears the timer and nothing else. |
| Login.Decide | components/LoginPage.tsx:14-45 | An empty email or password gets the "preencha" error, and unreadable storage gets the generic error. A login is always of the given email from readable storage, and only sign-up writes. |
| Login.Registered | components/LoginPage.tsx:27-35 | `users[email]` is truthy: the email is stored with a non-empty password. |
| Login.SignUpExisting | components/LoginPage.tsx:27-28 | Signing up with an email already registered is refused with nothing written. |
| Login.SignUpNew | components/LoginPage.tsx:29-32 | Signing up with a new email logs it in after storing `users` plus `email: password`: the keys gain exactly the email, and every other email keeps its password. |
| Login.SignInIff | components/LoginPage.tsx:35-38 | Sign-in succeeds exactly when the email is stored with the given, non-empty password. A filled-in sign-in that does not match is refused with exactly "E-mail ou senha inválidos.". |
| Login.SignInNeverWrites | components/LoginPage.tsx:34-40 | Sign-in never writes, and a refusal is one of the fill, generic or invalid messages. |
| Login.CredentialStore.constructor | components/LoginPage.tsx:24 | The store starts with the given contents of the users key. |
| Login.LoginPage.constructor | components/LoginPage.tsx:9-12 | The form starts empty, in sign-in mode, with no message. |
| Login.LoginPage.Submit | components/LoginPage.tsx:14-45 | The message is reset first. A refusal shows its message and neither logs in nor writes. A sign-up whose write throws shows the generic error and logs no one in. Otherwise storage holds the new map on sign-up, or is unchanged on sign-in, and `onLogin(email)` is called. If it throws, the generic error shows and no one is logged in, even though a sign-up's map was already written. |
| Login.LoginPage.CallOnLogin | components/LoginPage.tsx:32-42 | `onLogin` inside the `try`: a throw shows the generic error and logs no one in; otherwise the email is logged in. |
| Login.LoginPage.ToggleMode | components/LoginPage.tsx:96-99 | The toggle flips the mode and clears the message. |
| InputBar.SendDisabled | components/InputBar.tsx:41 | The send button's `disabled`: busy, or the text trims to empty. `InputBar.SendEnabledIff` states its meaning. |
| InputBar.InputDisabled | components/InputBar.tsx:35 | The text field's `disabled`: exactly `isLoading`. |
| Text.IsWhitespace | components/InputBar.tsx:21 | The characters `trim` strips: the ECMAScript WhiteSpace and LineTerminator characters. `Text.TrimStartDrops`, `Text.TrimEndDrops` and `Text.TrimEmptyIffBlank` state what trimming does with them. |
| InputBar.SendEnabledIff | components/InputBar.tsx:41 | The send button is enabled exactly when not loading and some character is not whitespace. |
| InputBar.EnabledSendPassesGuard | App.tsx:58 | Text the button lets through is blocked by the controller only when there is no session. |
| InputBar.InputBar.constructor | components/InputBar.tsx:17 | The field starts empty. |
| InputBar.InputBar.Change | components/InputBar.tsx:33 | Typing sets the text. |
| InputBar.InputBar.Submit | components/InputBar.tsx:19-25 | Whitespace-only text sends nothing and stays. Otherwise the original, untrimmed text is sent once and the field is cleared. |

`App.InitialMessage` (App.tsx:12-17) is the greeting constant, not
loading.

## Left out

- Asynchrony and React state batching. Turns are serialized. The stale
  `isLoading` read at App.tsx:58 and a second `handleSendMessage` started
  while one is in flight are not modelled.
- Date.now(): ids and timestamps are parameters. Freshness of the bot id is
  assumed by the lemmas that state "the rest of the log is untouched", not by
  `SendMessage`.
- `localStorage` and JSON are an abstract value per key: `MoodData` / `Credentials`, or "does not parse".
  - A parsed value of an unexpected shape is not modelled, for example a
    user's diary that is not a list, or prototype keys such as `__proto__`.
- The Gemini SDK, the system prompt and the `[Normal]`/`[Crítica]`
  classification: the session is an opaque handle and its reply a given
  chunk sequence. services/geminiService.ts is not part of this model beyond
  the tool name `CALL_EMERGENCY`.
- `window.location.href = 'tel:190'` is recorded in `dialled`; the
  navigation itself is not modelled.
- Wall-clock timing of `setTimeout`: only the phase transitions and their
  nominal delays are modelled.
- The 2-second auto-hide of the mood confirmation is not modelled, and
  neither is date localisation.
- The `console.error` logging in the catch blocks (App.tsx:40, 125;
  services/moodService.ts:15, 35; components/LoginPage.tsx:43) is not
  modelled: it only writes to the browser console and changes no state.
- JSX rendering, CSS and animation, ChatWindow scrolling and the message
  bubbles. `renderView`'s `null` default and the dispatch's `return null` are
  left out because `View` and `ExerciseKind` have no other values.
- The email and password `onChange` setters of the login form.
- Exercises.Phase: durations are whole seconds (`nat`), as every listed
  timing is. Fractional timings are not modelled.
