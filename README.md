# Rizz Tempo client core, modelled in Dafny

Rizz Tempo is a dating-conversation practice app: a user buys or earns tokens
and spends them on timed voice-practice sessions with an AI partner. The app
itself is React Native screens over a hosted database and a voice SDK. This
project models the state machines and helpers under that glue, and proves
properties of them:

- the practice-session stopwatch with its token gate, pause and resume, and the
  debit it sends on ending (`PracticeSession`);
- the onboarding wizard and its goal toggle (`Onboarding`);
- the feedback form: the confidence selector, the save, and the duration text
  (`SessionFeedback`);
- the transcripts of the live voice chat and the mock voice chat, and their
  audio bars (`LiveVoiceChat`, `MockVoiceChat`, `Conversation`);
- the daily challenge: the date key, the completion flag, the stars and the start
  guard (`DailyChallenge`);
- the sign-in / sign-up screen, with the rule that a profile and the
  registration bonus are created only for a user who has no profile yet
  (`AuthScreen`);
- the dashboard's scenario lookup and tabs (`MainDashboard`);
- the client-side caches of the token, subscription, auth, profile and session
  hooks (`TokenHooks`, `DatabaseHooks`);
- the device fingerprint, a get-or-create over the persistent key-value store
  (`DeviceFingerprint`).

The backend and the voice SDK are not modelled. Every remote call is a parameter
holding its outcome: rows or `null`, a `success` flag, or a thrown error
(`Wrappers`, `Backend`). Methods return the requests they issue, so a contract
can say which calls were made and with what arguments. Time is `Date.now()` as
integer milliseconds, passed in. Elapsed time, the token estimate and the
rebased start instant are exact `real`s, so the rate 0.02778 is exact in the
model; JavaScript computes them in binary doubles (see "Left out"). JavaScript behaviour the code depends on is written out in `Js`:
`Math.round` rounds halves up, `%` truncates toward zero, `padStart`,
`split('T')[0]`, number-to-text, and the falsiness of `""` and `null`.

Stateful components and hooks are classes whose fields are the component's state.
Their methods are the event handlers and effects. A handler fired by a button
requires what the screen requires before it draws that button: the practice
session's Start button, for instance, is drawn only once loading has ended and
while no session is active. The one exception is the practice session's End
handler. Its button is drawn only while a session is active, but the handler
checks nothing, and a double tap can reach it twice, so `EndSession` is left
unguarded on purpose. Pure helpers are functions, with lemmas about them.

## Model

| member | source | states |
|---|---|---|
| Indicators.CountLitIsClampedScore | components/feedback/SessionFeedback.tsx:123-136 | the number of highlighted indicators is the score clamped to 0..n, and the highlighted ones form a prefix |
| Js.SplitFirstJoined | components/challenges/DailyChallenge.tsx:34 | splitting `a + c + b` at the first `c`, where `a` has no `c`, gives back `a` and `b` |
| PracticeSession.ResumeContinuesElapsed | components/practice/VoicePracticeSession.tsx:98-106 | after a resume rebases the start instant, a tick reads the frozen time plus the time since the resume, so elapsed time never goes back |
| PracticeSession.TokensLinear | components/practice/VoicePracticeSession.tsx:84-88 | the estimate is linear and monotone in elapsed time, and 360 s cost 10.0008 tokens at the decimal rate |
| PracticeSession.FormatTimeReadsBack | components/practice/VoicePracticeSession.tsx:142-146 | for a non-negative time, `formatTime` is `m:ss` and reads back as the whole seconds (minutes, then seconds of the minute padded to two digits) |
| PracticeSession.ClockReadsBack | components/practice/VoicePracticeSession.tsx:142-146 | minutes, a colon and two-digit seconds below 60 read back as minutes × 60 + seconds |
| PracticeSession.ClockParts | components/practice/VoicePracticeSession.tsx:143-144 | for a non-negative time, the whole minutes and the whole seconds of the minute are in range and add up to the whole seconds |
| PracticeSession.VoicePracticeSession.constructor | components/practice/VoicePracticeSession.tsx:29-37 | a new session is idle and unpaused, with no timer, zero elapsed time and estimate, and the balance still loading |
| PracticeSession.VoicePracticeSession.FetchCurrentTokens | components/practice/VoicePracticeSession.tsx:50-71 | without a user nothing changes, not even loading (this is the only case the component's own mount reaches, see `Mount`); with a user a returned row replaces the balance (`null` reads as 0), no row leaves it, and loading ends |
| PracticeSession.VoicePracticeSession.Mount | components/practice/VoicePracticeSession.tsx:41-51 | the mount effect as written runs the fetch once with the first render's user, which is always none, so nothing changes and loading stays on |
| PracticeSession.VoicePracticeSession.UserArrives | components/practice/VoicePracticeSession.tsx:50-71 | the corrected mount: the fetch re-runs once the user is known, so loading ends and a returned row sets the balance |
| PracticeSession.MountNeverLoads | components/practice/VoicePracticeSession.tsx:41-51 | as written, after mounting the screen is still loading (the spinner, with no Start button) and the balance is 0 |
| PracticeSession.CorrectedMountCanStart | components/practice/VoicePracticeSession.tsx:150-201 | with the corrected mount, a user holding one token gets past the spinner and Start starts the session |
| PracticeSession.VoicePracticeSession.StartSession | components/practice/VoicePracticeSession.tsx:73-89 | from the Start button, drawn only once loading has ended and while inactive: it starts if and only if the balance is at least 1; a refused start changes nothing; a start runs the timer from `now` and leaves elapsed time and estimate as they were |
| PracticeSession.VoicePracticeSession.Tick | components/practice/VoicePracticeSession.tsx:84-88 | elapsed time is the seconds since the start instant, and the estimate is that time times the rate |
| PracticeSession.VoicePracticeSession.PauseSession | components/practice/VoicePracticeSession.tsx:91-96 | only when running: it pauses and stops the timer, and elapsed time stays frozen |
| PracticeSession.VoicePracticeSession.ResumeSession | components/practice/VoicePracticeSession.tsx:98-107 | only when paused: it restarts the timer with the start instant moved back by the frozen time |
| PracticeSession.VoicePracticeSession.Record | components/practice/VoicePracticeSession.tsx:124-127 | the record carries the scenario title and the elapsed time rounded to the nearest second |
| PracticeSession.VoicePracticeSession.EndSession | components/practice/VoicePracticeSession.tsx:109-140 | it always returns to idle; a debit of the full-precision seconds happens only for a user and a positive time; the insert only after a successful debit; `onComplete` only after the insert settles |
| PracticeSession.VoicePracticeSession.RemainingTokens | components/practice/VoicePracticeSession.tsx:148 | the balance shown is the loaded balance less the estimate for the elapsed time |
| PracticeSession.VoicePracticeSession.StartFreshSession | components/practice/VoicePracticeSession.tsx:73-89 | the start with the stale-time defect corrected: the same gate, and a new session begins at zero elapsed time and estimate |
| PracticeSession.StaleElapsedTimeIsResent | components/practice/VoicePracticeSession.tsx:80-82 | assuming the corrected mount: a five-second session, then a start and an immediate end: the second end debits and records the same five seconds again |
| PracticeSession.FreshStartThenEndIsNoOp | components/practice/VoicePracticeSession.tsx:109-116 | with the corrected start, ending before the first tick makes no call and records nothing |
| PracticeSession.PauseResumeKeepsTime | components/practice/VoicePracticeSession.tsx:91-107 | tick, pause, resume, tick: the last reading is at least the time frozen by the pause |
| PracticeSession.FiveSecondSession | components/practice/VoicePracticeSession.tsx:109-134 | assuming the corrected mount: a five-second session debits 5 s once, inserts one five-second record, and completes once |
| PracticeSession.DoubleEndDebitsTwice | components/practice/VoicePracticeSession.tsx:109-120 | `endSession` has no guard: a second End repeats the same debit and the same completion |
| Onboarding.Without | components/onboarding/OnboardingFlow.tsx:48 | filtering out `x` removes every `x` and keeps every other element |
| Onboarding.ToggleGoalFlips | components/onboarding/OnboardingFlow.tsx:46-52 | the toggled goal's membership flips, no other goal's membership changes, and the other goals keep their relative order |
| Onboarding.WithoutAppend | components/onboarding/OnboardingFlow.tsx:46-52 | appending `x` and then filtering `x` out gives the same list as filtering alone |
| Onboarding.WithoutKeepsNoDuplicates | components/onboarding/OnboardingFlow.tsx:48 | filtering keeps a duplicate-free list duplicate-free |
| Onboarding.ToggleGoalNoDuplicates | components/onboarding/OnboardingFlow.tsx:46-52 | toggling keeps the goal list free of duplicates |
| Onboarding.ToggleGoalTwice | components/onboarding/OnboardingFlow.tsx:46-52 | toggling an absent goal twice gives back the original list |
| Onboarding.OnboardingFlow.constructor | components/onboarding/OnboardingFlow.tsx:31-36 | the wizard starts at step 0, with no level, no goals, and not loading |
| Onboarding.OnboardingFlow.CanProceed | components/onboarding/OnboardingFlow.tsx:76-80 | Continue is enabled at step 0, at step 1 if and only if a level is chosen, and at step 2 if and only if some goal is chosen |
| Onboarding.OnboardingFlow.ChooseLevel | components/onboarding/OnboardingFlow.tsx:104-121 | on step 1 a level button sets the level and enables Continue |
| Onboarding.OnboardingFlow.PressGoal | components/onboarding/OnboardingFlow.tsx:130-144 | on step 2 a goal button toggles that goal, keeping the list duplicate-free |
| Onboarding.OnboardingFlow.CompleteOnboarding | components/onboarding/OnboardingFlow.tsx:54-74 | without a user nothing happens; otherwise that user's profile gets the level, the goals and the completed flag; completion or the alert follow the outcome |
| Onboarding.OnboardingFlow.HandleNext | components/onboarding/OnboardingFlow.tsx:38-44 | below the last step it advances one step and sends nothing; on the last step it sends the update for a user, and completes if and only if there is a user and the update does not throw; nothing is sent without a user; the step stays in 0..2, and a submitted goal list is non-empty and duplicate-free |
| SessionFeedback.DurationReadsBack | components/feedback/SessionFeedback.tsx:93-97 | `Nm Ss` text with seconds below 60 reads back as N × 60 + S |
| SessionFeedback.FormatDurationReadsBack | components/feedback/SessionFeedback.tsx:93-97 | for a non-negative duration, `formatDuration` gives whole minutes and the remaining seconds, and reads back as the duration |
| SessionFeedback.SessionFeedback.constructor | components/feedback/SessionFeedback.tsx:24-26 | the confidence starts at 5, with empty notes and no save running |
| SessionFeedback.SessionFeedback.PressDot | components/feedback/SessionFeedback.tsx:123-131 | pressing dot `i` sets the confidence to `i + 1`, so it stays in 1..10 |
| SessionFeedback.SessionFeedback.EditNotes | components/feedback/SessionFeedback.tsx:177 | the notes are the typed text |
| SessionFeedback.SessionFeedback.Dots | components/feedback/SessionFeedback.tsx:123-136 | ten dots, where exactly the first `confidenceScore` are highlighted |
| SessionFeedback.SessionFeedback.BeginSave | components/feedback/SessionFeedback.tsx:71-83 | without a user or a session id there is no update and no save; otherwise the update writes only the confidence and notes, on the row matching the session and the user, and `saving` is on |
| SessionFeedback.SessionFeedback.FinishSave | components/feedback/SessionFeedback.tsx:84-90 | `saving` is off on every path, and `onComplete` runs if and only if the update resolved |
| SessionFeedback.SessionFeedback.HandleSaveFeedback | components/feedback/SessionFeedback.tsx:71-91 | the whole save: an update exactly when there is a user and a session id, `saving` off afterwards, and completion exactly when the update resolved |
| Conversation.Bars | components/VoiceChatInterface.native.tsx:70-79 | a redraw gives 10 bars of height in [5, 55), all 5 when the chat is idle |
| LiveVoiceChat.VoiceChat.constructor | components/VoiceChatInterface.native.tsx:25-27 | the transcript starts with exactly the partner's greeting, there are no bars yet, and the chat is unmuted |
| LiveVoiceChat.VoiceChat.OnConnect | components/VoiceChatInterface.native.tsx:32-40 | connecting appends one partner entry with the fixed connected line |
| LiveVoiceChat.VoiceChat.OnMessage | components/VoiceChatInterface.native.tsx:42-60 | an agent response appends the partner's text, a user transcript appends "You" and its text (`""` when absent), any other kind changes nothing; the old transcript is always a prefix |
| LiveVoiceChat.VoiceChat.ToggleMute | components/VoiceChatInterface.native.tsx:99-106 | the volume is set to 1 when unmuting and to 0 when muting, and the mute flag flips |
| LiveVoiceChat.VoiceChat.RedrawBars | components/VoiceChatInterface.native.tsx:70-79 | after a redraw there are 10 bars, all at height 5 when not connected or muted |
| LiveVoiceChat.VoiceChat.EndConversation | components/VoiceChatInterface.native.tsx:90-97 | `onEndSession` runs if and only if ending the SDK session did not throw |
| LiveVoiceChat.VoiceChat.StartConversation | components/VoiceChatInterface.native.tsx:81-88 | the alert is shown if and only if starting the SDK session threw |
| MockVoiceChat.Seed | components/VoiceChatInterface.tsx:31-44 | the seeded transcript is three entries: the partner, "You", the partner |
| MockVoiceChat.VoiceChat.constructor | components/VoiceChatInterface.tsx:22-27 | the mock chat starts seeded, not recording, not paused, with no bars |
| MockVoiceChat.VoiceChat.RunEffect | components/VoiceChatInterface.tsx:30-60 | the effect re-seeds the transcript to the three fixed entries |
| MockVoiceChat.VoiceChat.ToggleRecording | components/VoiceChatInterface.tsx:62-65 | recording flips, pausing is off, and the effect re-seeds the transcript |
| MockVoiceChat.VoiceChat.TogglePause | components/VoiceChatInterface.tsx:67-69 | while recording, pausing flips and the effect re-seeds the transcript |
| MockVoiceChat.VoiceChat.SkipTurn | components/VoiceChatInterface.tsx:71-85 | one partner entry with one of the three fixed responses is appended, and the old transcript is a prefix |
| MockVoiceChat.VoiceChat.SetPartnerName | components/VoiceChatInterface.tsx:60 | a new partner name re-seeds the transcript with that name; the same name changes nothing |
| MockVoiceChat.VoiceChat.RedrawBars | components/VoiceChatInterface.tsx:47-57 | 10 bars, all at height 5 unless recording and not paused |
| DailyChallenge.DateKey | components/challenges/DailyChallenge.tsx:34 | the date key is the longest prefix of the timestamp without a `T`: it is followed by a `T` when shorter than the timestamp, and is the whole timestamp when there is no `T` |
| DailyChallenge.DateKeyOfTimestamp | components/challenges/DailyChallenge.tsx:34 | the key of `date + "T" + time` is `date` |
| DailyChallenge.CompletedFlag | components/challenges/DailyChallenge.tsx:54 | completed if and only if a completion row exists and its flag is `true`; otherwise false |
| DailyChallenge.Stars | components/challenges/DailyChallenge.tsx:140-146 | five stars, exactly those with index below the difficulty highlighted, so their count is the difficulty clamped to 0..5 |
| DailyChallenge.DailyChallenge.constructor | components/challenges/DailyChallenge.tsx:19-22 | no challenge, no streak, not completed, loading |
| DailyChallenge.DailyChallenge.FetchDailyChallenge | components/challenges/DailyChallenge.tsx:31-62 | today's active challenge is queried by date key; the completion is queried only for a user and a loaded challenge; a missing row means not completed; once run, it ends loading on every path |
| DailyChallenge.DailyChallenge.FetchUserStreak | components/challenges/DailyChallenge.tsx:64-80 | the streak is the stored current streak for a user with a row, and otherwise unchanged |
| DailyChallenge.DailyChallenge.OnUserChange | components/challenges/DailyChallenge.tsx:24-29 | both fetches run only for a signed-in user; without one nothing happens, so a signed-out card keeps loading |
| DailyChallenge.DailyChallenge.HandleStartChallenge | components/challenges/DailyChallenge.tsx:82-91 | nothing without a challenge; the alert exactly when it is completed; otherwise the challenge is started once |
| AuthScreen.PostAuth | components/auth/AuthScreen.tsx:76-106 | a profile with the device fingerprint and the bonus request are made only when no profile exists, the bonus only after the insert; the welcome alert shows if and only if the bonus was requested and reported success; `onAuthSuccess` runs if and only if the fingerprint and the profile lookup did not throw and, when there was no profile, neither the insert nor the bonus call threw |
| AuthScreen.AuthScreen.constructor | components/auth/AuthScreen.tsx:23-27 | the screen starts in sign-in mode with empty fields, not loading |
| AuthScreen.AuthScreen.EnterFields | components/auth/AuthScreen.tsx:125-145 | the fields hold the typed text |
| AuthScreen.AuthScreen.ToggleMode | components/auth/AuthScreen.tsx:165 | the mode flips between sign-in and sign-up |
| AuthScreen.AuthScreen.HandleEmailAuth | components/auth/AuthScreen.tsx:29-74 | empty email or password, or an empty phone on sign-up, alert with no auth call; sign-up sends the phone as metadata; post-auth runs only after a successful auth with a user; loading is off afterwards |
| MainDashboard.GetScenarioDetails | app/index.tsx:32-51 | the three known ids map to their fixed name, partner and avatar, and any other id to the coffee-shop entry |
| MainDashboard.MainDashboard.constructor | app/index.tsx:18-19 | the dashboard starts on the practice tab with no scenario |
| MainDashboard.MainDashboard.ShowsVoiceChat | app/index.tsx:86-93 | the voice chat is shown exactly when a non-empty scenario id is selected |
| MainDashboard.MainDashboard.SelectScenario | app/index.tsx:24-26 | selecting sets the scenario id, which shows the chat |
| MainDashboard.MainDashboard.EndSession | app/index.tsx:28-30 | ending clears the scenario and hides the chat |
| MainDashboard.MainDashboard.PressTab | app/index.tsx:99-118 | a tab press sets the active tab to that tab |
| MainDashboard.MainDashboard.ChatDetails | app/index.tsx:86-91 | the chat shown always uses one of the three fixed scenario entries |
| TokenHooks.TokensOf | hooks/useTokens.ts:31-37 | a fetched row gives its two columns (`null` as 0) and their sum as the total |
| TokenHooks.TokenCache.constructor | hooks/useTokens.ts:5-19 | an empty balance, and loading only when there is a user id |
| TokenHooks.TokenCache.FetchTokens | hooks/useTokens.ts:21-43 | without a user id nothing happens; otherwise a row replaces the cache, no row leaves it, and loading ends |
| TokenHooks.TokenCache.ConsumeTokens | hooks/useTokens.ts:45-65 | without a user id it answers `No user ID` with no call; otherwise it calls `consume_tokens`, answers the error message or the returned data, and refetches only on success |
| TokenHooks.TokenCache.PurchaseTokens | hooks/useTokens.ts:67-88 | the same as consume, for `purchase_tokens` |
| TokenHooks.SubscriptionCache.constructor | hooks/useTokens.ts:100-110 | no subscription, and loading only when there is a user id |
| TokenHooks.SubscriptionCache.FetchSubscription | hooks/useTokens.ts:112-129 | the returned subscription or none replaces the cache, a thrown error leaves it, and loading ends |
| TokenHooks.SubscriptionCache.ActivateSubscription | hooks/useTokens.ts:131-157 | without a user id it answers `No user ID` with no call; otherwise it calls `activate_subscription` and refetches only on success |
| TokenHooks.SubscriptionCache.CancelSubscription | hooks/useTokens.ts:159-177 | without a user id or a subscription it answers `No active subscription` with no call; otherwise it marks that user's subscription cancelled, then refetches and answers success, or answers the error |
| DatabaseHooks.FirstRow | hooks/useDatabase.ts:55 | the first returned row, or none for `null` or no rows |
| DatabaseHooks.StampedInsert | hooks/useDatabase.ts:109-112 | the inserted row has the payload's columns and `user_id` set to the hook's user, overriding the payload's |
| DatabaseHooks.AuthState.constructor | hooks/useDatabase.ts:5-6 | no user, loading |
| DatabaseHooks.AuthState.OnSession | hooks/useDatabase.ts:10-19 | the user is the session's user or none, and loading ends |
| DatabaseHooks.ProfileCache.constructor | hooks/useDatabase.ts:43-50 | no profile, and loading only when there is a user id |
| DatabaseHooks.ProfileCache.FetchProfile | hooks/useDatabase.ts:52-61 | the first matched row or none; a thrown error leaves the profile; loading ends |
| DatabaseHooks.ProfileCache.UpdateProfile | hooks/useDatabase.ts:66-76 | without a user id it answers the error with no call; a reply sets the profile to its first row or none; a thrown error leaves it |
| DatabaseHooks.SessionList.constructor | hooks/useDatabase.ts:82-89 | no sessions, and loading only when there is a user id |
| DatabaseHooks.SessionList.FetchSessions | hooks/useDatabase.ts:91-100 | the returned rows, or no rows for `null`; a thrown error leaves the list; loading ends |
| DatabaseHooks.SessionList.AddSession | hooks/useDatabase.ts:105-118 | without a user id it answers the error with no call; the insert carries the user id; the inserted rows are appended after the existing ones and answered; a thrown insert is answered and leaves the list unchanged |
| DatabaseHooks.TwoSessionsAppendInOrder | hooks/useDatabase.ts:113 | two recorded sessions end up last, in the order they were recorded |
| DeviceFingerprint.FallbackSeed | lib/deviceFingerprint.ts:61 | the fallback seed is the clock, a dash and the random text, and splits back into the two |
| DeviceFingerprint.GetDeviceFingerprint | lib/deviceFingerprint.ts:8-66 | a stored id is returned and nothing is written; otherwise the attributes' hash is stored and returned; after a fault the fallback hash is, or the call rejects and nothing is written; only the one key changes |
| DeviceFingerprint.ClearDeviceFingerprint | lib/deviceFingerprint.ts:68-74 | only the key is removed; a failed removal is swallowed and changes nothing |
| DeviceFingerprint.LaterCallsAgree | lib/deviceFingerprint.ts:11-14 | once an id is handed out, a later call whose read succeeds hands out the same id |
| DeviceFingerprint.ReadFaultReplacesStoredId | lib/deviceFingerprint.ts:56-65 | a read that throws replaces a stored id with a fresh fallback id |
| DeviceFingerprint.ClearThenRegenerate | lib/deviceFingerprint.ts:68-74 | after a clear, the next call stores and returns a newly derived id |

## Left out

- Rendering, styling, icons and layout. This includes the purely presentational
  components (the performance dashboard, the feedback panel, the token display,
  the scenario selector and the subscription plans).
- The hosted database client, the query builder, and the server-side procedures
  `consume_tokens`, `purchase_tokens`, `grant_registration_bonus` and
  `activate_subscription`. These are not in the repository; their outcomes are
  parameters.
- The voice SDK's audio, connection status and volume control. Its callbacks are
  methods, and `startSession`/`endSession` are outcomes passed in.
- `setInterval` timing and async interleaving. A tick is a call with the current
  instant. Async handlers run to completion, except the feedback save, which is
  split at its one await so that `saving` can be seen on.
- `Math.random` is a supplied sequence of draws in [0, 1) (`Conversation.RandomDraws`).
- SHA-256 and the gathering of device attributes. The hash is a function
  parameter, and the attribute text is an opaque string.
- Number-to-text only for integers; JavaScript's exponent notation for very large
  magnitudes and `NaN` are not modelled.
- `MainDashboard.GetScenarioDetails`: ids that name an inherited property of a
  JavaScript object (such as `toString`) are treated as unknown ids.
- LiveVoiceChat.VoiceChat.constructor: the live chat keeps the greeting of the
  partner name it was mounted with; a later change of that prop is not modelled.
- `useConversationScenarios` and the `signUp`, `signIn` and `signOut` helpers of
  `useAuth`: pass-throughs with no client-side logic. The unsubscribe on unmount
  is not modelled either.
- Alert and error-log text, and the `onError` callback of the live chat: only
  whether an alert is shown is modelled.
- PracticeSession.VoicePracticeSession.FetchCurrentTokens: the intermediate
  loading spinner during the fetch is not modelled, only its final state.
- The estimate rate is the decimal 0.02778 the code uses, not exactly one token
  per 36 seconds, so 360 s estimate 10.0008 tokens.
- PracticeSession.TokensLinear: holds for exact reals. JavaScript multiplies in
  binary doubles, where 0.02778 is not exact, so the double results can differ
  from the real ones by rounding in the last place.
- PracticeSession.ResumeContinuesElapsed: holds for exact reals. The rebased start
  and the elapsed time are computed in doubles, so a tick right after a resume can
  read a time that differs from the frozen one by a rounding error.
- PracticeSession.VoicePracticeSession.Tick: elapsed time and estimate are exact
  reals, not doubles.
- DatabaseHooks.SessionList.AddSession: the insert selects its rows back, so it
  resolves to rows or throws; a `null` reply cannot occur and is not modelled.
- Ending a practice session returns it to the start screen, as the code does,
  rather than to a terminal ended state.

## Findings

| source | as written | input that shows it | evidently intended | confidence | as-written member | corrected member |
|---|---|---|---|---|---|---|
| components/practice/VoicePracticeSession.tsx:41-51 | the mount effect has an empty dependency list, so its fetch sees the first render's user, which the auth hook always starts as `null`; the fetch returns before its `finally`, so loading is never cleared | mount the practice screen while signed in: it shows the spinner for good and the Start button is never drawn | the fetch runs again once the user is known (the effect depends on the user), so loading ends with the user's balance | not executed | PracticeSession.MountNeverLoads | PracticeSession.VoicePracticeSession.UserArrives |
| components/practice/VoicePracticeSession.tsx:80-82 | `startSession` keeps the previous session's `elapsedTime` and `tokensConsumed`; `endSession` sends whatever `elapsedTime` holds | with the mount corrected, run a five-second session and end it, then Start and press End before the first 100 ms tick: the second end debits 5 s again and records another five-second session | a new session starts from zero elapsed time, so an immediate end debits and records nothing | not executed | PracticeSession.StaleElapsedTimeIsResent | PracticeSession.VoicePracticeSession.StartFreshSession |
