# Void mindfulness companion: a Dafny model of its core

Void is a single-user, browser-local mindfulness app. A user onboards with a
name, a goal (Relax, Focus or Sleep), a session length and a mood. Starting a
session assembles a guided script from fixed templates; the user plays it,
finishes, and checks in with an after-mood and an optional journal note. The
check-in is committed to a persisted store that keeps the newest ten records
and a day streak. Consecutive starts at the lowest mood raise a care banner.

This project models, in Dafny:

- `generator.dfy`, module `Generator` (`src/utils/ai.ts`): the content
  generator as a pure function. Its two random picks are the index parameters
  `bodyIx` and `promptIx`. Lemmas give the script's six-segment layout, spelled
  out segment by segment on the output of `Generate` (`ScriptSpelledOut`), and
  the rules for the greeting, the note line and the mood line that fill its
  second and third segments. They also show that
  the tip is fixed per goal and that the output ignores `length` and every
  note after the first.
- `store.dfy`, module `Store` (`src/hooks/useAppStore.ts`): the store as a
  class `AppStore` with one field per state entry. `LogSession` is specified by
  the pure `Logged` function on `StoreState` values. Each setter is specified as
  the old state with that one field replaced. Lemmas
  cover the streak rule, newest-first history, the cap of ten and the mood
  hand-over. Another lemma proves that the `partialize` projection keeps
  exactly seven fields. A further lemma proves that the streak never falls
  below the number of distinct-day runs left in the history.
- `controller.dfy`, module `Controller` (the handlers of `src/App.tsx`): a
  class `App` that owns the store and the screen state. It has one method per
  handler. The module also holds the offline fallback table, the
  `recentNotes` derivation and the severe-mood counter. That counter is proved
  to count the trailing run of lowest-mood starts.
- `history_chip.dfy`, module `HistoryChip` (`src/components/HistoryChip.tsx`):
  the seven-record window and its "checked in today" flag.
- `breathing_timer.dfy`, module `BreathingTimer`
  (`src/components/BreathingTimer.tsx`): the three-phase timer as a class
  `Timer` with a `Tick` method, specified by the pure `Step`. One lemma shows
  that 70 ticks bring the timer back to its starting state.
- `wrappers.dfy`, module `Wrappers`: `Option`, which stands for `undefined`
  and `null`.

The calendar day (`new Date().toISOString().slice(0, 10)`), the record id and
the random picks are parameters. A failing generator is the boolean
`generationFails`. Browser speech is only the `isPlaying` flag and the
`speechSupported` capability.

Two behaviours of the code worth knowing:

- The severe-mood banner is screen-local state that starts as "none". After a
  reload it is therefore hidden even when the persisted counter is already 3
  or more. It reappears only if the next session starts at mood 1, which
  raises the counter again. A start at any other mood resets the counter to 0
  and the banner stays hidden.
- The generator filters out empty segments, but no segment can be empty. The
  script is therefore always exactly six segments (`ScriptLayout`).

## Model

| member | source | states |
|---|---|---|
| `Generator.Generate` | src/utils/ai.ts:71-104 | for in-range picks, `audioText` equals `script`, the reflection is one of the goal's prompts and the tip is from the goal's tip table |
| `Generator.TablesTotal` | src/utils/ai.ts:18-67 | every goal has an intro, three non-empty bodies, a closer, two prompts and one tip, so generation is total |
| `Generator.TruthyKeepsNonEmpty` | src/utils/ai.ts:95 | `filter(Boolean)` removes nothing from a list of non-empty strings |
| `Generator.TruthyDropsEmpty` | src/utils/ai.ts:95 | what `filter(Boolean)` keeps is never empty |
| `Generator.JoinSix` | src/utils/ai.ts:96 | joining six parts puts exactly one space between neighbours |
| `Generator.JoinEnds` | src/utils/ai.ts:96 | a join begins with its first part and ends with its last part |
| `Generator.SegmentsNonEmpty` | src/utils/ai.ts:87-94 | none of the six segments is ever empty |
| `Generator.ScriptLayout` | src/utils/ai.ts:87-96 | the script is settle text, intro, note line plus mood line, body, count reminder and closer, in that order, joined by single spaces |
| `Generator.ScriptSpelledOut` | src/utils/ai.ts:72-96 | the generated script is settle text, the greeting intro, the note line followed by the mood line, the picked body, the count reminder and the closer, separated by single spaces |
| `Generator.ScriptFrame` | src/utils/ai.ts:87-96 | the script starts with the settling instruction and ends with the goal's closer |
| `Generator.MoodLineChoice` | src/utils/ai.ts:83-85 | mood at most 2 selects the heaviness line; mood 3 or more selects the mirror line |
| `Generator.NoteLineChoice` | src/utils/ai.ts:81 | "Remember: <note>. " is present exactly when the first recent note is non-empty, and it quotes that note |
| `Generator.GreetingChoice` | src/utils/ai.ts:73 | a non-empty name appears as "Hi <name>,"; an empty name gives "Hi there," |
| `Generator.GenerateDependencies` | src/utils/ai.ts:71-96 | the output is the same for payloads that agree on name, goal, mood band and first note, so `length` and later notes never matter |
| `Generator.MicroTipFixed` | src/utils/ai.ts:80 | the tip is the goal's single tip, whatever the mood, notes or picks |
| `Generator.PicksFromTables` | src/utils/ai.ts:74-79 | the body segment is one of the goal's bodies and the reflection one of its prompts |
| `Store.LoggedHistory` | src/hooks/useAppStore.ts:65 | after a commit, the new record is first, the old records follow in order, and the length is min(old + 1, 10) |
| `Store.LoggedEvictsOldest` | src/hooks/useAppStore.ts:65 | committing onto ten records gives the new record followed by the nine newest old ones |
| `Store.LoggedCapped` | src/hooks/useAppStore.ts:65 | a history never exceeds ten records; below ten it grows by exactly one |
| `Store.LoggedStreak` | src/hooks/useAppStore.ts:62-64 | the streak is unchanged exactly when the newest record is dated today and grows by one otherwise; it never drops, grows by at most one, and always grows on an empty history |
| `Store.LoggedFrame` | src/hooks/useAppStore.ts:66-70 | a commit sets the mood to the record's after-mood and leaves profile, onboarding flag, today's bundle, severe count and last reminder alone |
| `Store.SameDayTwice` | src/hooks/useAppStore.ts:62-64 | two commits on the same day, the first dated today, raise the streak by at most one in total |
| `Store.TwoDays` | src/hooks/useAppStore.ts:62-64 | commits on two different days raise the streak by exactly two when the first day is not already the newest record's day |
| `Store.DayRunsPrefix` | src/hooks/useAppStore.ts:65 | truncating the history never adds distinct-day runs |
| `Store.LoggedKeepsRunsBelowStreak` | src/hooks/useAppStore.ts:60-71 | if each record is dated on its commit day, the number of distinct-day runs in history stays at or below the streak |
| `Store.PartializeKeepsExactlySeven` | src/hooks/useAppStore.ts:76-84 | two states persist alike exactly when they agree on everything but `lastReminder` |
| `Store.AppStore.Persisted` | src/hooks/useAppStore.ts:74-85 | the object persists profile, onboarding flag, mood, streak, history, today's bundle and severe count as they stand, and nothing else (the `partialize` projection) |
| `Store.AppStore.constructor` | src/hooks/useAppStore.ts:49-55 | initial state: no profile, onboarding not complete, mood 3, streak 0, no sessions, no bundle, severe count 0 |
| `Store.AppStore.SetProfile` | src/hooks/useAppStore.ts:56 | replaces the profile and nothing else |
| `Store.AppStore.SetOnboardingComplete` | src/hooks/useAppStore.ts:57 | replaces the onboarding flag and nothing else |
| `Store.AppStore.SetCurrentMood` | src/hooks/useAppStore.ts:58 | replaces the mood and nothing else |
| `Store.AppStore.SetTodaySession` | src/hooks/useAppStore.ts:59 | replaces today's bundle (or clears it) and nothing else |
| `Store.AppStore.SetSevereMoodCount` | src/hooks/useAppStore.ts:72 | replaces the severe count and nothing else |
| `Store.AppStore.LogSession` | src/hooks/useAppStore.ts:60-71 | the new state is `Logged` of the old one, and the history stays within ten records |
| `Controller.SessionContentSpeaksScript` | src/App.tsx:123-148 | the bundle shown by a started session always speaks its own script; the fallback's script is the goal's offline text; a generated script opens with the settling instruction |
| `Controller.NotesOfSound` | src/App.tsx:91-98 | every collected note is non-empty and belongs to some record |
| `Controller.NotesOfNewestFirst` | src/App.tsx:91-98 | the first collected note comes from the newest record that has a note; none are collected exactly when no record has one |
| `Controller.NotesOfSplit` | src/App.tsx:91-98 | collected notes keep history order: notes of newer records come before notes of older ones |
| `Controller.RecentNotesSpec` | src/App.tsx:91-98 | recent notes are the first min(3, n) collected notes, all non-empty, each the note of some stored record, the first one from the newest noted record |
| `Controller.NoteCarriedToNextSession` | src/App.tsx:91-98 | after a check-in with a non-empty note, the next script's note line quotes exactly that note |
| `Controller.CountIsTrailingLows` | src/App.tsx:119-120 | after a series of starts, the severe count is the number of trailing mood-1 starts, plus the old value if every start was at mood 1 |
| `Controller.BannerAfterStarts` | src/App.tsx:119-121 | from a reset counter, the warning shows exactly when the last three starts were at mood 1 |
| `Controller.App.constructor` | src/App.tsx:63-70 | view home, onboarding shown exactly when not complete, not playing, no banner, last result mirrors today's bundle, no notes |
| `Controller.App.OnboardingComplete` | src/App.tsx:100-108 | stores profile and mood, marks onboarding complete, returns home with the drawer closed |
| `Controller.App.StartSession` | src/App.tsx:110-149 | without a profile, only shows onboarding; otherwise updates the severe count, sets the banner from it, stores the generated or fallback bundle as today's and as last result, stops playback, clears notes and shows the session |
| `Controller.App.TogglePlay` | src/App.tsx:151-167 | does nothing without speech support or a bundle; otherwise flips playback; nothing else changes |
| `Controller.App.PlaybackEnded` | src/App.tsx:163 | the end of speech clears the playing flag only |
| `Controller.App.FinishSession` | src/App.tsx:169-173 | stops playback and shows the check-in; the store is untouched |
| `Controller.App.Back` | src/App.tsx:290 | returns to the session view; nothing else changes |
| `Controller.App.SubmitCheckout` | src/App.tsx:175-193 | a no-op without profile or result; otherwise commits one record (prior mood as before-mood, the given after-mood, notes absent when empty, text copied from the result) and shows the completion view with the mood set |
| `Controller.App.DoAnother` | src/App.tsx:195-197 | returns home; nothing else changes |
| `HistoryChip.AnyDatedOnIff` | src/components/HistoryChip.tsx:18 | the `some` check holds exactly when some record is dated today |
| `HistoryChip.ChipSpec` | src/components/HistoryChip.tsx:8-24 | empty history gives the "no sessions yet" face; otherwise the chip shows min(7, length) and "checked in today" exactly when one of those records is dated today |
| `HistoryChip.ChipIgnoresOlder` | src/components/HistoryChip.tsx:16-18 | records after the seventh never change the chip |
| `HistoryChip.ChipAfterCheckIn` | src/components/HistoryChip.tsx:16-18 | right after a record dated today is committed, the chip says the user checked in today |
| `BreathingTimer.StepSpec` | src/components/BreathingTimer.tsx:13-26 | a tick adds 200 ms; on reaching the phase duration the next phase starts at 0; the phase stays in range and the clock stays a multiple of 200 below the duration |
| `BreathingTimer.PhaseCycle` | src/components/BreathingTimer.tsx:3-7 | phases run Inhale, Hold, Exhale, then Inhale again |
| `BreathingTimer.StepsAdd` | src/components/BreathingTimer.tsx:13-26 | a + b ticks are a ticks followed by b ticks |
| `BreathingTimer.StepsWithinPhase` | src/components/BreathingTimer.tsx:15 | inside a phase, k ticks add k times 200 ms |
| `BreathingTimer.PhaseLasts` | src/components/BreathingTimer.tsx:20-25 | a phase started at 0 lasts duration / 200 ticks, after which the next phase starts at 0 |
| `BreathingTimer.FullCycle` | src/components/BreathingTimer.tsx:3-26 | from the initial state, 70 ticks (14 s) give the initial state again |
| `BreathingTimer.Timer.constructor` | src/components/BreathingTimer.tsx:10-11 | the timer starts in Inhale at 0 ms, a reachable state |
| `BreathingTimer.Timer.Label` | src/components/BreathingTimer.tsx:28 | the label on screen is Inhale, Hold or Exhale |
| `BreathingTimer.Timer.Tick` | src/components/BreathingTimer.tsx:13-26 | the new state is `Step` of the old one, and the reachable-state invariant is kept |

## Left out

- Rendering, styling and the sentence splitting in `SessionPlayer.tsx`: presentation only. The same goes for `StreakPill.tsx`, `TodayCard.tsx`, `PrivacyModal.tsx` and the privacy dialog's `showPrivacy` flag.
- `isGenerating`: it is set and cleared within the same synchronous handler, so it never changes what the handler leaves behind.
- Browser speech (`speechSynthesis`, utterance rate and pitch, `cancel`): a foreign API. Playback is only the `isPlaying` flag, and the end-of-speech callback is `PlaybackEnded`.
- Zustand's `create`/`persist`, serialisation, `localStorage` and rehydration: library code that is not part of this model. Only the `partialize` projection is modelled, so the serialise/deserialise round trip is not.
- React scheduling and effects: each handler is one sequential update. The effect that copies `todaySession` into `lastResult` is the invariant `App.Valid()`. `OnboardingComplete` closes the drawer (`showOnboarding` false) because the drawer calls its `onClose` after completing, not through the effect that syncs `showOnboarding` from `onboardingComplete`, which does not fire when onboarding was already complete.
- `createSessionId` and the clock: the id and the calendar day are parameters.
- The "Personalize my calm", "Back home" and drawer-close buttons: one-line view or flag setters. "Back home" does what `DoAnother` does.
- `OnboardingDrawer.tsx` and `CheckOut.tsx`: form widgets. Their only logic, the `'Friend'` default name and the trimming of notes, happens before the controller is called, and the controller takes those values as given.
- The timer's `progress` and scale values, and `setInterval` timing: floating point and wall time. Each interval firing is one `Tick`.
- Controller.App.constructor: it requires that the streak is at least the number of distinct-day runs in the stored history. Every state the app reaches this way satisfies it, but only because `SubmitCheckout` dates the record with the same `today` that the streak rule compares against. With two different clock reads, a record dated on a different day from the comparison day could break it.
- Controller.App.SubmitCheckout: the record's date and the day `logSession` compares against come from two clock reads in the source. The model uses one `today` for both, so a check-in that straddles midnight is not modelled.
- Store.AppStore.SetSevereMoodCount: the count is a `nat`, whereas the source accepts any number. The controller only ever passes non-negative integers.
