# Grow My Plant focus timer — a verified model of its core

This project models the core of the "Grow My Plant" focus timer, written in Dafny. The timer is a
Pomodoro app: focus sessions alternate with short breaks, a long break comes
after every fourth focus session, and a plant grows as sessions complete. A
music screen plays looping ambience files or a synthesized noise source. The
model covers five pieces:

- **Types.dfy**: the shared vocabulary.
  - Modes, the settings record, music tracks and categories.
  - Constants: the default settings, the long-break threshold of 4 and the ten-track catalog.
- **Pomodoro.dfy**: the timer hook.
  - Pure transition functions on a `Timer` value (switching mode, completion, tick, toggle, reset, one clock second).
  - Lemmas about arbitrary runs from mount.
  - The class `PomodoroTimer`, whose methods are proved against those functions. Sound effects go to a ghost event log.
- **MusicPlayer.dfy**: the playback hook.
  - Every audio file element and every synthesized source the hook creates lives in a table. The hook's three references are indices into those tables, so an element that is no longer referenced still exists and can still play.
  - The noise-source factory is an opaque call whose success is a parameter.
  - The asynchronous outcomes of starting a file (start resolved, start rejected, load error) are events that may arrive for any element at any later time.
  - The class `Controller` is proved against the pure functions. It keeps the invariant `Consistent`, which gives exclusivity: never a live synth source next to a playing file, and never two playing files.
- **TimerView.dfy**: the timer screen's helpers.
  - The `MM:SS` clock text, with a round-trip proof.
  - The completed-session count, the growth-stage clamp, the four progress leaves, and the mode labels and colours.
- **SettingsView.dfy**: the settings screen.
  - The record updates sent to the host.
  - The slider class: the minutes it shows, the sync effect, and the commit-only-if-changed guard.
- **MusicView.dfy**: the music screen.
  - The category filter, with order, membership and exactly-once proofs.
  - The "this tile is playing" predicate, the empty-grid placeholder, the footer, and the tab state class.

Where a comment in the source and the code differ, the model follows the code:

- **Pressing start at zero.** The comment at hooks/usePomodoro.ts:94 reads as if pressing start at 0 restarts the current mode. The code flips `isActive` rather than setting it to true (hooks/usePomodoro.ts:97). `Pomodoro.Toggle` flips. In every reachable state a timer at zero is inactive, because the completion effect has already run. So a flip from there always starts the timer.
- **Settings edits while paused.** The note on the settings screen (views/SettingsView.tsx:171) says changes apply immediately to a paused timer. The hook deliberately ignores settings edits until a reset or the next phase (hooks/usePomodoro.ts:14-18). `Pomodoro.PausedTimerIgnoresEdits` states what the hook does.
- **Resuming a paused file.** The resume path raises `isPlaying` before `play()` settles (hooks/useMusicPlayer.ts:59-60). `MusicPlayer.Resumed` does the same, except for an element that failed to load (see Findings).

## Model

| member | source | states |
|---|---|---|
| Types.CatalogIdsDistinct | constants.ts:17-33 | The ten catalog ids are pairwise distinct, so an id determines a catalog track |
| Pomodoro.Start | hooks/usePomodoro.ts:7-10 | Mount state: FOCUS, session 1, inactive, focus duration of the given settings; it satisfies the invariant and is not due |
| Pomodoro.NextPhase | hooks/usePomodoro.ts:22-38 | The next mode is FOCUS exactly after a break. It is LONG_BREAK exactly after a focus session with count >= 4. Leaving focus keeps the count; leaving a short break adds one to it, and leaving the long break resets it to 1. The phase invariant (count in 1..4, short break below 4, long break at 4) is preserved |
| Pomodoro.SwitchMode | hooks/usePomodoro.ts:21-46 | The countdown stops. The new mode and count are `NextPhase` of the old ones, and the new mode's duration is read from the settings current at that moment. FOCUS is entered exactly when a break ended. The invariant is kept |
| Pomodoro.SessionEndSounds | hooks/usePomodoro.ts:48-55 | A session-end sound plays only when that option is on. It is the focus-end tone exactly when the finished mode was FOCUS; never a tick |
| Pomodoro.Complete | hooks/usePomodoro.ts:59-63 | The completion effect leaves the timer not due. When the timer was due it is exactly `SwitchMode` of it; otherwise nothing changes. The invariant is kept |
| Pomodoro.CompleteSounds | hooks/usePomodoro.ts:59-63 | The completion effect makes sound only when it fires, and then it is the session-end sound of the finished mode |
| Pomodoro.TickStep | hooks/usePomodoro.ts:67-73 | A tick never makes the time negative. It takes exactly one second off positive time and leaves 0 at 0. Mode, activity and count are untouched |
| Pomodoro.TickSounds | hooks/usePomodoro.ts:68-71 | The tick sound plays exactly when the tick decrements and the tick sound is enabled |
| Pomodoro.Toggle | hooks/usePomodoro.ts:92-98 | `isActive` flips. At zero the time reloads from the current settings for the current mode; otherwise the time is kept. Mode and count are untouched and the invariant is kept |
| Pomodoro.Reset | hooks/usePomodoro.ts:100-104 | Inactive, with the time set to the current mode's duration from the current settings; mode and count are untouched and the invariant is kept |
| Pomodoro.Ticked | hooks/usePomodoro.ts:77-79 | The interval ticks only while the timer is active with time left; otherwise the second leaves the timer as it was |
| Pomodoro.Second | hooks/usePomodoro.ts:77-79 | One host-clock second (a tick only while active with time left, then the completion effect) keeps the invariant and never leaves the timer due |
| Pomodoro.SecondSounds | hooks/usePomodoro.ts:48-74 | One second makes at most two sounds. The tick sound is among them exactly when the timer ticked with tick sounds on. When that option is on and the tick brought the timer to its due state, the focus-end tone is among them exactly when the finished mode was FOCUS, and the break-end tone exactly when it was a break. Otherwise there is no session-end sound |
| Pomodoro.Step | hooks/usePomodoro.ts:14-104 | Every input (clock second, start/pause, reset, settings edit) followed by the completion effect keeps the invariant and leaves the timer not due. A settings edit replaces the settings and leaves a timer that is not due untouched; the other inputs keep the settings |
| Pomodoro.Run | hooks/usePomodoro.ts:14-104 | Any sequence of inputs from a state satisfying the invariant keeps it |
| Pomodoro.PausedTimerIgnoresEdits | hooks/usePomodoro.ts:14-18 | A settings edit while paused mid-phase leaves the timer, and its time, exactly as they were, even when the new duration differs. A following reset loads the new duration |
| Pomodoro.ReachableFromMount | types.ts:17 | From mount, under any inputs, the count stays in 1..4. Short breaks happen only below 4 and the long break only at 4. The time left is never negative |
| Pomodoro.CompletionFiresOnce | hooks/usePomodoro.ts:59-63 | The completion effect fires once per phase: a second run changes nothing and makes no sound, whatever the settings are by then |
| Pomodoro.EditsDoNotTouchRunningPhase | hooks/usePomodoro.ts:14-18 | While a phase runs, settings edits interleaved with fewer ticks than the time left change only the time, by one second per tick |
| Pomodoro.Phases | hooks/usePomodoro.ts:22-38 | Every phase reached from mount satisfies the phase invariant |
| Pomodoro.FirstCycle | hooks/usePomodoro.ts:22-38 | From mount the phases are FOCUS 1, SHORT 1, FOCUS 2, SHORT 2, FOCUS 3, SHORT 3, FOCUS 4, LONG 4, then FOCUS 1 again |
| Pomodoro.PhasesPeriodic | hooks/usePomodoro.ts:22-38 | The phase sequence repeats every eight phases |
| Pomodoro.StepFollowsPhases | hooks/usePomodoro.ts:21-63 | From the n-th phase, one input leaves the timer in phase n or phase n + 1 |
| Pomodoro.RunFollowsPhasesFrom | hooks/usePomodoro.ts:21-104 | From the k-th phase, any run of inputs ends in some phase n >= k |
| Pomodoro.RunFollowsPhases | hooks/usePomodoro.ts:21-104 | From mount, any run of inputs ends in a phase of the sequence `Phases`: the timer only ever moves along that sequence |
| Pomodoro.LongBreakEveryFourthFocus | hooks/usePomodoro.ts:26-31 | Phase n is the long break iff n mod 8 = 7, and a focus phase iff n is even |
| Pomodoro.PomodoroTimer.constructor | hooks/usePomodoro.ts:7-10 | A new timer is in the mount state with an empty sound log |
| Pomodoro.PomodoroTimer.UpdateSettings | hooks/usePomodoro.ts:14-18 | Replacing the settings changes none of mode, time, activity or count |
| Pomodoro.PomodoroTimer.Tick | hooks/usePomodoro.ts:66-74 | Updates the time as `TickStep` and logs `TickSounds`; the invariant is kept |
| Pomodoro.PomodoroTimer.CheckCompletion | hooks/usePomodoro.ts:59-63 | Reports whether it fired, which happens exactly when the timer was due. The new state is `Complete` and the log gains `CompleteSounds` |
| Pomodoro.PomodoroTimer.SwitchModeNow | hooks/usePomodoro.ts:21-56 | The new state is `SwitchMode` of the old one, and the log gains the finished mode's session-end sound |
| Pomodoro.PomodoroTimer.ClockSecond | hooks/usePomodoro.ts:59-90 | One host second moves the state as `Second` and leaves the timer valid and not due. It reports whether the completion effect fired, which happens exactly when the tick made the timer due. The log gains `SecondSounds` |
| Pomodoro.PomodoroTimer.ToggleTimer | hooks/usePomodoro.ts:92-98 | The new state is `Toggle` of the old one; the invariant is kept |
| Pomodoro.PomodoroTimer.ResetTimer | hooks/usePomodoro.ts:100-104 | The new state is `Reset` of the old one; the invariant is kept |
| MusicPlayer.NewFileHandle | hooks/useMusicPlayer.ts:71-76 | A new file element has the track's source, loops, has volume 0.7, sits at position 0, is not playing and has its start pending |
| MusicPlayer.Stopped | hooks/useMusicPlayer.ts:14-38 | The referenced file element is paused and rewound, and the reference is kept; its pending start, if any, stays pending. The referenced synth source is stopped and both synth references are dropped. The gain is disconnected. Not playing; every other element is untouched |
| MusicPlayer.StoppedIdempotent | hooks/useMusicPlayer.ts:14-38 | Stopping twice is the same as stopping once |
| MusicPlayer.PausedInPlace | hooks/useMusicPlayer.ts:42-53 | Pausing the current file pauses only its element, keeps its position and its pending start, and clears the flag |
| MusicPlayer.Cancelled | hooks/useMusicPlayer.ts:97 | Corrected: withdrawing the pending start disarms only the referenced element; nothing else changes, and no element is lost |
| MusicPlayer.ResumedAsWritten | hooks/useMusicPlayer.ts:57-61 | As written: resuming raises the flag. The current element plays from its position unless it failed to load, in which case nothing changes but the flag |
| MusicPlayer.Resumed | hooks/useMusicPlayer.ts:57-61 | Corrected: the flag goes up exactly when the current element has not failed to load. Then only that element plays, from its position; otherwise no element changes. Nothing else changes |
| MusicPlayer.Started | hooks/useMusicPlayer.ts:66-109 | A FILE track gets one new looping element at volume 0.7 with its start pending; the flag stays down and no synth is referenced. A SYNTH track gets one new live source with its gain when the factory succeeds, and the flag is up exactly then. Existing elements are untouched |
| MusicPlayer.Played | hooks/useMusicPlayer.ts:40-110 | Same track playing: FILE pauses in place and (corrected) withdraws its pending start, SYNTH stops everything. Same FILE track paused: resume in place. Otherwise stop everything, then start the track |
| MusicPlayer.StartResolvedAsWritten | hooks/useMusicPlayer.ts:85-97 | As written: a pending start of any element, current or not, plays it and raises the flag. Nothing else changes |
| MusicPlayer.StartRejectedAsWritten | hooks/useMusicPlayer.ts:86-91 | As written: a rejected start of any element leaves it paused with no start pending, and clears the flag. Nothing else changes |
| MusicPlayer.LoadFailedAsWritten | hooks/useMusicPlayer.ts:79-83 | As written: a load error of any element leaves it paused, failed and with no start pending, and clears the flag. Nothing else changes |
| MusicPlayer.StaleStartOverlapsSynth | hooks/useMusicPlayer.ts:85-97 | Select White Noise, then Pink Noise before the file is ready, and the file's start resolves: a file plays next to the synth source |
| MusicPlayer.StaleStartOrphansFile | hooks/useMusicPlayer.ts:14-19 | Select White Noise, then Rain before White Noise is ready, and the old start resolves: an unreferenced element plays, and stopping does not silence it |
| MusicPlayer.StaleErrorHidesPlayback | hooks/useMusicPlayer.ts:79-83 | Select White Noise, then Pink Noise, and the old element fails to load: the synth source is live but the flag reads "not playing" |
| MusicPlayer.StaleRejectionHidesPlayback | hooks/useMusicPlayer.ts:88-91 | Select White Noise, then Pink Noise, and the old element's start is rejected: the synth source is live but the flag reads "not playing" |
| MusicPlayer.PendingStartOutlivesStop | hooks/useMusicPlayer.ts:14-19 | Select White Noise, then stop (leaving the screen) or resume and pause it, before the file is ready; the start then resolves: the file plays and the flag is up, and after a stop even the corrected handler plays it |
| MusicPlayer.RetryAfterErrorShowsPlaying | hooks/useMusicPlayer.ts:57-61 | Select Rain, its file fails to load, click Rain again: as written the flag is up while nothing is audible; with the corrected resume the flag stays down |
| MusicPlayer.StartResolved | hooks/useMusicPlayer.ts:85-87 | Corrected: a resolved start plays the element only if it is the current FILE track's element. Only that element's start settles. Otherwise the outcome is discarded: the element's status and the flag stay, and nothing else changes |
| MusicPlayer.StartRejected | hooks/useMusicPlayer.ts:88-91 | Corrected: a rejected start clears the flag only for the current FILE track's element. Only that element's start settles; nothing else changes |
| MusicPlayer.LoadFailed | hooks/useMusicPlayer.ts:79-83 | Corrected: the failed element stops and is marked failed. The flag is cleared exactly when the element is the current FILE track's. Nothing else changes |
| MusicPlayer.Elapsed | hooks/useMusicPlayer.ts:71-73 | Time passing moves the element's position by the elapsed time exactly when it is playing. It changes no status, not the flag and no other element |
| MusicPlayer.Consistent | hooks/useMusicPlayer.ts:66-68 | The controller invariant implies exclusivity: no synth next to a file, never two files |
| MusicPlayer.IdleConsistent | hooks/useMusicPlayer.ts:6-12 | The fresh controller satisfies the invariant |
| MusicPlayer.StoppedSilences | hooks/useMusicPlayer.ts:14-38 | From a consistent state, stopping leaves no file playing and no synth live, and keeps the invariant |
| MusicPlayer.PausedInPlaceKeepsConsistent | hooks/useMusicPlayer.ts:42-53 | Pausing the current file keeps the invariant |
| MusicPlayer.ResumedKeepsConsistent | hooks/useMusicPlayer.ts:57-61 | Resuming the paused current FILE track keeps the invariant |
| MusicPlayer.CancelledKeepsConsistent | hooks/useMusicPlayer.ts:97 | Withdrawing the pending start keeps the invariant |
| MusicPlayer.StartedKeepsConsistent | hooks/useMusicPlayer.ts:66-109 | Stopping, then starting a catalog track, keeps the invariant |
| MusicPlayer.PlayedKeepsConsistent | hooks/useMusicPlayer.ts:40-110 | Every click on a catalog track keeps the invariant |
| MusicPlayer.StartResolvedKeepsConsistent | hooks/useMusicPlayer.ts:85-87 | The corrected resolution handler keeps the invariant |
| MusicPlayer.StartRejectedKeepsConsistent | hooks/useMusicPlayer.ts:88-91 | The corrected rejection handler keeps the invariant |
| MusicPlayer.LoadFailedKeepsConsistent | hooks/useMusicPlayer.ts:79-83 | The corrected error handler keeps the invariant |
| MusicPlayer.ElapsedKeepsConsistent | hooks/useMusicPlayer.ts:71-73 | Playback time passing keeps the invariant |
| MusicPlayer.Apply | hooks/useMusicPlayer.ts:14-117 | Every user or browser event keeps the tables well formed. Elements are never destroyed and keep their sources. A stop or teardown (corrected: it also withdraws the pending start) leaves the flag down |
| MusicPlayer.Replay | hooks/useMusicPlayer.ts:14-117 | Any sequence of events keeps the tables well formed; elements are never destroyed and keep their sources |
| MusicPlayer.ApplyKeepsConsistent | hooks/useMusicPlayer.ts:14-117 | Every user or browser event keeps the invariant |
| MusicPlayer.ReplayExclusive | hooks/useMusicPlayer.ts:40-110 | After any interleaving of catalog clicks, stops and start outcomes, the invariant and exclusivity hold |
| MusicPlayer.SwitchSilencesPrevious | hooks/useMusicPlayer.ts:66-68 | Selecting a different track silences every element that existed before |
| MusicPlayer.QuietStep | hooks/useMusicPlayer.ts:79-97 | A quiet controller (consistent, flag down, no pending start on the referenced element) stays quiet under any stop, start outcome, load error or elapsed time |
| MusicPlayer.QuietStaysQuiet | hooks/useMusicPlayer.ts:79-97 | A quiet controller stays quiet under any sequence of events without a track selection |
| MusicPlayer.StopStaysSilent | hooks/useMusicPlayer.ts:113-117 | After a (corrected) stop, whatever start outcomes, load errors and elapsed time follow, nothing is audible and the flag stays down |
| MusicPlayer.PauseStaysSilent | hooks/useMusicPlayer.ts:42-53 | After pausing the playing FILE track by clicking it, whatever start outcomes, load errors and elapsed time follow, nothing is audible and the flag stays down |
| MusicPlayer.SynthPauseRecreates | hooks/useMusicPlayer.ts:45-50 | Pausing a SYNTH track tears its source down. Clicking it again builds a new live source rather than resuming the old one |
| MusicPlayer.Controller.constructor | hooks/useMusicPlayer.ts:6-12 | The controller starts idle and consistent |
| MusicPlayer.Controller.StopAll | hooks/useMusicPlayer.ts:14-38 | The new state is `Stopped` of the old one; the invariant is kept |
| MusicPlayer.Controller.PlayTrack | hooks/useMusicPlayer.ts:40-110 | The new state is `Played` of the old one; the invariant is kept |
| MusicPlayer.Controller.PauseInPlace | hooks/useMusicPlayer.ts:43-44 | The new state is `PausedInPlace` of the old one |
| MusicPlayer.Controller.CancelPending | hooks/useMusicPlayer.ts:97 | Corrected: the new state is `Cancelled` of the old one; the invariant is kept |
| MusicPlayer.Controller.ResumeInPlace | hooks/useMusicPlayer.ts:58-60 | The new state is `Resumed` of the old one |
| MusicPlayer.Controller.Start | hooks/useMusicPlayer.ts:68-109 | The new state is `Started` of the old one |
| MusicPlayer.Controller.OnStartResolved | hooks/useMusicPlayer.ts:85-87 | The new state is `StartResolved` of the old one; the invariant is kept |
| MusicPlayer.Controller.OnStartRejected | hooks/useMusicPlayer.ts:88-91 | The new state is `StartRejected` of the old one; the invariant is kept |
| MusicPlayer.Controller.OnLoadError | hooks/useMusicPlayer.ts:79-83 | The new state is `LoadFailed` of the old one; the invariant is kept |
| MusicPlayer.Controller.Elapse | hooks/useMusicPlayer.ts:71-73 | The new state is `Elapsed` of the old one; the invariant is kept |
| MusicPlayer.Controller.Unmount | hooks/useMusicPlayer.ts:113-117 | Teardown stops everything and (corrected) withdraws the pending start: no file plays, no synth is live, the invariant is kept, and the controller is quiet, so no later outcome makes anything audible |
| TimerView.Show | views/TimerView.tsx:139 | Decimal text of a whole number: digits only, no leading zero, one digit below 10, two below 100 |
| TimerView.ValueOfShow | views/TimerView.tsx:139 | Reading the decimal text back gives the number |
| TimerView.Pad2 | views/TimerView.tsx:139 | Left-padding with '0' to two characters keeps the text as a suffix and adds only zeros |
| TimerView.Pad2Value | views/TimerView.tsx:139 | Padding keeps the text all digits and keeps its value |
| TimerView.FormatTime | views/TimerView.tsx:136-140 | The clock text has a ':' before a two-character seconds field and is exactly `MM:SS` below 100 minutes |
| TimerView.ClockParses | views/TimerView.tsx:139 | The text of a minutes/seconds pair (seconds below 60) parses back to minutes times 60 plus seconds |
| TimerView.FormatTimeRoundTrip | views/TimerView.tsx:136-140 | Parsing the clock text gives back the number of seconds, and the seconds field reads 0..59 |
| TimerView.CompletedSessions | views/TimerView.tsx:142-143 | Completed sessions equal the counter exactly in a break, and the counter minus one in focus. In a valid phase they lie in 0..4, and they are 4 in the long break |
| TimerView.CompletedAlongCycle | views/TimerView.tsx:142-143 | In the n-th phase from mount the screen shows (n mod 8 + 1) / 2 completed sessions: 0, 1, 1, 2, 2, 3, 3, 4, then 0 again |
| TimerView.Stage | views/TimerView.tsx:78 | The growth stage is the counter clamped to 1..4 |
| TimerView.Leaves | views/TimerView.tsx:210-211 | Four leaves; filled leaves form a prefix |
| TimerView.FilledLeaves | views/TimerView.tsx:210-211 | The number of filled leaves is the completed count clamped to 0..4 |
| TimerView.LeavesShowProgress | views/TimerView.tsx:210-211 | In every valid timer state exactly as many leaves are filled as sessions were completed |
| TimerView.SessionLabel | views/TimerView.tsx:145-150 | Every mode has a non-empty label, never the "GROW" fallback |
| TimerView.LabelColor | views/TimerView.tsx:152-157 | Every mode has a colour, never the "bg-white" fallback |
| TimerView.LabelsDistinguishModes | views/TimerView.tsx:145-157 | Different modes have different labels and different label colours |
| SettingsView.PropMinutes | views/SettingsView.tsx:25 | The minutes shown are the whole minutes contained in the duration |
| SettingsView.MinutesRoundTrip | views/SettingsView.tsx:25-26 | Minutes written as seconds read back as the same minutes |
| SettingsView.HandleChange | views/SettingsView.tsx:96-101 | The chosen mode's duration becomes minutes times 60; the other durations and both sound flags are unchanged |
| SettingsView.ChangeToShownMinutes | views/SettingsView.tsx:96-101 | Re-choosing the shown minutes leaves the settings unchanged exactly when the duration is a whole number of minutes |
| SettingsView.ChangesCompose | views/SettingsView.tsx:96-101 | A later change of the same mode overrides an earlier one; changes of different modes commute |
| SettingsView.HandleToggle | views/SettingsView.tsx:103-110 | The named flag takes the checkbox state; the other flag and all durations are unchanged |
| SettingsView.ToggleTwiceRestores | views/SettingsView.tsx:103-110 | Flipping a checkbox and flipping it back restores the settings |
| SettingsView.SliderMin | views/SettingsView.tsx:121-146 | No slider starts below five minutes, and every slider's minimum lies below its maximum |
| SettingsView.SliderMax | views/SettingsView.tsx:121-146 | No slider goes above an hour |
| SettingsView.DefaultsFitSliders | views/SettingsView.tsx:121-146 | Each slider range is non-empty, and the default durations are whole minutes inside it |
| SettingsView.Slider.constructor | views/SettingsView.tsx:25-26 | A new slider shows the passed duration in whole minutes |
| SettingsView.Slider.Receive | views/SettingsView.tsx:28-31 | A new duration resyncs the shown minutes exactly when its whole-minute value changed; otherwise an uncommitted drag stays |
| SettingsView.Slider.Slide | views/SettingsView.tsx:33-35 | Dragging changes only the shown minutes |
| SettingsView.Slider.Commit | views/SettingsView.tsx:37-42 | A change is reported exactly when the shown minutes differ from the passed duration, and it carries the shown minutes |
| SettingsView.CommitRoundTrip | views/SettingsView.tsx:37-42 | After a commit, the settings update and the resync, the slider is in sync, keeps the committed minutes, and a second commit reports nothing |
| MusicView.TabsCoverCategories | views/MusicView.tsx:6-10 | The tab list `Tabs` and the labels `TabLabel`: every category has a tab, no tab is repeated, and the tab labels differ |
| MusicView.FilterTracks | views/MusicView.tsx:42 | The grid holds exactly the tracks of the active category, and is never longer than the track list |
| MusicView.FilterKeepsOrder | views/MusicView.tsx:42 | The filtered grid keeps the catalog order |
| MusicView.FilterKeepsDistinct | views/MusicView.tsx:42 | Filtering a list with distinct ids keeps the ids distinct |
| MusicView.GridOfTab | views/MusicView.tsx:42 | A tab's grid holds every catalog track of its category exactly once, in catalog order, and nothing else |
| MusicView.NoTracksFound | views/MusicView.tsx:122-126 | The placeholder shows exactly when the grid holds no track |
| MusicView.EveryTabHasTracks | views/MusicView.tsx:122-126 | With the built-in catalog no tab shows the placeholder |
| MusicView.IsTrackPlaying | views/MusicView.tsx:67-68 | A lit tile means something is current and playing; the current track's own tile is lit while playing |
| MusicView.AtMostOneTilePlaying | views/MusicView.tsx:67-68 | Over the catalog, a lit tile is the current track's, so at most one tile is lit |
| MusicView.FooterMatchesGrid | views/MusicView.tsx:130-138 | The "PLAYING" footer (`ShowsFooter`: a track is current and playing) and the lit tiles agree: while the footer shows, a tile is lit on the current track's tab and on no other tab |
| MusicView.View.constructor | views/MusicView.tsx:39 | The screen opens on the NOISE tab |
| MusicView.View.Grid | views/MusicView.tsx:42 | The grid shows exactly the catalog tracks of the active tab |
| MusicView.View.SelectTab | views/MusicView.tsx:52 | Clicking a tab makes its category active, and the grid becomes that category's tracks |

## Left out

- utils/noise.ts is not part of this model. It synthesizes buffers with floating-point filters over random samples. Creating a noise source is an opaque call whose success is the `noiseCreated` parameter. The SYNTH track's `PINK_NOISE` tag is carried as an opaque string.
- utils/sound.ts is not part of this model. Tick, focus-end and break-end tones are entries of a ghost event log.
- Interval scheduling (hooks/usePomodoro.ts:77-90) is replaced by the clock-second input. The host calls tick while the timer is active with time left, then the completion effect runs.
- The `readyState` fast path (hooks/useMusicPlayer.ts:94-95) is merged into the pending start. Either way, the start settles later as a resolved or rejected event.
- MusicPlayer.Resumed: a resume `play()` rejected for a reason other than a load error (an autoplay policy, say; hooks/useMusicPlayer.ts:59) is only logged by the source; the model treats such a resume as taking effect.
- The try/catch around stopping a synth source (hooks/useMusicPlayer.ts:23-28) is not modelled, because stopping cannot fail in the model.
- `preload`, `crossOrigin`, `console.error` and `alert` are left out; they have no effect on state.
- Playback positions advance only through an explicit elapsed-time event; real audio timing is not modelled.
- The file URLs for the two noise files are kept as their relative paths; the `import.meta.url` resolution is build configuration.
- Types.Settings: durations are non-negative whole seconds, because the settings screen only writes minutes times 60. The `number` type's fractions and negatives are not modelled.
- TimerView.FormatTime: takes a non-negative whole number of seconds. The source accepts any `number`, but the timer never shows a negative or fractional time.
- The "GROW" label and "bg-white" colour fallbacks (views/TimerView.tsx:149, 156) are unreachable, because there are only three modes, and are omitted.
- SettingsView.Slider.Slide: takes any whole number of minutes. The browser's range input keeps the value within the slider's bounds, and that clamp is not modelled.
- Rendering (SVG, JSX, styles), App.tsx view switching, the nav bar, the button component, the placeholder view and the build configuration are presentation only.

## Findings

| source | as written | input that shows it | evidently intended | confidence | as-written member | corrected member |
|---|---|---|---|---|---|---|
| hooks/useMusicPlayer.ts:85-97 | The ready listener and the `play()` resolution of an element that has since been replaced still call `play()` and set `isPlaying` | Select White Noise, then Pink Noise before the file is ready (the factory succeeds); the White Noise element becomes ready | Only the current FILE track's element may start, so a file never plays next to a synth source | not executed | MusicPlayer.StaleStartOverlapsSynth | MusicPlayer.ReplayExclusive |
| hooks/useMusicPlayer.ts:85-97 | A replaced element whose pending start resolves keeps playing, and `stopAll` only reaches the current element | Select White Noise, then Rain before White Noise is ready; White Noise becomes ready; then stop | A replaced element's start is discarded, so stopping silences everything | not executed | MusicPlayer.StaleStartOrphansFile | MusicPlayer.StartResolved |
| hooks/useMusicPlayer.ts:79-91 | The error handler and the rejection handler of a replaced element clear `isPlaying` whatever is playing now | Select White Noise, then Pink Noise (the factory succeeds); the White Noise element fails to load, or its start is rejected (`StaleRejectionHidesPlayback`) | Outcomes of a replaced element leave the flag alone, so the flag says whether something is audible | not executed | MusicPlayer.StaleErrorHidesPlayback | MusicPlayer.LoadFailed |
| hooks/useMusicPlayer.ts:14-19 | `stopAll` and the pause click (lines 43-44) only pause the element. The once-only `canplaythrough` listener (line 97) stays registered, and the unmount cleanup (lines 113-117) only calls `stopAll` | Select White Noise and leave the music screen before the file is ready; the element becomes ready | Stopping, pausing or unmounting withdraws the pending start, so nothing plays until the next selection | not executed | MusicPlayer.PendingStartOutlivesStop | MusicPlayer.StopStaysSilent |
| hooks/useMusicPlayer.ts:57-61 | After a load error the element stays referenced. Clicking the track again calls `play()` on it and raises `isPlaying` at once (line 60), though the element cannot play | Select Rain with its file missing; the load fails; click Rain again | The flag goes up only for an element that can play, so it stays down after a load error | not executed | MusicPlayer.RetryAfterErrorShowsPlaying | MusicPlayer.Resumed |
