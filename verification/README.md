# Soundboard state machine

A Dafny model of the state machine behind a browser drum-machine
soundboard: the `useSoundboard` hook. The board holds a list of sounds. Each
sound has a type (kick, hihat, snare, bass), a step pattern of numbers, an
optional tempo, and a play flag. Pressing play on a sound starts a repeating
host timer (`setInterval`). On every firing the timer triggers the sound's
type when the current step of the pattern is nonzero, then advances its step
counter. Stopping or removing a sound cancels its timer. A recorder logs
snapshots of sounds while it is on. Saving turns the log and the song name
into a song, and refuses an empty name.

Every transition is a total, pure function on an immutable `Board`.

- The host's timer facility is explicit state: a table from interval handles
  to the state of each running callback. That state is the sound the closure
  captured, the tempo sampled at start, and the step counter.
- The host firing a timer is the transition `TickTimer`.
- Fresh ids come from a counter on the board. The hook uses random UUIDs
  instead, which are distinct in practice.

Some behaviours of the code are easy to miss:

- A new sound gets the 4-step pattern `[1, 0, 0, 0]`
  (src/hooks/useSoundboard.ts:52).
- `updatePattern` accepts a pattern of any length and with any values.
- No tempo range is enforced.
- A sound's tempo is fixed when it is added. `addSound` stores the global
  tempo of that moment in the sound (line 53). Playback uses
  `sound.bpm || globalBPM` (line 82), so it falls back to the global tempo
  only when the stored value is zero. A later `setGlobalBPM` therefore does
  not affect a sound added before it, even after the sound is stopped and
  restarted (`TempoFixedAtAdd`).

Modules, one per file:

- `Maybe` (`maybe.dfy`): `Option` and `Result`.
- `Catalog` (`catalog.dfy`): the four keys of the predefined sound table.
- `Intervals` (`intervals.dfy`): `setInterval` and `clearInterval` over a
  table of live timers.
- `Sounds` (`sounds.dfy`): the `Sound` and `Song` records.
- `Scheduler` (`scheduler.dfy`): the step duration, and what one timer
  callback does per firing.
- `Soundboard` (`board.dfy`): the board, its invariant `Valid`, and the
  hook's operations.
- `Invariants` (`invariants.dfy`): every operation keeps `Valid`, plus the
  relations between operations (toggle twice, play then tick, and so on).
- `Recorder` (`recorder.dfy`): recording and save validation.
- `Controls` (`controls.dfy`): the Play/Stop button, which toggles and then
  records.

The board invariant `Valid` has five parts:

- sound ids are distinct, and all are below the id counter;
- a sound holds a handle exactly when it is playing;
- the live timers are exactly the handles the sounds hold, so no timer is
  orphaned;
- each live timer plays the sound that holds its handle;
- every live handle was issued by the table.

## Model

| member | source | states |
|---|---|---|
| Catalog.Name | src/utils/audioGenerator.ts:39-66 | a sound type's key is a non-empty string, and looking that key up in the predefined table gives back the same type |
| Catalog.Lookup | src/utils/audioGenerator.ts:39-66 | the table's own keys, the `SoundType` union `keyof typeof predefinedSounds`, are exactly kick, hihat, snare, bass. The hook only indexes the table with a `SoundType` (line 87); keys a JavaScript object inherits are not modelled |
| Intervals.SetInterval | src/hooks/useSoundboard.ts:85-90 | a new interval gets a handle no live timer holds; the new handle is added to the live set, bound to the callback state, and every other timer is unchanged |
| Intervals.ClearInterval | src/hooks/useSoundboard.ts:79 | cancelling removes exactly that handle and keeps every other timer; cancelling an unknown handle changes nothing |
| Scheduler.EffectiveBpm | src/hooks/useSoundboard.ts:82 | the sound's own tempo wins unless it is absent or zero, in which case the global tempo is used |
| Scheduler.StepDurationMs | src/hooks/useSoundboard.ts:82 | a step lasts a sixteenth note: the duration times the tempo is 15000 ms, and a zero tempo gives no finite duration |
| Scheduler.StepAt120 | src/hooks/useSoundboard.ts:82 | at the default tempo of 120 a step lasts 125 ms |
| Scheduler.Start | src/hooks/useSoundboard.ts:82-85 | playback starts at step 0 with the sound as captured. Its tempo is the sound's own, or the global tempo when the sound's own is absent or zero |
| Scheduler.Fire | src/hooks/useSoundboard.ts:85-90 | one firing triggers the captured type exactly when the current step is active, and always advances the step by one without touching the captured sound |
| Scheduler.AfterSteps | src/hooks/useSoundboard.ts:85-90 | n firings only move the step counter, by n |
| Scheduler.RunTriggers | src/hooks/useSoundboard.ts:85-90 | firing k of a run triggers exactly when step `start + k` of the captured pattern is active, and what it triggers is the captured type |
| Scheduler.RunFromStart | src/hooks/useSoundboard.ts:83-90 | after playback starts, firing k triggers exactly when the pattern is present, non-empty and `pattern[k mod length]` is nonzero |
| Scheduler.CountRun | src/hooks/useSoundboard.ts:85-90 | the number of triggers in m firings is the number of active steps among the m steps from the current one |
| Scheduler.ActiveFromShift | src/hooks/useSoundboard.ts:86 | the pattern repeats with its own length: a window of that many steps holds the same number of active steps wherever it starts |
| Scheduler.WindowCount | src/hooks/useSoundboard.ts:85-90 | any pattern-length run of firings, from any step, triggers exactly as often as the pattern has nonzero entries |
| Soundboard.Initial | src/hooks/useSoundboard.ts:23-27 | the hook starts valid, with no sounds, an empty log, no name, not recording, a global tempo of 120 and no timers |
| Soundboard.AddSound | src/hooks/useSoundboard.ts:46-56 | exactly one sound is appended and the earlier ones are kept. It is named after its type, stopped, holds no handle, has the one-in-four pattern and takes the current global tempo. Its id is fresh on a valid board, nothing else on the board changes, and validity is kept |
| Soundboard.Find | src/hooks/useSoundboard.ts:60 | the result is the first position holding the id; none means no sound has that id |
| Soundboard.Without | src/hooks/useSoundboard.ts:64 | the kept sounds are exactly those with another id, and nothing is dropped when no sound has the id |
| Soundboard.RemoveSound | src/hooks/useSoundboard.ts:58-66 | every sound with the id is dropped. Only the interval of the first match is cancelled, and the rest of the board is unchanged. An unknown id leaves the board as it is |
| Soundboard.WithPattern | src/hooks/useSoundboard.ts:69-71 | each sound with the id gets the new pattern and nothing else changes; every other sound is kept as is |
| Soundboard.UpdatePattern | src/hooks/useSoundboard.ts:68-72 | only the patterns of sounds with that id change; the timers and the rest of the board are untouched; an unknown id is a no-op |
| Soundboard.ToggleOne | src/hooks/useSoundboard.ts:77-93 | toggling a matching sound changes only its play flag and handle, and afterwards it holds a handle exactly when it plays |
| Soundboard.ToggleAll | src/hooks/useSoundboard.ts:76-96 | the toggle map keeps length and ids and leaves every non-matching sound alone; with no match nothing changes, not even the timers |
| Soundboard.ToggleSound | src/hooks/useSoundboard.ts:74-98 | only sounds with the id and the timers may change; an unknown id is a no-op |
| Soundboard.ClearAll | src/hooks/useSoundboard.ts:33-37 | exactly the intervals the sounds hold are cancelled, and every other timer is kept |
| Soundboard.ClearBoard | src/hooks/useSoundboard.ts:31-44 | sounds, log, name and the recording flag are reset, and the held intervals are cancelled. On a valid board no timer survives and the result is valid. The global tempo and the id counter are kept |
| Soundboard.TickTimer | src/hooks/useSoundboard.ts:85-90 | a cancelled or unknown interval never fires. A live one triggers what its callback triggers, and only its own step counter advances |
| Soundboard.Ticks | src/hooks/useSoundboard.ts:85-90 | n firings of one interval yield n trigger slots, and an interval that is not live triggers nothing in any of them |
| Soundboard.SetGlobalBpm | src/hooks/useSoundboard.ts:27 | only the global tempo changes |
| Soundboard.SetSongName | src/hooks/useSoundboard.ts:26 | only the song name changes |
| Invariants.HandlesDistinct | src/hooks/useSoundboard.ts:85-92 | on a valid board no two sounds hold the same interval handle |
| Invariants.WithoutAppend | src/hooks/useSoundboard.ts:64 | filtering by id distributes over concatenation |
| Invariants.WithoutAt | src/hooks/useSoundboard.ts:64 | with distinct ids, the filter drops exactly the one position holding the id |
| Invariants.RemoveValid | src/hooks/useSoundboard.ts:58-66 | removal keeps a valid board valid and leaves no live timer that plays the removed id, so nothing attributable to it fires again; exactly its one position is dropped |
| Invariants.UpdatePatternValid | src/hooks/useSoundboard.ts:68-72 | a pattern edit keeps the board valid and leaves every running timer exactly as it was |
| Invariants.PatternCapturedAtStart | src/hooks/useSoundboard.ts:68-72 | after a pattern edit every interval still triggers exactly as before: a running loop plays the pattern captured when it started |
| Invariants.ToggleAllAt | src/hooks/useSoundboard.ts:74-97 | with distinct ids the toggle map changes only the one matching position, by one run of the toggle branch |
| Invariants.StopValid | src/hooks/useSoundboard.ts:78-80 | stopping a playing sound drops its handle, cancels exactly its interval and keeps the board valid |
| Invariants.StartValid | src/hooks/useSoundboard.ts:81-92 | starting a stopped sound gives it a fresh handle whose timer starts at step 0 with the sound as it was, and keeps the board valid |
| Invariants.ToggleValid | src/hooks/useSoundboard.ts:74-97 | on a valid board a toggle flips the targeted sound and keeps every other sound and validity. A stop cancels exactly its interval. A start adds exactly one fresh timer at step 0 holding the sound as it was |
| Invariants.ToggleFlips | src/hooks/useSoundboard.ts:74-97 | a toggle keeps validity and flips the sound's play flag, which then agrees with holding a handle |
| Invariants.ToggleAt | src/hooks/useSoundboard.ts:74-97 | with distinct ids a toggle is one run of the toggle branch at the sound's position, and ids stay distinct |
| Invariants.ToggleOneAlternates | src/hooks/useSoundboard.ts:78-92 | n runs of the toggle branch flip the play flag n times, and the sound always holds a handle exactly when it plays |
| Invariants.ToggleRepeatedly | src/hooks/useSoundboard.ts:74-97 | n presses of one sound's toggle change only that sound's play flag and handle. It plays afterwards exactly when it played before and n is even, or did not and n is odd. It holds a handle exactly when it plays |
| Invariants.ToggleStep | src/hooks/useSoundboard.ts:74-97 | one more toggle adds one run of the toggle branch at the sound's position |
| Invariants.ToggleOneTwice | src/hooks/useSoundboard.ts:78-92 | starting then stopping a stopped sound gives back the sound and the same live timers |
| Invariants.ToggleTwice | src/hooks/useSoundboard.ts:74-97 | toggling a stopped sound twice restores the board's sounds and its set of live timers |
| Invariants.TickValid | src/hooks/useSoundboard.ts:85-90 | a timer firing keeps the board valid |
| Invariants.TicksRun | src/hooks/useSoundboard.ts:85-90 | the firings of a live interval are the firings of its callback from its current step |
| Invariants.PlayThenTicks | src/hooks/useSoundboard.ts:82-92 | after play is pressed on a stopped sound, firing k of its new interval triggers exactly when `pattern[k mod length]` of the pattern it had then is nonzero |
| Invariants.GlobalTempoKeepsTimers | src/hooks/useSoundboard.ts:27 | changing the global tempo changes no running timer, and no firing of any interval |
| Invariants.TempoFixedAtAdd | src/hooks/useSoundboard.ts:46-56 | a sound's tempo is fixed when it is added. If the global tempo changes afterwards, starting the sound still uses the tempo stored at add time, unless that stored tempo is zero, in which case the new global tempo is used |
| Invariants.ClearSilences | src/hooks/useSoundboard.ts:31-44 | after clearing a valid board no interval triggers anything, however often it is fired |
| Recorder.StartRecording | src/hooks/useSoundboard.ts:100-103 | recording is on with an empty log, nothing else changes, and validity is kept |
| Recorder.StopRecording | src/hooks/useSoundboard.ts:105-107 | recording is off, the log is kept, nothing else changes |
| Recorder.RecordSound | src/hooks/useSoundboard.ts:109-113 | while recording the snapshot is appended to the log; otherwise the board is unchanged |
| Recorder.RecordAllAppends | src/hooks/useSoundboard.ts:109-113 | a series of record calls appends exactly its snapshots in call order while recording, and nothing otherwise; only the log changes |
| Recorder.RecordingSession | src/hooks/useSoundboard.ts:100-113 | start, N record calls, stop: the log holds exactly those N snapshots in order, and a later record call changes nothing |
| Recorder.SaveSong | src/hooks/useSoundboard.ts:115-125 | saving is refused exactly when the song name is empty; otherwise the song carries the id, the name and exactly the recorded snapshots |
| Recorder.RecordThenSave | src/hooks/useSoundboard.ts:100-125 | naming and saving a recording session saves exactly the session's snapshots under that name, or is refused when the name is empty |
| Controls.PressPlayEffect | src/components/Soundboard.tsx:77-81 | a press flips the sound and keeps the board valid. Pressing Play while recording logs exactly one snapshot, the stopped sound as shown. Pressing Stop, or pressing Play while not recording, leaves the log alone |

## Left out

- Sound synthesis (`generateSound`, the oscillator table of
  src/utils/audioGenerator.ts). A trigger is the sound type it would play.
  Web Audio is host I/O.
- Wall-clock time. The host fires a timer whenever it likes (`TickTimer`).
  `StepDurationMs` gives the period over the reals. IEEE rounding is not
  modelled, and neither is the host's treatment of an infinite delay at
  tempo 0.
- React plumbing: state batching, re-rendering, stale closures in
  `useCallback`. Each operation acts on the current board. `PressPlay`
  applies its two queued updates in order.
- `toast` and `console` calls, which are UI output only.
- `navigate`, `loadSong` (src/hooks/useSoundboard.ts:139-155) and the URL
  effect that calls it (157-163). `SaveSong` models only the song a save
  returns. After a successful save the hook navigates to `/?song=<id>`
  (line 129). The URL effect then runs `loadSong`, which sets the song name
  to `'Loaded Song'` and empties the log (lines 148-149). That reload is not
  modelled: it is a mock persistence path that depends on the router.
  `clearBoard`'s navigation to `/` is left out for the same reason.
- `crypto.randomUUID`. Sound ids come from a counter on the board. A song
  id is a parameter of `SaveSong`. The saveSong `try`/`catch` failure path
  cannot be reached without I/O.
- `handleAddSound` in src/components/Soundboard.tsx:24-32. It passes an
  object where the hook expects a sound type. `AddSound` models the hook's
  own contract, one sound type per call.
- JavaScript numbers. Pattern entries and tempos are integers. Fractional
  and NaN values, and step counters beyond 2^53, are not modelled.
- Pages, routing and the rest of the UI components.
