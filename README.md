# Music player playback controller in Dafny

This project models the logic of a browser music player widget (`script.js`).
The player keeps a fixed playlist and drives the page's audio element. It
also keeps a light/dark theme preference in local storage. The model covers
three parts:

- **The playback controller.** Four variables: the current index, the
  playing flag, the shuffle flag and the repeat flag. These change in
  response to the play, next, previous, shuffle, repeat and playlist-entry
  clicks and to the audio element's `ended` event. The controller also writes
  three things to the audio element: its source, its playback position (on
  restart and seek) and its volume.
- **The theme toggle** and init's restore step, over the persisted entry.
- **`formatTime`**, the minutes:seconds formatter.

Modules:

- `Playback` (playback.dfy): the controller's state as a value (`State`) and
  one function per operation (`Load`, `Play`, `Pause`, `PlayRandom`). It also
  has one `Step` per event (`Event`) and the lemmas that state the
  controller's policy. `Inv` is the invariant: the index names a track, a
  loaded source is that track's source, and the volume lies in [0, 1].
- `Controller` (controller.dfy): class `Player`, with the source's variables
  as fields, updated in place. Every method promises `Valid()`. Through
  `Snapshot()`, each method also promises that the new state equals the
  `Playback` function for the same operation applied to the old state.
- `Theme` (theme.dfy): the toggle rule as functions, and class `ThemeStore`
  for the persisted entry.
- `TimeFormat` (timeformat.dfy): `FormatTime`, with JavaScript's `Math.floor`,
  truncating `%`, number printing and `padStart`. Its partner is `ParseTime`,
  which reads "m:ss" back.
- `Wrappers` (wrappers.dfy): `Option`.

The host's inputs are parameters:

- `draw` is the value `Math.random()` returned, in [0, 1).
- `accepted` says whether the promise from `audio.play()` resolved.
- `duration` is the audio element's duration, 0 while unknown.
- The volume level is the slider's value.

On these points the model follows what script.js does:

- Index normalisation is two corrections, not modular arithmetic. A
  negative index selects the last track. An index at or past the end
  selects the first track. For
  example, index -5 gives the last track, and index 10 on three tracks
  gives 0.
- A rejected play request leaves the playing flag as it was, whatever its
  value.
- The shuffle and repeat buttons each flip their own flag.
- Init treats an empty stored theme like a missing one and restores "dark".
  Any other stored string is written back unchanged. The toggle treats every
  stored value other than "light" as dark.
- The code has no handling for storage failures.

## Model

| member | source | states |
|---|---|---|
| `Playback.Initial` | script.js:28-31 | the variables as declared: index 0, paused, shuffle and repeat off, nothing loaded; no contract of its own, `Controller.Player.constructor` and `InitEstablishesInv` state it |
| `Playback.Load` | script.js:60-65 | loadSong: selects `NormalizeIndex(index)`, loads that track's source and restarts at 0; no contract of its own, `LoadEstablishesInv` and `Controller.Player.LoadSong` state it |
| `Playback.Play` | script.js:73-81 | playSong: sets the flag only on an accepted request; no contract of its own, `PlayOutcome` states it |
| `Playback.Pause` | script.js:82-86 | pauseSong: clears the flag; no contract of its own, `PauseIdempotent` states it |
| `Playback.PlayRandom` | script.js:117-121 | playRandom: loads `RandomIndex(draw)` and plays it; no contract of its own, `NextShuffles` and `EndedWithShuffle` state it |
| `Playback.Init` | script.js:184-186 | init: `Load` of index 0 from `Initial`; no contract of its own, `InitEstablishesInv` states it |
| `Playback.Step` | script.js:89-156 | one handler per event (the playlist click of script.js:45-48 included); no contract of its own, the lemmas below state each case and `StepPreservesInv` its invariant |
| `Playback.NormalizeIndex` | script.js:60-63 | the normalised index is always in range; an in-range index is kept, a negative one becomes the last index, one at or past the end becomes 0 |
| `Playback.RandomIndex` | script.js:117-118 | floor(draw * length) lies in [0, length) for every draw in [0, 1) |
| `Playback.RandomIndexCovers` | script.js:118 | every track index k is the result of some draw (k / length), so shuffle can reach every track, the current one included |
| `Playback.LoadEstablishesInv` | script.js:60-65 | after loadSong, the index is in range and the audio source is the source of the selected track |
| `Playback.InitEstablishesInv` | script.js:184-186 | after init, the first track is selected and loaded, playback is paused, and shuffle and repeat are off |
| `Playback.StepPreservesInv` | script.js:89-156 | every handler keeps the index in range and the loaded source in step with it |
| `Playback.RunPreservesInv` | script.js:89-156 | any sequence of gestures and media events, whatever the host answers, preserves the invariant |
| `Playback.RunKeepsSourceLoaded` | script.js:60-65 | once a source is loaded no event unloads it: only loadSong writes the source, and it always writes one |
| `Playback.SessionKeepsInv` | script.js:184-186 | a session that starts with init satisfies the invariant after every event, and a source is always loaded, so the play button's load-first branch (script.js:90) is never taken after init |
| `Playback.NextAdvances` | script.js:94-101 | next without shuffle moves to index + 1, wraps from the last track to 0, loads that track, and requests playback (the flag is set only if the request is accepted) |
| `Playback.NextShuffles` | script.js:94-97 | next with shuffle selects the drawn index and requests playback |
| `Playback.PrevRetreats` | script.js:102-105 | previous moves to index - 1, wraps from 0 to the last track, ignores shuffle, and requests playback |
| `Playback.PrevUndoesNext` | script.js:94-105 | with shuffle off, previous after next returns to the original index |
| `Playback.PlaylistClickSelects` | script.js:45-48 | clicking playlist entry i selects track i, loads its source and requests playback |
| `Playback.PlayOutcome` | script.js:73-81 | playSong sets the flag exactly when the request is accepted; a rejected request changes nothing, not even the flag |
| `Playback.PauseIdempotent` | script.js:82-86 | pauseSong always leaves the player paused, changes nothing else, and pausing twice is the same as pausing once |
| `Playback.PlayClickToggles` | script.js:89-92 | with a source loaded, the play button calls playSong when paused and pauseSong when playing |
| `Playback.PlayClickLoadsFirst` | script.js:89-90 | when no source is loaded yet, the play button first loads the current track, then plays it when paused and pauses it when playing |
| `Playback.PlayPausePlay` | script.js:89-92 | play, pause, play with accepted requests ends playing the same track with nothing else changed |
| `Playback.ShuffleClickFlips` | script.js:107-110 | the shuffle button flips only the shuffle flag; two clicks restore the state |
| `Playback.RepeatClickFlips` | script.js:111-114 | the repeat button flips only the repeat flag; two clicks restore the state |
| `Playback.EndedWithRepeat` | script.js:146-149 | at track end with repeat on, whatever the shuffle flag, the index and source stay, the position becomes 0, and playback is requested |
| `Playback.EndedWithShuffle` | script.js:150-151 | at track end with repeat off and shuffle on, the drawn index is selected; it is in range and may equal the current index |
| `Playback.EndedAdvances` | script.js:152-155 | at track end with neither flag, the player advances by one and wraps to 0 after the last track |
| `Playback.EndedIsNextWithoutRepeat` | script.js:146-156 | without repeat, track end behaves exactly like the next button |
| `Playback.SeekMoves` | script.js:134-138 | the progress slider sets the position to percent / 100 of the duration, and does nothing while the duration is 0 |
| `Playback.VolumeRoundTrip` | script.js:141-143 | the volume read back is the slider value; nothing else changes |
| `Controller.Player.constructor` | script.js:28-31 | the variables start at index 0, not playing, shuffle and repeat off, with nothing loaded |
| `Controller.Player.Init` | script.js:184-186 | init loads track 0 |
| `Controller.Player.LoadSong` | script.js:60-70 | the in-place loadSong selects `NormalizeIndex(index)` and loads its source; the three flags are unchanged |
| `Controller.Player.PlaySong` | script.js:73-81 | the flag becomes true only on an accepted request; on rejection the object is unchanged |
| `Controller.Player.PauseSong` | script.js:82-86 | the flag becomes false; nothing else changes |
| `Controller.Player.PlayRandom` | script.js:117-121 | selects `RandomIndex(draw)`, loads it and plays it |
| `Controller.Player.ClickPlay` | script.js:89-92 | the new state is the play-button step of the old state |
| `Controller.Player.ClickNext` | script.js:94-101 | the new state is the next-button step of the old state |
| `Controller.Player.ClickPrev` | script.js:102-105 | the new state is the previous-button step of the old state |
| `Controller.Player.ClickShuffle` | script.js:107-110 | flips the shuffle flag; the new state is the shuffle step of the old state |
| `Controller.Player.ClickRepeat` | script.js:111-114 | flips the repeat flag; the new state is the repeat step of the old state |
| `Controller.Player.ClickPlaylistItem` | script.js:45-48 | the new state is the playlist-click step of the old state |
| `Controller.Player.OnEnded` | script.js:146-156 | the new state is the track-end step (repeat, else shuffle, else advance) of the old state |
| `Controller.Player.OnSeek` | script.js:134-138 | the new state is the seek step of the old state |
| `Controller.Player.OnVolume` | script.js:141-143 | the new state is the volume step of the old state |
| `Controller.StartUp` | script.js:184-186 | a fresh player on the configured playlist is on track 0, loaded and paused |
| `Theme.CurrentTheme` | script.js:178 | the theme in effect is "light" exactly when "light" is stored, otherwise "dark" |
| `Theme.Opposite` | script.js:179 | the next theme is "light" exactly when the current one is not "light" |
| `Theme.Toggled` | script.js:177-179 | the value the toggle writes; no contract of its own, `ToggleRule` and `ToggleTwice` state it |
| `Theme.Restored` | script.js:193 | the value init writes back; no contract of its own, `RestoreRule` states it |
| `Theme.ToggleRule` | script.js:177-181 | a stored "light" toggles to "dark"; anything else, absent included, toggles to "light"; the theme always changes |
| `Theme.ToggleTwice` | script.js:177-181 | two toggles bring back the theme that was in effect |
| `Theme.RestoreRule` | script.js:193-194 | init restores a saved non-empty value unchanged and otherwise stores "dark"; the theme in effect is unchanged by init |
| `Theme.ThemeStore.constructor` | script.js:193 | the persisted entry as found when the page loads (absent or a saved string) |
| `Theme.ThemeStore.ApplyTheme` | script.js:167-176 | the value is persisted immediately |
| `Theme.ThemeStore.Toggle` | script.js:177-181 | the stored value becomes the toggled value, and the theme in effect changes |
| `Theme.ThemeStore.Restore` | script.js:192-194 | the stored value becomes the restored value, and the theme in effect is unchanged |
| `Theme.FreshStart` | script.js:177-194 | from nothing saved, init stores "dark", and two toggles store "light" and then "dark" |
| `TimeFormat.FormatTime` | script.js:159-164 | formatTime; no contract of its own, `FormatTimeShape`, `FormatTimeRoundTrip` and `FormatTimeExamples` state it |
| `TimeFormat.IntToString` | script.js:161-163 | a number printed in decimal, with "-" before a negative one; no contract of its own, built on `NatToString` |
| `TimeFormat.PadStart2` | script.js:162 | `padStart(2, '0')`; no contract of its own, `FormatTimeShape` states its effect on the seconds part |
| `TimeFormat.Trunc` | script.js:162 | the truncation toward zero inside JavaScript's `%`; no contract of its own, used by `Rem60` |
| `TimeFormat.Rem60` | script.js:162 | `seconds % 60`, whose sign follows the dividend; no contract of its own, `FormatTimeShape` and `FormatTimeExamples` state it |
| `TimeFormat.NatToString` | script.js:161-163 | the decimal notation of a number is a non-empty string of digits, one digit long exactly below 10, with no leading zero (only 0 starts with "0") |
| `TimeFormat.FormatTimeShape` | script.js:159-164 | for seconds >= 0, the output is floor(seconds) / 60 in decimal, a colon, and floor(seconds) % 60 as exactly two digits |
| `TimeFormat.FormatTimeRoundTrip` | script.js:159-164 | for seconds >= 0, reading the output back as minutes * 60 + seconds gives floor(seconds) |
| `TimeFormat.FormatTimeExamples` | script.js:159-164 | 0 prints "0:00", 7.9 prints "0:07", 210 prints "3:30", and -30 prints "-1:-30" (floored minutes, truncated remainder) |

## Left out

- Building the playlist and every DOM update. This covers the playlist
  markup, the active-entry highlight, the title, artist and cover text, the
  button icons and classes, the time labels and the progress bar. All of it
  is presentation.
- The audio element itself: decoding, output, and the play and pause
  commands. What the controller writes to the element is kept as fields:
  the source, the position and the volume. The outcome of a play request is
  the `accepted` parameter. The console message logged for a rejected
  request (script.js:79) is not modelled; a rejection changes no state.
- Play-request asynchrony. The promise from `audio.play()` settles later, and
  other events could run before its handler sets the flag. The model applies
  the outcome at once, inside the same step.
- Host effects of loading a source. `Load` sets the position to 0, as the
  media element does when its source is assigned. The element's own paused
  state, and its rejection of a pending play request on reload, are not
  modelled.
- `Math.random` is the `draw` parameter, in [0, 1). The distribution of the
  draws is not modelled.
- Floating-point effects. Reals stand in for JavaScript numbers, so rounding
  in the seek, volume and time arithmetic is not modelled. `NaN` and
  infinite durations are not modelled either. A `NaN` duration is falsy in
  the seek and time-update guards, and an unknown duration is passed as 0.
- `FormatTime`'s notation of very large numbers. JavaScript prints numbers
  from 1e21 upward in exponent notation; `IntToString` always prints plain
  decimal digits.
- The time-update and metadata handlers (script.js:124-133). They only
  render, and `formatTime` is modelled on its own.
- The initial volume read from the slider (script.js:190). It is the
  constructor's `sliderVolume` parameter.
- The audio element's error for a volume outside [0, 1] (script.js:142 and
  190). The slider bounds the value, so `OnVolume`, the constructor and
  `WellFormed` take a level in [0, 1] as given.
- `localStorage` as a medium. The store is one optional string, and reading
  or writing it cannot fail.
- An empty playlist. Every operation requires at least one track. The
  configured playlist has three, and with none, loadSong would fail while
  reading a missing track.
