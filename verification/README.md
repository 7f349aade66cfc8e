# Fade scheduler of the embedded music mixer

The mixer plays a small fixed set of embedded songs, one button row per
song. Starting a song fades it in over ten scheduler passes (one second of
`fadingDuration`, about half a second of wall-clock time with the 50 ms
timer) and fades out whichever songs are playing; stopping a song fades it
out the same way and then pauses it. The
model covers the part of `main.go` that makes this happen:

- the `Song` record and the `songs` registry, a map from song name to `Song`
  (`songs.dfy`);
- one pass of the `musicMain` scheduler loop, which moves every running fade
  100 ms toward zero, ramps the output volume and ends fades (`fade.dfy`);
- the transport commands `stopSong`, `playSong`, `rewindSong`, `setVolume`
  and the "Reset Songs" button (`transport.dfy`);
- what the commands and a number of scheduler passes do together: the
  crossfade, the stop, and the fades that rewind and reset cancel
  (`scenarios.dfy`).

A fade is encoded in the sign of `fadingDuration`: positive means fading
out, negative means fading in, zero means steady. Durations are Go
`time.Duration` values, that is nanoseconds, modelled as `int` with
`Second = 1_000_000_000` and `FadeStep = 100_000_000`. Volumes are `real`.
The audio player is modelled by what the scheduler and the commands see of
it: whether it plays, its position, and the output volume it was last given.
The play/pause icon on a song's button is an enum field of the song.

Everything is pure: `StepSong` and `Tick` are one scheduler pass, `StepN`
and `TickN` are `k` passes, and each command is a function from registry to
registry. `RunTick` is the scheduler's `range` loop over the map written as
a method, and is proved to compute `Tick`.

The state the program keeps is `WellFormed`: every fade lies within one
second, every target volume lies in [0, 1], and a song that is fading in is
playing. The scheduler pass and every command preserve it.

Some behaviours of the code are easy to misread; the model follows the
code:

- `setVolume` pushes the new volume to the player at once, even while a
  fade is running. The next pass then overwrites it with the ramp value for
  the new target, unless that pass ends a fade-out: it pauses the player and
  leaves the pushed volume (`Scenarios.SetVolumeBeforeFadeEnds`).
- `stopSong` sets the fade whether or not the song plays. When it is used on
  a paused, steady song, the scheduler runs a full fade-out on it: ten
  passes later the song is paused as before, its output volume is a tenth of
  its target, and its icon is the play icon (`Scenarios.StopOnSilentSong`).
- A full fade-out that no `setVolume` interrupts in its last pass leaves the
  paused player at the last ramp value, a tenth of the target, not at
  silence (`Fade.FadeOutCompletes`).
- `playSong` does not set the output volume before starting playback. The
  player sounds at whatever output volume it had until the first pass sets
  the ramp value.
- `rewindSong` cancels a running fade for good. A song rewound partway
  through a fade keeps its play state and that partial output volume, and a
  playing song rewound during a fade-out is never paused
  (`Scenarios.RewindFreezesOutput`).
  Rewinding the outgoing song during a crossfade therefore leaves two songs
  playing for good (`Scenarios.TwoPlayForever`).
- `playSong` on a name that is not in the registry first sets fade-outs on
  the playing songs and then dereferences the missing entry's player. The
  model requires the name to be present.

## Model

| member | source | states |
|---|---|---|
| `Songs.NewSongWellFormed` | main.go:202 | The entry the program builds for each track (paused, no fade, target 1.0, play icon) is well formed, so the registry starts in the state every pass and command preserves |
| `Fade.StepSong` | main.go:41-61 | One pass over an entry: a steady entry is unchanged; a fade moves one 100 ms step toward zero and never crosses it; it ends exactly when at most one step is left; an ending fade-out pauses the player and shows the play icon; an ending fade-in sets the output to the target; only an ending fade-out changes playback or the icon; target, length and position never change |
| `Fade.StepFollowsRamp` | main.go:48-59 | While a fade is still running after the pass, the output is `fd/1s * volume` when fading out and `(1 - (-fd)/1s) * volume` when fading in |
| `Fade.FadeInMirrorsFadeOut` | main.go:49-58 | The fade-in formula at `fd` equals the fade-out formula at `1s + fd`: both ramps trace the same line |
| `Fade.FadeOutVolumeInRange` | main.go:49 | For `fd` in [0, 1s] and a non-negative target, the fade-out volume lies in [0, target] and grows with `fd` |
| `Fade.FadeInVolumeInRange` | main.go:58 | For `fd` in [-1s, 0] and a non-negative target, the fade-in volume lies in [0, target] and grows as `fd` nears zero |
| `Fade.StepNeverWraps` | main.go:42-52 | The `time.Duration` subtraction and addition of a pass stay in the signed 64-bit range for any 64-bit start, so the model needs no wrap-around |
| `Fade.StepKeepsWellFormed` | main.go:41-60 | A pass keeps an entry well formed, and any output volume it sets while a fade is running lies in [0, target] |
| `Fade.RunTick` | main.go:36-62 | The scheduler's loop over the map, writing each stepped entry back under its name, keeps the key set and steps every entry exactly once; it equals `Tick` |
| `Fade.TickKeepsWellFormed` | main.go:36-62 | A pass over the registry keeps every entry well formed |
| `Fade.TickFixesExactlySteady` | main.go:41-61 | A pass leaves the registry unchanged if and only if no entry has a fade running |
| `Fade.TickNIsRepeatedTick` | main.go:34-62 | Taking `k` passes entry by entry is the same as running the registry pass `k` times |
| `Fade.StepNRemaining` | main.go:41-55 | Closed form: after `k` passes a fade started at `fd` has `max(0, fd - k*100ms)` left when fading out and `min(0, fd + k*100ms)` left when fading in; target, length and position are unchanged |
| `Fade.SettledIff` | main.go:41-55 | A fade is over after `k` passes if and only if `|fd| <= k * 100ms` |
| `Fade.FullFadeTakesTenTicks` | main.go:41-55 | A fade of plus or minus one second is over after `k` passes if and only if `k >= 10` |
| `Fade.BoundedFadeSettlesInTenTicks` | main.go:41-55 | Any fade within one second is over after ten passes |
| `Fade.FadeInVolumeAfter` | main.go:58 | `k` steps into a full fade-in the ramp formula gives `k/10` of the target |
| `Fade.FadeOutVolumeAfter` | main.go:49 | `k` steps into a full fade-out the ramp formula gives `(10-k)/10` of the target |
| `Fade.FadeInKeepsPlayState` | main.go:51-59 | Passes over an entry that is fading in or steady never change its playback or its icon, and its fade stays non-positive |
| `Fade.FadeInMidway` | main.go:51-59 | After `k` of the first ten passes of a full fade-in, the output is `k/10` of the target |
| `Fade.FadeInCompletes` | main.go:51-55 | From the tenth pass of a full fade-in on, the fade is over and the output equals the target |
| `Fade.FadeOutKeepsPlayState` | main.go:41-50 | While a fade-out has time left, the entry's playback and icon are as they were |
| `Fade.FadeOutKeepsPlaying` | main.go:41-50 | During the first nine passes of a full fade-out, playback and icon are unchanged |
| `Fade.FadeOutMidway` | main.go:41-50 | After `k` of the first ten passes of a full fade-out, the output is `(10-k)/10` of the target |
| `Fade.FadeOutCompletes` | main.go:41-47 | From the tenth pass of a full fade-out on, the fade is over, the player is paused, the icon is the play icon, and the output is left at a tenth of the target |
| `Fade.TicksNeverStartPlayback` | main.go:41-61 | A player that plays after `k` passes played before them |
| `Fade.SteadyEntryStaysPut` | main.go:41-61 | An entry with no fade running is unchanged by any number of passes |
| `Fade.SteadyStaysPut` | main.go:36-62 | A registry with no fade running is unchanged by any number of passes |
| `Fade.RegistryRampsUp` | main.go:51-59 | For one song of a registry in a full fade-in, after `k` of the first ten passes the output is `k/10` of its target and playback is unchanged |
| `Fade.RegistryRampsDown` | main.go:41-50 | For one song of a registry in a full fade-out, after `k` of the first ten passes the output is `(10-k)/10` of its target and playback is unchanged |
| `Fade.RegistryCrossfade` | main.go:41-59 | A full fade-in and a full fade-out toward the same target, started together, have outputs that add up to the target at every pass in between |
| `Transport.ClampVolume` | main.go:104-108 | The stored volume is always in [0, 1] and equals the input when the input is already in range |
| `Transport.ClampIsNearest` | main.go:104-108 | The clamped volume is the nearest valid volume to the input; inputs above 1 give 1 and inputs below 0 give 0; clamping is idempotent |
| `Transport.StopSong` | main.go:66-71 | A known song's fade is set to +1s whatever its state, and nothing else changes; an unknown name leaves the registry as it is |
| `Transport.PlaySong` | main.go:73-89 | The named song gets a -1s fade, plays, and shows the pause icon, keeping its position, output volume and target; every other playing song gets a +1s fade and the play icon; every other song that is not playing is unchanged; no song is added or removed |
| `Transport.RewindSong` | main.go:91-100 | A known song is seeked to the start and its fade cleared, keeping playback, output volume, target and icon; other songs are unchanged; an unknown name leaves the registry as it is |
| `Transport.SetVolume` | main.go:102-113 | A known song stores the clamped volume as its target and its player's output gets the same value at once, even mid-fade; fade, playback, position and icon are kept; other songs are unchanged; an unknown name leaves the registry as it is |
| `Transport.ResetAll` | main.go:227-236 | Every song is paused, at position 0, without a fade, with the play icon; output volume and target are kept; no song is added or removed |
| `Transport.CommandsKeepWellFormed` | main.go:66-113 | Stop, play, rewind, set-volume and reset each keep every song's fade within one second, its target in [0, 1], and a fading-in song playing |
| `Transport.PlaySongLeavesOneContender` | main.go:73-89 | On a well-formed registry, after `playSong` the named song is the only one fading in, and every other song is paused or fading out from +1s |
| `Transport.StopIsIdempotent` | main.go:66-71 | Stopping twice equals stopping once, and a stop replaces any fade, including a fade-in, with a fade-out |
| `Transport.ResetIsIdempotent` | main.go:227-236 | Resetting twice equals resetting once |
| `Scenarios.PlayedSongSettles` | main.go:73-89 | Ten or more passes after `playSong` the named song has no fade left, plays at its target volume and shows the pause icon |
| `Scenarios.OthersFallSilent` | main.go:75-85 | On a well-formed registry, ten or more passes after `playSong` every other song is paused with no fade left, and those that were playing show the play icon |
| `Scenarios.PlayThenSettle` | main.go:73-89 | From a well-formed registry, ten or more passes after `playSong` no fade is running; the named song plays at its target with the pause icon; every other song is paused; the songs that were playing show the play icon |
| `Scenarios.CrossfadeRamps` | main.go:73-89 | In the first ten passes after `playSong` the named song's output is `k/10` of its target, and every song that was playing still plays at `(10-k)/10` of its own target |
| `Scenarios.OtherRampsDown` | main.go:75-85 | A song that was playing when another one started still plays `k` passes later, at `(10-k)/10` of its target |
| `Scenarios.CrossfadeKeepsLevel` | main.go:73-89 | When the outgoing and incoming songs have the same target, their outputs add up to that target at every pass of the crossfade |
| `Scenarios.RampMidpoint` | main.go:51-59 | Five passes after starting a song whose target is 0.8, its output is 0.4 |
| `Scenarios.StopThenSettle` | main.go:66-71 | Ten or more passes after `stopSong` on any song, it is paused with the play icon, has no fade, keeps its target, and its output is a tenth of its target |
| `Scenarios.StopOnSilentSong` | main.go:66-71 | Stopping a paused, steady song and letting the fade run out gives back the same song, except that its output is a tenth of its target and the icon is the play icon |
| `Scenarios.RewindFreezesOutput` | main.go:91-100 | After `rewindSong`, any number of passes leave the song at position 0 with no fade, playing or not as before, at the output volume it had when rewound |
| `Scenarios.ResetStaysPut` | main.go:227-236 | After a reset, any number of passes leave the registry exactly as the reset left it |
| `Scenarios.TwoPlayForever` | main.go:91-100 | When the outgoing song of a crossfade is rewound after the first pass, it and the incoming song both keep playing after any number of passes; the rewound song has no fade left, and from the ninth pass on neither does the incoming one |
| `Scenarios.SetVolumeBeforeFadeEnds` | main.go:41-47 | A volume set while a fade-out has at most one step left survives the pass that ends it: the player is paused, the fade is over, and the output is the clamped new volume rather than a ramp value |

## Left out

- The goroutine, the 50 ms timer and the endless loop of `musicMain` (main.go:33-35, 141). A pass is an abstract step. The timer period (50 ms) differs from the step each pass takes (100 ms); the model counts passes, not wall-clock time.
- Concurrency. The scheduler and the UI handlers use the map without any locking. The model treats every pass and every command as atomic and sequential, which the program does not guarantee.
- Playback progress and end of stream. In the model a player's position changes only on rewind, and a player stops playing only when paused.
- The slider (`slider.SetValue(0)` in main.go:95), every `button.Refresh` call, and the commented-out slider sync (main.go:37-40). These are widget updates with no effect on the registry.
- The `fmt.Println` diagnostics (main.go:57, 74, 79).
- `float64` rounding. Volumes are exact reals, so ramp volumes are exact ratios. `Transport.ClampVolume` has no NaN: a NaN input would pass both comparisons of main.go:104-107 and be stored unclamped.
- `Transport.PlaySong` requires the name to be in the registry. On an unknown name the program has already set fade-outs on the playing songs when it panics on the missing player (main.go:75-86). The model does not cover that partial effect.
- The play button's choice between `stopSong` and `playSong` (main.go:190-196), the volume field's `strconv.ParseFloat` (main.go:181-187), asset enumeration, mp3 decoding, player construction, name trimming and the length computation (main.go:150-202). These are UI wiring, I/O or library calls. The `length` field is kept but never changes.
- The theme, the window and the size selector (main.go:115-135, 143-148, 204-225, 238-242).
