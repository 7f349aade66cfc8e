/** The song registry of the mixer: one `Song` record per embedded track,
    keyed by the track's name.

    Durations are Go `time.Duration` values, that is signed nanosecond
    counts; they are modelled as unbounded `int`s, and `IsInt64` states the
    range the Go type actually has. Volumes are `float64` in the program and
    `real` here. */
module Songs {

  const Second: int := 1_000_000_000

  /** How far one pass of the scheduler moves a fade toward zero: 100 ms. */
  const FadeStep: int := 100_000_000

  const MinInt64: int := -0x8000_0000_0000_0000
  const MaxInt64: int := 0x7fff_ffff_ffff_ffff

  predicate IsInt64(x: int) {
    MinInt64 <= x <= MaxInt64
  }

  /** The icon shown on a track's play/pause button. */
  datatype Icon = PlayIcon | PauseIcon

  /** The observable state of an audio player: whether it is playing, where
      it is in the stream, and the volume it was last told to use. */
  datatype Player = Player(playing: bool, position: int, outVolume: real) {

    function Play(): Player {
      this.(playing := true)
    }

    function Pause(): Player {
      this.(playing := false)
    }

    /** Seeks back to the start of the stream. */
    function Rewind(): Player {
      this.(position := 0)
    }

    function SetVolume(v: real): Player {
      this.(outVolume := v)
    }
  }

  /** One track. `fadingDuration` encodes the fade in its sign: positive is
      fading out, negative is fading in, zero is steady. `volume` is the
      user's target volume, which the fades scale. */
  datatype Song = Song(
    player: Player,
    icon: Icon,
    fadingDuration: int,
    length: int,
    volume: real)

  type Registry = map<string, Song>

  predicate ValidVolume(v: real) {
    0.0 <= v <= 1.0
  }

  /** A fade never lasts longer than one second in either direction. */
  predicate FadeBounded(s: Song) {
    -Second <= s.fadingDuration <= Second
  }

  /** The state every entry keeps between scheduler passes and commands:
      its fade is bounded, its target volume lies in [0, 1], and a song
      that is fading in is playing. */
  predicate WellFormed(s: Song) {
    && FadeBounded(s)
    && ValidVolume(s.volume)
    && (s.fadingDuration < 0 ==> s.player.playing)
  }

  predicate AllWellFormed(m: Registry) {
    forall n :: n in m ==> WellFormed(m[n])
  }

  predicate AllSteady(m: Registry) {
    forall n :: n in m ==> m[n].fadingDuration == 0
  }

  /** The entry the program builds for each embedded track is well formed:
      paused, no fade, full target volume and the play icon. */
  lemma NewSongWellFormed(p: Player, length: int)
    requires !p.playing
    ensures WellFormed(Song(p, PlayIcon, 0, length, 1.0))
  {
  }
}
