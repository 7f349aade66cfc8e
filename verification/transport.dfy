/** The transport commands the buttons and the volume field invoke. Each one
    only assigns a fade, stores a volume, or issues player commands; the
    audible effect of a fade appears over later scheduler passes. */
module Transport {
  import opened Songs

  /** Out-of-range volumes are clamped into [0, 1]. */
  function ClampVolume(v: real): (r: real)
    ensures ValidVolume(r)
    ensures ValidVolume(v) ==> r == v
  {
    if v > 1.0 then 1.0 else if v < 0.0 then 0.0 else v
  }

  function AbsReal(x: real): real {
    if x < 0.0 then -x else x
  }

  /** The clamped volume is the valid volume nearest to the input, and
      clamping twice is clamping once. */
  lemma ClampIsNearest(v: real)
    ensures forall w :: ValidVolume(w) ==> AbsReal(ClampVolume(v) - v) <= AbsReal(w - v)
    ensures ClampVolume(ClampVolume(v)) == ClampVolume(v)
    ensures v > 1.0 ==> ClampVolume(v) == 1.0
    ensures v < 0.0 ==> ClampVolume(v) == 0.0
  {
  }

  /** Starts a fade-out of the named song; unknown names are ignored. The
      fade is set whether or not the song is playing. */
  function StopSong(m: Registry, name: string): (r: Registry)
    ensures r.Keys == m.Keys
    ensures name !in m ==> r == m
    ensures name in m ==> r[name] == m[name].(fadingDuration := Second)
    ensures forall n :: n in m && n != name ==> r[n] == m[n]
  {
    if name in m then m[name := m[name].(fadingDuration := Second)] else m
  }

  /** Starts the named song with a fade-in and fades out every other song
      that is playing. The name must be in the registry: the program
      dereferences the entry's player unconditionally. */
  function PlaySong(m: Registry, name: string): (r: Registry)
    requires name in m
    ensures r.Keys == m.Keys
    ensures r[name].fadingDuration == -Second
    ensures r[name].player.playing
    ensures r[name].icon == PauseIcon
    ensures r[name].player.position == m[name].player.position
    ensures r[name].player.outVolume == m[name].player.outVolume
    ensures r[name].volume == m[name].volume && r[name].length == m[name].length
    ensures forall n :: n in m && n != name && m[n].player.playing ==>
      r[n] == m[n].(fadingDuration := Second, icon := PlayIcon)
    ensures forall n :: n in m && n != name && !m[n].player.playing ==> r[n] == m[n]
  {
    var faded := map n | n in m ::
      if n == name then m[n].(fadingDuration := -Second)
      else if m[n].player.playing then m[n].(fadingDuration := Second, icon := PlayIcon)
      else m[n];
    faded[name := faded[name].(player := faded[name].player.Play(), icon := PauseIcon)]
  }

  /** Seeks the named song back to the start and cancels any fade; unknown
      names are ignored. */
  function RewindSong(m: Registry, name: string): (r: Registry)
    ensures r.Keys == m.Keys
    ensures name !in m ==> r == m
    ensures name in m ==>
      && r[name].fadingDuration == 0
      && r[name].player.position == 0
      && r[name].player.playing == m[name].player.playing
      && r[name].player.outVolume == m[name].player.outVolume
      && r[name].volume == m[name].volume
      && r[name].icon == m[name].icon
      && r[name].length == m[name].length
    ensures forall n :: n in m && n != name ==> r[n] == m[n]
  {
    if name in m then
      m[name := m[name].(player := m[name].player.Rewind(), fadingDuration := 0)]
    else
      m
  }

  /** Stores the clamped volume as the named song's target and pushes it to
      the player at once, even while a fade is running; unknown names are
      ignored. */
  function SetVolume(m: Registry, name: string, v: real): (r: Registry)
    ensures r.Keys == m.Keys
    ensures name !in m ==> r == m
    ensures name in m ==>
      && r[name].volume == ClampVolume(v)
      && r[name].player.outVolume == ClampVolume(v)
      && r[name].fadingDuration == m[name].fadingDuration
      && r[name].player.playing == m[name].player.playing
      && r[name].player.position == m[name].player.position
      && r[name].icon == m[name].icon
      && r[name].length == m[name].length
    ensures forall n :: n in m && n != name ==> r[n] == m[n]
  {
    if name in m then
      var c := ClampVolume(v);
      m[name := m[name].(volume := c, player := m[name].player.SetVolume(c))]
    else
      m
  }

  /** The "Reset Songs" button: every song is paused, rewound, stripped of
      its fade and shows the play icon; target and output volumes stay. */
  function ResetAll(m: Registry): (r: Registry)
    ensures r.Keys == m.Keys
    ensures AllSteady(r)
    ensures forall n :: n in m ==>
      && !r[n].player.playing
      && r[n].player.position == 0
      && r[n].icon == PlayIcon
      && r[n].player.outVolume == m[n].player.outVolume
      && r[n].volume == m[n].volume
      && r[n].length == m[n].length
  {
    map n | n in m ::
      m[n].(player := m[n].player.Pause().Rewind(), fadingDuration := 0, icon := PlayIcon)
  }

  /** Every command keeps the registry well formed: fades stay within a
      second, target volumes within [0, 1], and a song fading in plays. */
  lemma CommandsKeepWellFormed(m: Registry, name: string, v: real)
    requires AllWellFormed(m)
    ensures AllWellFormed(StopSong(m, name))
    ensures name in m ==> AllWellFormed(PlaySong(m, name))
    ensures AllWellFormed(RewindSong(m, name))
    ensures AllWellFormed(SetVolume(m, name, v))
    ensures AllWellFormed(ResetAll(m))
  {
    if name in m {
      var r := PlaySong(m, name);
      forall n | n in r
        ensures WellFormed(r[n])
      {
        assert n == name || WellFormed(m[n]);
      }
    }
  }

  /** After `PlaySong` the named song is the only one that is fading in,
      and every other song is either silent or on its way out. */
  lemma PlaySongLeavesOneContender(m: Registry, name: string)
    requires name in m
    requires AllWellFormed(m)
    ensures forall n :: n in m ==>
      (PlaySong(m, name)[n].fadingDuration < 0 <==> n == name)
    ensures forall n :: n in m && n != name ==>
      !PlaySong(m, name)[n].player.playing || PlaySong(m, name)[n].fadingDuration == Second
  {
    var r := PlaySong(m, name);
    forall n | n in m && n != name
      ensures r[n].fadingDuration >= 0
    {
      assert WellFormed(m[n]);
    }
  }

  /** Stopping twice is stopping once, and a stop overrides whatever fade
      was running, including a fade-in. */
  lemma StopIsIdempotent(m: Registry, name: string)
    ensures StopSong(StopSong(m, name), name) == StopSong(m, name)
    ensures name in m ==> StopSong(m, name)[name].fadingDuration > 0
  {
  }

  /** Resetting twice is resetting once. */
  lemma ResetIsIdempotent(m: Registry)
    ensures ResetAll(ResetAll(m)) == ResetAll(m)
  {
  }
}
