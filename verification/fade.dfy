/** The fade scheduler: one pass over the registry moves every running fade
    one `FadeStep` toward zero, ramps the player's output volume linearly
    and, when a fade ends, pauses the player (fade-out) or settles it at the
    target volume (fade-in). */
module Fade {
  import opened Songs

  function Abs(x: int): nat {
    if x < 0 then -x else x
  }

  /** Output volume while fading out with `fd` of the fade left: the
      remaining fraction of a second, scaled by the target volume. */
  function FadeOutVolume(fd: int, volume: real): real {
    (fd as real / Second as real) * volume
  }

  /** Output volume while fading in with `-fd` of the fade left: the
      elapsed fraction of a second, scaled by the target volume. */
  function FadeInVolume(fd: int, volume: real): real {
    (1.0 - (-fd) as real / Second as real) * volume
  }

  /** The two ramp formulas describe one curve: fading in with `-fd` left
      sounds like fading out with `Second + fd` left. */
  lemma FadeInMirrorsFadeOut(fd: int, volume: real)
    ensures FadeInVolume(fd, volume) == FadeOutVolume(Second + fd, volume)
  {
    assert (Second + fd) as real / Second as real == 1.0 - (-fd) as real / Second as real;
  }

  /** A fade-out ramp never leaves [0, volume], and it is monotone: less
      time left never means a louder output. */
  lemma FadeOutVolumeInRange(fd: int, volume: real)
    requires 0 <= fd <= Second
    requires 0.0 <= volume
    ensures 0.0 <= FadeOutVolume(fd, volume) <= volume
    ensures forall fd' :: 0 <= fd' <= fd ==> FadeOutVolume(fd', volume) <= FadeOutVolume(fd, volume)
  {
    var f := fd as real / Second as real;
    assert 0.0 <= f <= 1.0;
    assert volume - f * volume == (1.0 - f) * volume;
    forall fd' | 0 <= fd' <= fd
      ensures FadeOutVolume(fd', volume) <= FadeOutVolume(fd, volume)
    {
      var f' := fd' as real / Second as real;
      assert f' <= f;
      assert f * volume - f' * volume == (f - f') * volume;
    }
  }

  /** A fade-in ramp never leaves [0, volume], and it is monotone: less
      time left never means a quieter output. */
  lemma FadeInVolumeInRange(fd: int, volume: real)
    requires -Second <= fd <= 0
    requires 0.0 <= volume
    ensures 0.0 <= FadeInVolume(fd, volume) <= volume
    ensures forall fd' :: fd <= fd' <= 0 ==> FadeInVolume(fd, volume) <= FadeInVolume(fd', volume)
  {
    FadeInMirrorsFadeOut(fd, volume);
    FadeOutVolumeInRange(Second + fd, volume);
    forall fd' | fd <= fd' <= 0
      ensures FadeInVolume(fd, volume) <= FadeInVolume(fd', volume)
    {
      FadeInMirrorsFadeOut(fd', volume);
      FadeOutVolumeInRange(Second + fd', volume);
    }
  }

  /** One scheduler pass over a single entry. */
  function StepSong(s: Song): (r: Song)
    ensures r.volume == s.volume && r.length == s.length
    ensures r.player.position == s.player.position
    // A steady entry is left alone.
    ensures s.fadingDuration == 0 ==> r == s
    // A fade moves toward zero, never across it, by exactly one step
    // unless it ends.
    ensures s.fadingDuration > 0 ==> 0 <= r.fadingDuration < s.fadingDuration
    ensures s.fadingDuration < 0 ==> s.fadingDuration < r.fadingDuration <= 0
    ensures r.fadingDuration == 0 <==> Abs(s.fadingDuration) <= FadeStep
    ensures r.fadingDuration != 0 ==> Abs(s.fadingDuration) - Abs(r.fadingDuration) == FadeStep
    // A fade-out that ends pauses the player and shows the play icon.
    ensures 0 < s.fadingDuration <= FadeStep ==>
      && !r.player.playing
      && r.icon == PlayIcon
      && r.player.outVolume == s.player.outVolume
    // A fade-in that ends sets the output to the target volume.
    ensures -FadeStep <= s.fadingDuration < 0 ==> r.player.outVolume == s.volume
    // Playback and the icon change only when a fade-out ends.
    ensures !(0 < s.fadingDuration <= FadeStep) ==>
      r.player.playing == s.player.playing && r.icon == s.icon
  {
    if s.fadingDuration > 0 then
      var fd := s.fadingDuration - FadeStep;
      if fd <= 0 then
        s.(player := s.player.Pause(), icon := PlayIcon, fadingDuration := 0)
      else
        s.(player := s.player.SetVolume(FadeOutVolume(fd, s.volume)), fadingDuration := fd)
    else if s.fadingDuration < 0 then
      var fd := s.fadingDuration + FadeStep;
      if fd >= 0 then
        s.(player := s.player.SetVolume(s.volume), fadingDuration := 0)
      else
        s.(player := s.player.SetVolume(FadeInVolume(fd, s.volume)), fadingDuration := fd)
    else
      s
  }

  /** While a fade runs, a pass sets the output volume on the linear ramp
      for the time left. */
  lemma StepFollowsRamp(s: Song)
    ensures StepSong(s).fadingDuration > 0 ==>
      StepSong(s).player.outVolume == FadeOutVolume(StepSong(s).fadingDuration, s.volume)
    ensures StepSong(s).fadingDuration < 0 ==>
      StepSong(s).player.outVolume == FadeInVolume(StepSong(s).fadingDuration, s.volume)
  {
  }

  /** The Go `time.Duration` arithmetic of a pass cannot wrap around: an
      entry that starts in the 64-bit range stays in it. */
  lemma StepNeverWraps(s: Song)
    requires IsInt64(s.fadingDuration)
    ensures IsInt64(StepSong(s).fadingDuration)
    ensures s.fadingDuration > 0 ==> IsInt64(s.fadingDuration - FadeStep)
    ensures s.fadingDuration < 0 ==> IsInt64(s.fadingDuration + FadeStep)
  {
  }

  /** A pass keeps an entry well formed, and while a fade is running the
      output volume it sets lies between silence and the target. */
  lemma StepKeepsWellFormed(s: Song)
    requires WellFormed(s)
    ensures WellFormed(StepSong(s))
    ensures StepSong(s).fadingDuration != 0 ==>
      0.0 <= StepSong(s).player.outVolume <= s.volume
  {
    var r := StepSong(s);
    StepFollowsRamp(s);
    if r.fadingDuration > 0 {
      FadeOutVolumeInRange(r.fadingDuration, s.volume);
    } else if r.fadingDuration < 0 {
      FadeInVolumeInRange(r.fadingDuration, s.volume);
    }
  }

  /** One pass of the scheduler over the whole registry. */
  function Tick(m: Registry): Registry {
    map n | n in m :: StepSong(m[n])
  }

  /** The scheduler's loop over the registry, writing each stepped entry
      back under its own name, visits every entry exactly once and so
      computes `Tick`. */
  method RunTick(songs: Registry) returns (r: Registry)
    ensures r.Keys == songs.Keys
    ensures forall n :: n in songs ==> r[n] == StepSong(songs[n])
    ensures r == Tick(songs)
  {
    r := songs;
    var pending := songs.Keys;
    while pending != {}
      invariant pending <= songs.Keys
      invariant r.Keys == songs.Keys
      invariant forall n :: n in pending ==> r[n] == songs[n]
      invariant forall n :: n in songs && n !in pending ==> r[n] == StepSong(songs[n])
      decreases pending
    {
      var n :| n in pending;
      r := r[n := StepSong(r[n])];
      pending := pending - {n};
    }
  }

  lemma TickKeepsWellFormed(m: Registry)
    requires AllWellFormed(m)
    ensures AllWellFormed(Tick(m))
  {
    forall n | n in m
      ensures WellFormed(Tick(m)[n])
    {
      StepKeepsWellFormed(m[n]);
    }
  }

  /** A registry with no fade running is a fixed point of the scheduler,
      and it is the only kind: any running fade changes on the next pass. */
  lemma TickFixesExactlySteady(m: Registry)
    ensures Tick(m) == m <==> AllSteady(m)
  {
    if Tick(m) == m {
      forall n | n in m
        ensures m[n].fadingDuration == 0
      {
        assert Tick(m)[n] == StepSong(m[n]);
      }
    }
  }

  /** `k` passes over one entry. */
  function StepN(s: Song, k: nat): Song
    decreases k
  {
    if k == 0 then s else StepSong(StepN(s, k - 1))
  }

  /** `k` passes over the registry, taken entry by entry. */
  function TickN(m: Registry, k: nat): Registry {
    map n | n in m :: StepN(m[n], k)
  }

  /** Taking `k` passes entry by entry is running the scheduler's pass `k`
      times over the whole registry. */
  lemma TickNIsRepeatedTick(m: Registry, k: nat)
    ensures TickN(m, 0) == m
    ensures TickN(m, k + 1) == Tick(TickN(m, k))
  {
    var prev := TickN(m, k);
    forall n | n in m
      ensures TickN(m, k + 1)[n] == Tick(prev)[n]
    {
      assert StepN(m[n], k + 1) == StepSong(StepN(m[n], k));
    }
  }

  /** Time left on a fade that started at `fd` after `k` passes. */
  function Remaining(fd: int, k: nat): int {
    if fd > 0 then
      if fd - k * FadeStep > 0 then fd - k * FadeStep else 0
    else if fd < 0 then
      if fd + k * FadeStep < 0 then fd + k * FadeStep else 0
    else
      0
  }

  /** Closed form of the fade after `k` passes: it moves `k` steps toward
      zero and stays there once it gets there; the target volume, length
      and position never change. */
  lemma {:induction false} StepNRemaining(s: Song, k: nat)
    ensures StepN(s, k).fadingDuration == Remaining(s.fadingDuration, k)
    ensures StepN(s, k).volume == s.volume
    ensures StepN(s, k).length == s.length
    ensures StepN(s, k).player.position == s.player.position
    decreases k
  {
    if k > 0 {
      StepNRemaining(s, k - 1);
    }
  }

  /** A fade is over after `k` passes exactly when `k` steps cover it. */
  lemma SettledIff(s: Song, k: nat)
    ensures StepN(s, k).fadingDuration == 0 <==> Abs(s.fadingDuration) <= k * FadeStep
  {
    StepNRemaining(s, k);
  }

  /** A full one-second fade takes exactly ten passes. */
  lemma FullFadeTakesTenTicks(s: Song, k: nat)
    requires Abs(s.fadingDuration) == Second
    ensures StepN(s, k).fadingDuration == 0 <==> k >= 10
  {
    SettledIff(s, k);
  }

  /** A fade within a second is over after ten passes. */
  lemma BoundedFadeSettlesInTenTicks(s: Song, k: nat)
    requires FadeBounded(s)
    requires k >= 10
    ensures StepN(s, k).fadingDuration == 0
  {
    SettledIff(s, k);
  }

  /** The output volume `k` passes into a full fade-in is `k/10` of the
      target. */
  lemma FadeInVolumeAfter(k: int, volume: real)
    ensures FadeInVolume(k * FadeStep - Second, volume) == (k as real / 10.0) * volume
  {
    var f := 1.0 - (-(k * FadeStep - Second)) as real / Second as real;
    assert f == k as real / 10.0;
  }

  /** The output volume `k` passes into a full fade-out is `(10-k)/10` of
      the target. */
  lemma FadeOutVolumeAfter(k: int, volume: real)
    ensures FadeOutVolume(Second - k * FadeStep, volume) == ((10 - k) as real / 10.0) * volume
  {
    var f := (Second - k * FadeStep) as real / Second as real;
    assert f == (10 - k) as real / 10.0;
  }

  /** While a fade-in runs the player's play state and icon stay as they
      were, because only a finishing fade-out changes them. */
  lemma {:induction false} FadeInKeepsPlayState(s: Song, k: nat)
    requires s.fadingDuration <= 0
    ensures StepN(s, k).player.playing == s.player.playing
    ensures StepN(s, k).icon == s.icon
    ensures StepN(s, k).fadingDuration <= 0
    decreases k
  {
    if k > 0 {
      FadeInKeepsPlayState(s, k - 1);
    }
  }

  /** Partway through a full fade-in, started at `-Second`: after `k` of
      the first ten passes the output is `k/10` of the target. */
  lemma FadeInMidway(s: Song, w: real, k: nat)
    requires s.fadingDuration == -Second && s.volume == w
    requires 0 < k < 10
    ensures StepN(s, k).player.outVolume == (k as real / 10.0) * w
  {
    StepNRemaining(s, k - 1);
    var prev := StepN(s, k - 1);
    assert StepN(s, k) == StepSong(prev);
    StepFollowsRamp(prev);
    assert StepSong(prev).fadingDuration == k * FadeStep - Second;
    FadeInVolumeAfter(k, w);
  }

  /** A full fade-in is over from the tenth pass on, with the output at the
      target volume. */
  lemma {:induction false} FadeInCompletes(s: Song, k: nat)
    requires s.fadingDuration == -Second
    requires k >= 10
    ensures StepN(s, k).fadingDuration == 0
    ensures StepN(s, k).player.outVolume == s.volume
    decreases k
  {
    StepNRemaining(s, k - 1);
    var prev := StepN(s, k - 1);
    assert StepN(s, k) == StepSong(prev);
    if k > 10 {
      FadeInCompletes(s, k - 1);
    }
  }

  /** While a fade-out has not finished the player's play state and icon
      stay as they were. */
  lemma {:induction false} FadeOutKeepsPlayState(s: Song, k: nat)
    requires s.fadingDuration >= 0
    requires StepN(s, k).fadingDuration > 0
    ensures StepN(s, k).player.playing == s.player.playing
    ensures StepN(s, k).icon == s.icon
    decreases k
  {
    if k > 0 {
      StepNRemaining(s, k - 1);
      StepNRemaining(s, k);
      FadeOutKeepsPlayState(s, k - 1);
    }
  }

  /** While a full fade-out runs, the player plays as before and keeps its
      icon. */
  lemma FadeOutKeepsPlaying(s: Song, k: nat)
    requires s.fadingDuration == Second
    requires k < 10
    ensures StepN(s, k).player.playing == s.player.playing
    ensures StepN(s, k).icon == s.icon
  {
    StepNRemaining(s, k);
    FadeOutKeepsPlayState(s, k);
  }

  /** Partway through a full fade-out, started at `Second`: after `k` of
      the first ten passes the output is `(10-k)/10` of the target. */
  lemma FadeOutMidway(s: Song, w: real, k: nat)
    requires s.fadingDuration == Second && s.volume == w
    requires 0 < k < 10
    ensures StepN(s, k).player.outVolume == ((10 - k) as real / 10.0) * w
  {
    StepNRemaining(s, k - 1);
    var prev := StepN(s, k - 1);
    assert StepN(s, k) == StepSong(prev);
    StepFollowsRamp(prev);
    assert StepSong(prev).fadingDuration == Second - k * FadeStep;
    FadeOutVolumeAfter(k, w);
  }

  /** A full fade-out is over from the tenth pass on: the player is paused
      and shows the play icon, and its output is left at the last ramp
      value, a tenth of the target, rather than at silence. */
  lemma {:induction false} FadeOutCompletes(s: Song, k: nat)
    requires s.fadingDuration == Second
    requires k >= 10
    ensures StepN(s, k).fadingDuration == 0
    ensures !StepN(s, k).player.playing
    ensures StepN(s, k).icon == PlayIcon
    ensures StepN(s, k).player.outVolume == (1.0 / 10.0) * s.volume
    decreases k
  {
    StepNRemaining(s, k - 1);
    var prev := StepN(s, k - 1);
    assert StepN(s, k) == StepSong(prev);
    if k == 10 {
      FadeOutMidway(s, s.volume, 9);
    } else {
      FadeOutCompletes(s, k - 1);
    }
  }

  /** Passes never start playback: a player that plays after `k` passes
      played before them. */
  lemma {:induction false} TicksNeverStartPlayback(s: Song, k: nat)
    ensures StepN(s, k).player.playing ==> s.player.playing
    decreases k
  {
    if k > 0 {
      TicksNeverStartPlayback(s, k - 1);
    }
  }

  /** An entry with no fade running stays exactly as it is, however many
      passes run. */
  lemma {:induction false} SteadyEntryStaysPut(s: Song, k: nat)
    requires s.fadingDuration == 0
    ensures StepN(s, k) == s
    decreases k
  {
    if k > 0 {
      SteadyEntryStaysPut(s, k - 1);
    }
  }

  /** A registry with no fade running stays exactly as it is, however many
      passes run. */
  lemma SteadyStaysPut(m: Registry, k: nat)
    requires AllSteady(m)
    ensures TickN(m, k) == m
  {
    forall n | n in m
      ensures TickN(m, k)[n] == m[n]
    {
      SteadyEntryStaysPut(m[n], k);
    }
  }

  /** `FadeInMidway` for one song of a registry whose target volume is `w`. */
  lemma RegistryRampsUp(m: Registry, n: string, w: real, k: nat)
    requires n in m && m[n].fadingDuration == -Second && m[n].volume == w
    requires 0 < k < 10
    ensures TickN(m, k)[n].player.playing == m[n].player.playing
    ensures TickN(m, k)[n].player.outVolume == (k as real / 10.0) * w
  {
    FadeInKeepsPlayState(m[n], k);
    FadeInMidway(m[n], w, k);
    assert TickN(m, k)[n] == StepN(m[n], k);
  }

  /** `FadeOutMidway` for one song of a registry whose target volume is `w`. */
  lemma RegistryRampsDown(m: Registry, n: string, w: real, k: nat)
    requires n in m && m[n].fadingDuration == Second && m[n].volume == w
    requires 0 < k < 10
    ensures TickN(m, k)[n].player.playing == m[n].player.playing
    ensures TickN(m, k)[n].player.outVolume == ((10 - k) as real / 10.0) * w
  {
    FadeOutKeepsPlaying(m[n], k);
    FadeOutMidway(m[n], w, k);
    assert TickN(m, k)[n] == StepN(m[n], k);
  }

  /** A fade-in and a fade-out that start together toward the same target
      volume are complementary: at every pass of them the two outputs add
      up to the target. */
  lemma RegistryCrossfade(m: Registry, up: string, down: string, w: real, k: nat)
    requires up in m && m[up].fadingDuration == -Second && m[up].volume == w
    requires down in m && m[down].fadingDuration == Second && m[down].volume == w
    requires 0 < k < 10
    ensures TickN(m, k)[up].player.outVolume + TickN(m, k)[down].player.outVolume == w
  {
    RegistryRampsUp(m, up, w, k);
    RegistryRampsDown(m, down, w, k);
    assert (k as real / 10.0) * w + ((10 - k) as real / 10.0) * w
        == (k as real / 10.0 + (10 - k) as real / 10.0) * w;
  }
}
