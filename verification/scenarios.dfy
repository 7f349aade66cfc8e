/** What the commands and the scheduler do together over several passes:
    the crossfade that `PlaySong` starts, the fade-out that `StopSong`
    starts, and the fades that `RewindSong` and `ResetAll` cancel. */
module Scenarios {
  import opened Songs
  import opened Fade
  import opened Transport

  /** Ten passes after `PlaySong` the named song's fade-in is over: it
      plays at its target volume and shows the pause icon. */
  lemma PlayedSongSettles(m: Registry, name: string, k: nat)
    requires name in m
    requires k >= 10
    ensures TickN(PlaySong(m, name), k)[name].fadingDuration == 0
    ensures TickN(PlaySong(m, name), k)[name].player.playing
    ensures TickN(PlaySong(m, name), k)[name].player.outVolume == m[name].volume
    ensures TickN(PlaySong(m, name), k)[name].icon == PauseIcon
  {
    var p := PlaySong(m, name);
    FadeInKeepsPlayState(p[name], k);
    FadeInCompletes(p[name], k);
  }

  /** Ten passes after `PlaySong` every other song is paused with no fade
      left, and the songs that were playing show the play icon. */
  lemma OthersFallSilent(m: Registry, name: string, k: nat)
    requires name in m
    requires AllWellFormed(m)
    requires k >= 10
    ensures forall n :: n in m && n != name ==>
      && TickN(PlaySong(m, name), k)[n].fadingDuration == 0
      && !TickN(PlaySong(m, name), k)[n].player.playing
      && (m[n].player.playing ==> TickN(PlaySong(m, name), k)[n].icon == PlayIcon)
  {
    var p := PlaySong(m, name);
    var r := TickN(p, k);
    forall n | n in m && n != name
      ensures r[n].fadingDuration == 0 && !r[n].player.playing
      ensures m[n].player.playing ==> r[n].icon == PlayIcon
    {
      if m[n].player.playing {
        FadeOutCompletes(p[n], k);
      } else {
        assert WellFormed(m[n]);
        BoundedFadeSettlesInTenTicks(p[n], k);
        TicksNeverStartPlayback(p[n], k);
      }
    }
  }

  /** Ten passes after `PlaySong` every fade is over: the named song plays
      at its target volume with the pause icon, every other song is paused,
      and the songs that were playing show the play icon. */
  lemma PlayThenSettle(m: Registry, name: string, k: nat)
    requires name in m
    requires AllWellFormed(m)
    requires k >= 10
    ensures TickN(PlaySong(m, name), k).Keys == m.Keys
    ensures AllSteady(TickN(PlaySong(m, name), k))
    ensures TickN(PlaySong(m, name), k)[name].player.playing
    ensures TickN(PlaySong(m, name), k)[name].player.outVolume == m[name].volume
    ensures TickN(PlaySong(m, name), k)[name].icon == PauseIcon
    ensures forall n :: n in m && n != name ==> !TickN(PlaySong(m, name), k)[n].player.playing
    ensures forall n :: n in m && n != name && m[n].player.playing ==>
      TickN(PlaySong(m, name), k)[n].icon == PlayIcon
  {
    PlayedSongSettles(m, name, k);
    OthersFallSilent(m, name, k);
  }

  /** During the ten passes after `PlaySong` the named song ramps up by a
      tenth of its target per pass, while every song that was playing
      ramps down by a tenth of its own target per pass and keeps playing. */
  lemma CrossfadeRamps(m: Registry, name: string, k: nat)
    requires name in m
    requires 0 < k < 10
    ensures TickN(PlaySong(m, name), k)[name].player.playing
    ensures TickN(PlaySong(m, name), k)[name].player.outVolume == (k as real / 10.0) * m[name].volume
    ensures forall n :: n in m && n != name && m[n].player.playing ==>
      && TickN(PlaySong(m, name), k)[n].player.playing
      && TickN(PlaySong(m, name), k)[n].player.outVolume == ((10 - k) as real / 10.0) * m[n].volume
  {
    RegistryRampsUp(PlaySong(m, name), name, m[name].volume, k);
    forall n | n in m && n != name && m[n].player.playing
      ensures TickN(PlaySong(m, name), k)[n].player.playing
      ensures TickN(PlaySong(m, name), k)[n].player.outVolume == ((10 - k) as real / 10.0) * m[n].volume
    {
      OtherRampsDown(m, name, n, k);
    }
  }

  /** A song that was playing when `PlaySong` started another one keeps
      playing through the crossfade, ramping down by a tenth of its own
      target per pass. */
  lemma OtherRampsDown(m: Registry, name: string, n: string, k: nat)
    requires name in m && n in m && n != name
    requires m[n].player.playing
    requires 0 < k < 10
    ensures TickN(PlaySong(m, name), k)[n].player.playing
    ensures TickN(PlaySong(m, name), k)[n].player.outVolume == ((10 - k) as real / 10.0) * m[n].volume
  {
    RegistryRampsDown(PlaySong(m, name), n, m[n].volume, k);
  }

  /** Between two songs with the same target volume the crossfade is
      complementary: at every pass of it their outputs add up to the
      target. */
  lemma CrossfadeKeepsLevel(m: Registry, name: string, other: string, k: nat)
    requires name in m && other in m && other != name
    requires m[other].player.playing
    requires m[other].volume == m[name].volume
    requires 0 < k < 10
    ensures TickN(PlaySong(m, name), k)[name].player.outVolume
          + TickN(PlaySong(m, name), k)[other].player.outVolume
          == m[name].volume
  {
    RegistryCrossfade(PlaySong(m, name), name, other, m[name].volume, k);
  }

  /** The linear ramp at its midpoint: five passes into a fade-in toward a
      target of 0.8 the output is 0.4. */
  lemma RampMidpoint(m: Registry, name: string)
    requires name in m
    requires m[name].volume == 0.8
    ensures TickN(PlaySong(m, name), 5)[name].player.outVolume == 0.4
  {
    CrossfadeRamps(m, name, 5);
  }

  /** Ten passes after `StopSong` the named song is paused with the play
      icon and no fade, whatever state it was in; its output is left at a
      tenth of its target. */
  lemma StopThenSettle(m: Registry, name: string, k: nat)
    requires name in m
    requires k >= 10
    ensures TickN(StopSong(m, name), k)[name].fadingDuration == 0
    ensures !TickN(StopSong(m, name), k)[name].player.playing
    ensures TickN(StopSong(m, name), k)[name].icon == PlayIcon
    ensures TickN(StopSong(m, name), k)[name].player.outVolume == (1.0 / 10.0) * m[name].volume
    ensures TickN(StopSong(m, name), k)[name].volume == m[name].volume
  {
    var p := StopSong(m, name);
    FadeOutCompletes(p[name], k);
    StepNRemaining(p[name], k);
  }

  /** Stopping a song that is already paused and steady is not a no-op:
      once the fade it starts has run out, the song is back as it was
      except that its output volume is a tenth of its target and its icon
      is the play icon. */
  lemma StopOnSilentSong(m: Registry, name: string)
    requires name in m
    requires !m[name].player.playing && m[name].fadingDuration == 0
    ensures TickN(StopSong(m, name), 10)[name]
         == m[name].(player := m[name].player.SetVolume((1.0 / 10.0) * m[name].volume), icon := PlayIcon)
  {
    StopThenSettle(m, name, 10);
    StepNRemaining(StopSong(m, name)[name], 10);
  }

  /** `RewindSong` cancels a running fade for good: however many passes
      follow, the song stays at the start, keeps playing or not as it did,
      and keeps the output volume it had when rewound, even if that was a
      point partway along a ramp. */
  lemma RewindFreezesOutput(m: Registry, name: string, k: nat)
    requires name in m
    ensures TickN(RewindSong(m, name), k)[name].fadingDuration == 0
    ensures TickN(RewindSong(m, name), k)[name].player.position == 0
    ensures TickN(RewindSong(m, name), k)[name].player.playing == m[name].player.playing
    ensures TickN(RewindSong(m, name), k)[name].player.outVolume == m[name].player.outVolume
  {
    var p := RewindSong(m, name);
    StepNRemaining(p[name], k);
    TicksNeverStartPlayback(p[name], k);
    SteadyEntryStaysPut(p[name], k);
  }

  /** After "Reset Songs" nothing is left for the scheduler to do: every
      later pass leaves the registry exactly as the reset left it. */
  lemma ResetStaysPut(m: Registry, k: nat)
    ensures TickN(ResetAll(m), k) == ResetAll(m)
  {
    SteadyStaysPut(ResetAll(m), k);
  }

  /** Rewinding the outgoing song during a crossfade cancels its fade-out
      for good: from then on both it and the song `PlaySong` started keep
      playing, however many passes follow, and once the fade-in is over
      neither has a fade left. */
  lemma TwoPlayForever(m: Registry, name: string, other: string, k: nat)
    requires name in m && other in m && other != name
    requires m[other].player.playing
    ensures TickN(RewindSong(TickN(PlaySong(m, name), 1), other), k)[name].player.playing
    ensures TickN(RewindSong(TickN(PlaySong(m, name), 1), other), k)[other].player.playing
    ensures TickN(RewindSong(TickN(PlaySong(m, name), 1), other), k)[other].fadingDuration == 0
    ensures k >= 9 ==> TickN(RewindSong(TickN(PlaySong(m, name), 1), other), k)[name].fadingDuration == 0
  {
    var p := PlaySong(m, name);
    var t := TickN(p, 1);
    var q := RewindSong(t, other);
    assert q[name] == StepN(p[name], 1);
    FadeInKeepsPlayState(p[name], 1);
    StepNRemaining(p[name], 1);
    FadeInKeepsPlayState(q[name], k);
    SettledIff(q[name], k);
    assert t[other] == StepN(p[other], 1);
    StepNRemaining(p[other], 1);
    FadeOutKeepsPlayState(p[other], 1);
    SteadyEntryStaysPut(q[other], k);
  }

  /** A volume set while a fade-out has its last step to go is not ramped:
      the pass that ends the fade pauses the player and leaves it at the
      volume just pushed, the full new target. */
  lemma SetVolumeBeforeFadeEnds(m: Registry, name: string, v: real)
    requires name in m
    requires 0 < m[name].fadingDuration <= FadeStep
    ensures !Tick(SetVolume(m, name, v))[name].player.playing
    ensures Tick(SetVolume(m, name, v))[name].fadingDuration == 0
    ensures Tick(SetVolume(m, name, v))[name].player.outVolume == ClampVolume(v)
  {
  }
}
