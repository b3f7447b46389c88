/**
 * The audio hook: short cues dispatched by name to a fixed table (each with its
 * vibration pattern), and one looping background-music element whose volume is
 * eased with smoothstep, started by `playMusic`, faded out and paused by
 * `pauseMusic`, and flipped by `toggleMusic`.
 *
 * Times are milliseconds as reals (the values of `performance.now()` and of the
 * animation-frame timestamps); a promise resolution, an animation frame and a
 * timeout are each an explicit method call.
 */
module Audio {

  import opened Wrappers

  /** What a cue produces: a vibration request and a synthesized sound, both logged by name. */
  datatype Output = Vibrate(pattern: seq<nat>) | Sound(name: string)

  /**
   * The dispatch table of `play`: for each cue it knows, the vibration pattern it
   * requests (`vibrate(50)` is the one-element pattern [50]; 'drop' requests none,
   * written []). Any other name is not in the table.
   */
  function CueVibration(name: string): (vibration: Option<seq<nat>>)
    ensures vibration.Some? <==> name in KnownCues
    ensures vibration == Some([]) <==> name == "drop"
    ensures vibration.Some? ==> |vibration.value| <= 3
  {
    if name == "metallic-click" then Some([50])
    else if name == "unlock" then Some([30, 50, 30])
    else if name == "slam" then Some([200])
    else if name == "grind" then Some([100])
    else if name == "drop" then Some([])
    else if name == "clink" then Some([20, 40, 20])
    else None
  }

  const KnownCues: set<string> := {"metallic-click", "unlock", "slam", "grind", "drop", "clink"}

  /**
   * What one call of `play(name)` outputs once the audio context exists: the
   * vibration first (when the cue has one and the device supports it), then the sound.
   */
  function CueOutputs(name: string, canVibrate: bool): (out: seq<Output>)
    ensures out == [] <==> name !in KnownCues
    ensures out != [] ==> out[|out| - 1] == Sound(name)
    ensures |out| <= 2
  {
    match CueVibration(name)
    case None => []
    case Some(pattern) =>
      (if pattern != [] && canVibrate then [Vibrate(pattern)] else []) + [Sound(name)]
  }

  /** Each known cue requests exactly its fixed pattern, and only 'drop' requests none. */
  lemma CueVibrationTable(name: string)
    ensures CueVibration(name).Some? <==> name in KnownCues
    ensures CueVibration(name) == Some([]) <==> name == "drop"
    ensures name == "unlock" ==> CueOutputs(name, true) == [Vibrate([30, 50, 30]), Sound(name)]
    ensures name == "clink" ==> CueOutputs(name, true) == [Vibrate([20, 40, 20]), Sound(name)]
  {
  }

  /** Smoothstep easing: p * p * (3 - 2 * p). */
  function Smoothstep(p: real): (eased: real)
    ensures p == 0.0 ==> eased == 0.0
    ensures p == 0.5 ==> eased == 0.5
    ensures p == 1.0 ==> eased == 1.0
  {
    p * p * (3.0 - 2.0 * p)
  }

  /** The product of two non-negative reals is non-negative. */
  lemma MulNonNeg(a: real, b: real)
    requires 0.0 <= a && 0.0 <= b
    ensures 0.0 <= a * b
  {
  }

  /** Scaling a non-negative real by a factor in [0, 1] does not increase it. */
  lemma MulAtMost(a: real, b: real)
    requires 0.0 <= a && 0.0 <= b <= 1.0
    ensures 0.0 <= a * b
    ensures a * b <= a
  {
    MulNonNeg(a, b);
    MulNonNeg(a, 1.0 - b);
  }

  /** Smoothstep maps [0, 1] into [0, 1], fixing both ends. */
  lemma SmoothstepBounds(p: real)
    requires 0.0 <= p <= 1.0
    ensures 0.0 <= Smoothstep(p) <= 1.0
    ensures p == 0.0 ==> Smoothstep(p) == 0.0
    ensures p == 1.0 ==> Smoothstep(p) == 1.0
  {
    // 1 - p^2 (3 - 2p) == (1 - p)^2 (1 + 2p)
    assert 1.0 - Smoothstep(p) == (1.0 - p) * (1.0 - p) * (1.0 + 2.0 * p);
    MulNonNeg(1.0 - p, 1.0 - p);
    MulNonNeg((1.0 - p) * (1.0 - p), 1.0 + 2.0 * p);
    MulNonNeg(p, p);
    MulNonNeg(p * p, 3.0 - 2.0 * p);
  }

  /** S(q) - S(p) factors through q - p. */
  lemma SmoothstepDifference(p: real, q: real)
    ensures Smoothstep(q) - Smoothstep(p)
      == (q - p) * (3.0 * (p + q) - 2.0 * (p * p + p * q + q * q))
  {
  }

  /** The second factor of S(q) - S(p) is non-negative on [0, 1]. */
  lemma SlopeFactor(p: real, q: real)
    requires 0.0 <= p <= q <= 1.0
    ensures 3.0 * (p + q) - 2.0 * (p * p + p * q + q * q) >= 0.0
  {
    assert 3.0 * (p + q) - 2.0 * (p * p + p * q + q * q)
        == p * (3.0 - 2.0 * p - q) + q * (3.0 - 2.0 * q - p);
    MulNonNeg(p, 3.0 - 2.0 * p - q);
    MulNonNeg(q, 3.0 - 2.0 * q - p);
  }

  /** Smoothstep is non-decreasing on [0, 1]: the eased volume never turns back. */
  lemma SmoothstepMonotone(p: real, q: real)
    requires 0.0 <= p <= q <= 1.0
    ensures Smoothstep(p) <= Smoothstep(q)
  {
    SmoothstepDifference(p, q);
    SlopeFactor(p, q);
    MulNonNeg(q - p, 3.0 * (p + q) - 2.0 * (p * p + p * q + q * q));
  }

  /** `Math.max(0, Math.min(1, x))`: the volume an audio element accepts. */
  function Clamp01(x: real): (v: real)
    ensures 0.0 <= v <= 1.0
    ensures 0.0 <= x <= 1.0 ==> v == x
  {
    if x > 1.0 then 1.0 else if x < 0.0 then 0.0 else x
  }

  /** `Math.min(1, (now - start) / ms)`: the progress of a fade, at most 1. */
  function Progress(now: real, start: real, ms: real): (p: real)
    requires ms > 0.0
    ensures p <= 1.0
    ensures p == 1.0 <==> now - start >= ms
    ensures start <= now ==> 0.0 <= p
  {
    var ratio := (now - start) / ms;
    assert ratio * ms == now - start;
    assert ratio < 1.0 <==> now - start < ms by {
      if ratio < 1.0 { MulNonNeg(1.0 - ratio, ms); } else { MulNonNeg(ratio - 1.0, ms); }
    }
    assert start <= now ==> 0.0 <= ratio;
    if ratio < 1.0 then ratio else 1.0
  }

  /** The volume a fade frame writes: from + (to - from) * eased, clamped to [0, 1]. */
  function FadeLevel(from: real, to: real, p: real): (v: real)
    ensures 0.0 <= v <= 1.0
  {
    Clamp01(from + (to - from) * Smoothstep(p))
  }

  /** A completed fade lands exactly on its (clamped) target. */
  lemma FadeLevelComplete(from: real, to: real)
    ensures FadeLevel(from, to, 1.0) == Clamp01(to)
  {
    SmoothstepBounds(1.0);
  }

  /** Between the ends, a fade between two valid volumes stays between them. */
  lemma FadeLevelBetween(from: real, to: real, p: real)
    requires 0.0 <= from <= 1.0 && 0.0 <= to <= 1.0 && 0.0 <= p <= 1.0
    ensures from <= to ==> from <= FadeLevel(from, to, p) <= to
    ensures to <= from ==> to <= FadeLevel(from, to, p) <= from
  {
    SmoothstepBounds(p);
    ClampedInterpolationBetween(from, to, Smoothstep(p));
  }

  /** Between two valid volumes, clamping an interpolation changes nothing. */
  lemma ClampedInterpolationBetween(from: real, to: real, e: real)
    requires 0.0 <= from <= 1.0 && 0.0 <= to <= 1.0 && 0.0 <= e <= 1.0
    ensures from <= to ==> from <= Clamp01(from + (to - from) * e) <= to
    ensures to <= from ==> to <= Clamp01(from + (to - from) * e) <= from
  {
    var x := from + (to - from) * e;
    if from <= to {
      var d := to - from;
      Towards(from, d, e);
      calc {
        x;
      ==
        from + d * e;
      <=
        from + d;
      ==
        to;
      }
    } else {
      var d, w := from - to, 1.0 - e;
      Towards(to, d, w);
      calc {
        x;
      ==
        to + d * w;
      <=
        to + d;
      ==
        from;
      }
    }
    assert Clamp01(x) == x;
  }

  /** Moving from `from` by a weighted non-negative step stays within the full step. */
  lemma Towards(from: real, d: real, e: real)
    requires 0.0 <= e <= 1.0 && 0.0 <= d
    ensures from <= from + d * e <= from + d
  {
    MulAtMost(d, e);
  }

  /** One eased fade: where it started, where it goes, when, and how long it takes. */
  datatype Fade = Fade(from: real, to: real, start: real, ms: real)

  /** The fade-in of `playMusic` and the fade-out and pause delay of `pauseMusic`. */
  const PlayVolume: real := 0.6
  const PlayFadeMs: real := 650.0
  const PauseFadeMs: real := 420.0
  const PauseDelayMs: real := 450.0
  /** The pause timer stops the element only once the fade has brought it this low. */
  const SilentVolume: real := 0.05

  /**
   * The hook's refs and state. `fade` is the fade whose animation frame is
   * requested (`fadeRafRef`); `pauseDue` the time the pending pause timer fires
   * (`pauseTimeoutRef`); `pendingPlays` the `el.play()` promises not yet settled.
   */
  class AudioEngine {
    var initialized: bool
    var hasContext: bool          // the audio context and the master gain exist
    var hasElement: bool          // the background-music element exists
    var loop: bool
    var volume: real
    var elementPaused: bool
    var fade: Option<Fade>
    var pauseDue: Option<real>
    var pendingPlays: nat
    var musicPlaying: bool
    const canVibrate: bool        // `navigator.vibrate` exists
    ghost var outputs: seq<Output>

    ghost predicate Valid()
      reads this
    {
      && 0.0 <= volume <= 1.0
      && (hasContext || hasElement ==> initialized)
      && (initialized ==> hasElement && loop)
      && (fade.Some? ==> hasElement && fade.value.ms > 0.0)
      && (!hasElement ==> pauseDue.None? && pendingPlays == 0 && !musicPlaying)
    }

    constructor (canVibrate: bool)
      ensures Valid() && !initialized && !hasContext && !hasElement
      ensures fade.None? && pauseDue.None? && pendingPlays == 0 && !musicPlaying
      ensures this.canVibrate == canVibrate && outputs == []
    {
      this.canVibrate := canVibrate;
      initialized, hasContext, hasElement := false, false, false;
      loop, volume, elementPaused := false, 0.0, true;
      fade, pauseDue, pendingPlays, musicPlaying := None, None, 0, false;
      outputs := [];
    }

    /**
     * `init`, once: the audio context when the platform offers one, and a looping
     * music element at volume 0 (it is faded in). Every later call changes nothing.
     */
    method Init(audioContextAvailable: bool)
      requires Valid()
      modifies this
      ensures Valid()
      ensures old(initialized) ==> unchanged(this)
      ensures !old(initialized) ==>
        && initialized && hasElement && loop && volume == 0.0 && elementPaused
        && hasContext == audioContextAvailable
        && fade == old(fade) && pauseDue == old(pauseDue) && outputs == old(outputs)
        && musicPlaying == old(musicPlaying) && pendingPlays == old(pendingPlays)
    {
      if initialized {
        return;
      }
      if audioContextAvailable {
        hasContext := true;
      }
      hasElement := true;
      loop, volume, elementPaused := true, 0.0, true;
      initialized := true;
    }

    /** `play(name)`: nothing before the audio context exists; then the table's outputs. */
    method Play(name: string)
      requires Valid()
      modifies this`outputs
      ensures Valid()
      ensures !hasContext ==> outputs == old(outputs)
      ensures hasContext ==> outputs == old(outputs) + CueOutputs(name, canVibrate)
    {
      if !hasContext {
        return;
      }
      match CueVibration(name)
      case None =>
      case Some(pattern) =>
        if pattern != [] && canVibrate {
          outputs := outputs + [Vibrate(pattern)];
        }
        outputs := outputs + [Sound(name)];
    }

    /**
     * `fadeVolume(to, ms)` at time `now`: cancels the fade in flight, if any, and
     * requests a frame for a new fade starting from the current volume.
     */
    method FadeVolume(to: real, ms: real, now: real)
      requires Valid() && ms > 0.0
      modifies this`fade
      ensures Valid()
      ensures hasElement ==> fade == Some(Fade(volume, to, now, ms))
      ensures !hasElement ==> fade == old(fade)
    {
      if !hasElement {
        return;
      }
      fade := Some(Fade(volume, to, now, ms));
    }

    /**
     * One animation frame of the fade at timestamp `now`: writes the eased, clamped
     * volume and requests another frame until the fade's progress reaches 1.
     */
    method FadeFrame(now: real)
      requires Valid() && fade.Some?
      modifies this`volume, this`fade
      ensures Valid()
      ensures var f := old(fade).value;
        && volume == FadeLevel(f.from, f.to, Progress(now, f.start, f.ms))
        && (fade.None? <==> now - f.start >= f.ms)
        && (fade.Some? ==> fade == old(fade))
        && (fade.None? ==> volume == Clamp01(f.to))
    {
      var f := fade.value;
      var p := Progress(now, f.start, f.ms);
      volume := FadeLevel(f.from, f.to, p);
      if p < 1.0 {
        // the next frame is requested for the same fade
      } else {
        FadeLevelComplete(f.from, f.to);
        fade := None;
      }
    }

    /**
     * `playMusic`: cancels a pending pause, then asks the element to play; the
     * answer comes later, through `ResolvePlay`.
     */
    method PlayMusic()
      requires Valid()
      modifies this`pauseDue, this`pendingPlays
      ensures Valid()
      ensures hasElement ==> pauseDue.None? && pendingPlays == old(pendingPlays) + 1
      ensures !hasElement ==> pauseDue == old(pauseDue) && pendingPlays == old(pendingPlays)
    {
      if !hasElement {
        return;
      }
      if pauseDue.Some? {
        pauseDue := None;
      }
      pendingPlays := pendingPlays + 1;
    }

    /**
     * The settling of one `el.play()` promise at time `now`: on success the element
     * plays, fades in to 0.6 over 650 ms and `musicPlaying` is set; a rejection
     * (autoplay blocked) changes nothing else.
     */
    method ResolvePlay(ok: bool, now: real)
      requires Valid() && pendingPlays > 0
      modifies this`pendingPlays, this`elementPaused, this`fade, this`musicPlaying
      ensures Valid() && pendingPlays == old(pendingPlays) - 1
      ensures ok ==> !elementPaused && musicPlaying && fade == Some(Fade(volume, PlayVolume, now, PlayFadeMs))
      ensures !ok ==> elementPaused == old(elementPaused) && musicPlaying == old(musicPlaying) && fade == old(fade)
    {
      pendingPlays := pendingPlays - 1;
      if ok {
        elementPaused := false;
        FadeVolume(PlayVolume, PlayFadeMs, now);
        musicPlaying := true;
      }
    }

    /**
     * `pauseMusic` at time `now`: replaces any pending pause, fades to 0 over 420 ms,
     * arms the 450 ms pause timer and clears `musicPlaying` at once.
     */
    method PauseMusic(now: real)
      requires Valid()
      modifies this`pauseDue, this`fade, this`musicPlaying
      ensures Valid()
      ensures hasElement ==>
        && fade == Some(Fade(volume, 0.0, now, PauseFadeMs))
        && pauseDue == Some(now + PauseDelayMs) && !musicPlaying
      ensures !hasElement ==> unchanged(this)
    {
      if !hasElement {
        return;
      }
      if pauseDue.Some? {
        pauseDue := None;
      }
      FadeVolume(0.0, PauseFadeMs, now);
      pauseDue := Some(now + PauseDelayMs);
      musicPlaying := false;
    }

    /** The pause timer: stops the element only if the fade brought it to 0.05 or less. */
    method PauseTimeout()
      requires Valid() && pauseDue.Some?
      modifies this`elementPaused, this`pauseDue
      ensures Valid() && pauseDue.None?
      ensures elementPaused == (old(elementPaused) || volume <= SilentVolume)
    {
      if volume <= SilentVolume {
        elementPaused := true;
      }
      pauseDue := None;
    }

    /** `toggleMusic` at time `now`: pauses exactly when music is playing, plays otherwise. */
    method ToggleMusic(now: real)
      requires Valid()
      modifies this`pauseDue, this`fade, this`musicPlaying, this`pendingPlays
      ensures Valid()
      ensures old(musicPlaying) ==>
        && fade == Some(Fade(volume, 0.0, now, PauseFadeMs))
        && pauseDue == Some(now + PauseDelayMs) && !musicPlaying
        && pendingPlays == old(pendingPlays)
      ensures !old(musicPlaying) && hasElement ==>
        && pauseDue.None? && pendingPlays == old(pendingPlays) + 1
        && fade == old(fade) && musicPlaying == old(musicPlaying)
    {
      if musicPlaying {
        PauseMusic(now);
      } else {
        PlayMusic();
      }
    }

    /** The hook's unmount cleanup: cancels the fade frame (a pending pause timer stays). */
    method Unmount()
      requires Valid()
      modifies this`fade
      ensures Valid() && fade.None?
    {
      fade := None;
    }
  }

  /**
   * Play, then pause, then play again before the pause timer fires: the pending
   * pause is cancelled, so the element is never stopped, and once the second
   * play succeeds the music is playing and fading back in.
   */
  method PlayPausePlay(engine: AudioEngine, t0: real, t1: real, t2: real)
    requires engine.Valid() && engine.hasElement && engine.pendingPlays == 0
    modifies engine
    ensures engine.Valid() && engine.musicPlaying && !engine.elementPaused
    ensures engine.pauseDue.None? && engine.pendingPlays == 0
    ensures engine.fade.Some? && engine.fade.value.to == PlayVolume
  {
    engine.PlayMusic();
    engine.ResolvePlay(true, t0);
    engine.PauseMusic(t1);
    engine.PlayMusic();
    assert engine.pauseDue.None?;
    engine.ResolvePlay(true, t2);
  }
}
