/** Properties of the scheduler across several steps: when each scheduled
    step sounds, and which voices it plays. */
module AudioProofs {
  import opened Audio

  /** The tones of the k-th step scheduled from `c`: the piece `NotesFor`
      appends for that step. */
  function StepTones(c: Controller, k: nat, roll: nat -> real): (r: seq<Tone>)
    requires c.bpm != 0.0
    ensures NotesFor(c, k + 1, roll) == NotesFor(c, k, roll) + r
  {
    var d := Advance(c, k);
    ScheduleNote(d, d.step, d.nextNoteTime, roll(k))
  }

  /** Closed form of the k-th step: the pattern of bar position
      `(step + k) mod 16`, sounding k sixteenth notes after the first note,
      with the k-th random draw. */
  lemma StepTonesClosedForm(c: Controller, k: nat, roll: nat -> real)
    requires c.bpm != 0.0 && 0 <= c.step < StepsPerBar
    ensures StepTones(c, k, roll)
      == ScheduleNote(c, (c.step + k) % StepsPerBar, c.nextNoteTime + (k as real) * (15.0 / c.bpm), roll(k))
  {
    AdvanceTime(c, k);
    AdvanceStep(c, k);
    assert Advance(c, k).hasContext == c.hasContext;
  }

  /** The k-th step sounds exactly k sixteenth notes after the first. */
  lemma StepTiming(c: Controller, k: nat, roll: nat -> real)
    requires c.bpm > 0.0
    ensures forall t :: t in StepTones(c, k, roll) ==> t.time == c.nextNoteTime + (k as real) * (15.0 / c.bpm)
  {
    AdvanceTime(c, k);
  }

  lemma WithinBar(k: int)
    requires 0 <= k < StepsPerBar
    ensures (0 + k) % StepsPerBar == k
  {
  }

  /** Scheduling from the downbeat, the k-th step of the bar plays the
      pattern of beat k: kicks on the quarter notes, snares on the backbeats,
      hi-hats on the eighth notes and bass on the syncopated steps. */
  lemma BarPattern(c: Controller, k: nat, roll: nat -> real)
    requires c.hasContext && c.bpm > 0.0 && c.step == 0 && k < StepsPerBar
    ensures var r := StepTones(c, k, roll);
      && (HasKick(r) <==> k % 4 == 0)
      && (HasSnare(r) <==> k == 4 || k == 12)
      && (HasHiHat(r) <==> k % 2 == 0)
      && (HasBass(r) <==> IsBassStep(k))
  {
    AdvanceStep(c, k);
    WithinBar(k);
    var d := Advance(c, k);
    assert d.step == k && d.hasContext;
  }

  lemma ShiftByBar(a: int)
    ensures (a + StepsPerBar) % StepsPerBar == a % StepsPerBar
  {
  }

  /** The pattern repeats every bar: the step sixteen steps later plays the
      same beat of the bar, and so the same voices. */
  lemma PatternRepeats(c: Controller, k: nat, roll: nat -> real)
    requires c.bpm > 0.0 && 0 <= c.step < StepsPerBar
    ensures Advance(c, k + StepsPerBar).step == Advance(c, k).step
    ensures var r := StepTones(c, k, roll);
      var r2 := StepTones(c, k + StepsPerBar, roll);
      && (HasKick(r2) <==> HasKick(r)) && (HasSnare(r2) <==> HasSnare(r))
      && (HasHiHat(r2) <==> HasHiHat(r)) && (HasBass(r2) <==> HasBass(r))
  {
    AdvanceStep(c, k);
    AdvanceStep(c, k + StepsPerBar);
    ShiftByBar(c.step + k);
    assert Advance(c, k + StepsPerBar).hasContext == c.hasContext;
    assert Advance(c, k).hasContext == c.hasContext;
  }

  /** With a negative tempo every step moves the next note earlier. Once a
      note is due before the horizon, the catch-up loop's guard holds after any
      number of steps, so the loop never ends. */
  lemma {:induction false} NegativeTempoNeverCatchesUp(c: Controller, limit: real, n: nat)
    requires c.bpm < 0.0 && c.nextNoteTime < limit
    ensures Advance(c, n).nextNoteTime <= c.nextNoteTime
    ensures Advance(c, n).nextNoteTime < limit
  {
    if n > 0 {
      NegativeTempoNeverCatchesUp(c, limit, n - 1);
      assert 15.0 / c.bpm < 0.0;
    }
  }

  /** Stopping a controller that never started changes nothing. */
  lemma StopIdleController(hasContext: bool)
    ensures StopMusic(NewController(hasContext)) == NewController(hasContext)
  {
  }
}
