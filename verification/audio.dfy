/** The look-ahead drum and bass scheduler. Sounds are not synthesised: each
    scheduled voice becomes a `Tone` event stamped with its audio-clock time. */
module Audio {
  import Arith

  /** How far ahead of the audio clock notes are scheduled, in seconds. */
  const ScheduleAheadTime: real := 0.1
  /** Delay between starting the music and its first note, in seconds. */
  const StartDelay: real := 0.1
  const StepsPerBar: int := 16
  /** Minor pentatonic intervals above the root, in semitones. */
  const Scale: seq<int> := [0, 3, 5, 7, 10]
  const InitialBpm: real := 120.0
  const InitialRoot: real := 55.0

  datatype Voice = Kick | Snare | HiHat(volume: real) | Bass(scaleIndex: int, volume: real)

  /** One sound, to start at `time` on the audio clock. */
  datatype Tone = Tone(time: real, voice: Voice)

  /** The controller's scheduler state. `hasContext` records whether the
      browser provided an audio context; `timerPending` whether a scheduler
      poll is waiting on a timer. */
  datatype Controller = Controller(
    hasContext: bool,
    playing: bool,
    bpm: real,
    nextNoteTime: real,
    step: int,
    rootFreq: real,
    timerPending: bool)

  /** The controller as constructed, before any music: idle, at the start of
      a bar, with the default tempo and the root of that tempo's band. */
  function NewController(hasContext: bool): (r: Controller)
    ensures r.hasContext == hasContext && !r.playing && !r.timerPending
    ensures r.step == 0 && r.bpm > 0.0
    ensures r.rootFreq == RootFor(r.bpm)
  {
    Controller(hasContext, false, InitialBpm, 0.0, 0, InitialRoot, false)
  }

  /** Length of one sixteenth-note step: a quarter of a beat. */
  function StepDuration(bpm: real): real
    requires bpm != 0.0
  {
    0.25 * (60.0 / bpm)
  }

  /** Root frequency of the bass line, by tempo band. */
  function RootFor(bpm: real): (f: real)
    ensures f == 48.99 <==> bpm < 110.0
    ensures f == 61.74 <==> bpm > 140.0
    ensures f == 55.0 <==> 110.0 <= bpm <= 140.0
  {
    if bpm < 110.0 then 48.99
    else if bpm > 140.0 then 61.74
    else 55.0
  }

  /** Advances to the next sixteenth note. */
  function NextNote(c: Controller): (r: Controller)
    requires c.bpm != 0.0
    ensures r.nextNoteTime == c.nextNoteTime + 15.0 / c.bpm
    ensures c.bpm > 0.0 ==> r.nextNoteTime > c.nextNoteTime
    ensures 0 <= c.step < StepsPerBar ==> 0 <= r.step < StepsPerBar && r.step == (c.step + 1) % StepsPerBar
    ensures r.(nextNoteTime := c.nextNoteTime, step := c.step) == c
  {
    var step := c.step + 1;
    c.(nextNoteTime := c.nextNoteTime + StepDuration(c.bpm),
       step := if step == StepsPerBar then 0 else step)
  }

  /** The steps of the bar that carry a bass note: 0, 3, 5, 8, 11 and 14. */
  predicate IsBassStep(beat: int)
  {
    beat == 0 || beat == 3 || beat == 5 || beat == 8 || beat == 11 || beat == 14
  }

  /** Position in `Scale` of a bass note: the tonic on the first step,
      otherwise drawn from the random number `roll`. */
  function BassIndex(beat: int, roll: real): (i: int)
    ensures beat == 0 ==> i == 0
    ensures 0.0 <= roll < 1.0 ==> 0 <= i < |Scale|
  {
    if beat != 0 then (roll * (|Scale| as real)).Floor else 0
  }

  predicate HasKick(tones: seq<Tone>) { exists t :: t in tones && t.voice.Kick? }
  predicate HasSnare(tones: seq<Tone>) { exists t :: t in tones && t.voice.Snare? }
  predicate HasHiHat(tones: seq<Tone>) { exists t :: t in tones && t.voice.HiHat? }
  predicate HasBass(tones: seq<Tone>) { exists t :: t in tones && t.voice.Bass? }

  /** Hi-hats are louder on the backbeats 4 and 12. */
  predicate HiHatAccents(tones: seq<Tone>, beat: int)
  {
    forall t :: t in tones && t.voice.HiHat? ==>
      t.voice.volume == (if beat == 4 || beat == 12 then 0.15 else 0.08)
  }

  /** The downbeat's bass note is the accented tonic; the others are quieter
      and drawn from the scale. */
  predicate BassNotes(tones: seq<Tone>, beat: int, roll: real)
  {
    forall t :: t in tones && t.voice.Bass? ==>
      if beat == 0 then t.voice.scaleIndex == 0 && t.voice.volume == 0.3
      else t.voice.volume == 0.1 && (0.0 <= roll < 1.0 ==> 0 <= t.voice.scaleIndex < |Scale|)
  }

  /** The drums of step `beat`: kick on quarters, snare on the backbeats,
      hi-hat on eighths. */
  function Drums(beat: int, time: real): (r: seq<Tone>)
    ensures |r| <= 3
    ensures forall t :: t in r ==> t.time == time && !t.voice.Bass?
    ensures HasKick(r) <==> beat % 4 == 0
    ensures HasSnare(r) <==> beat == 4 || beat == 12
    ensures HasHiHat(r) <==> beat % 2 == 0
    ensures HiHatAccents(r, beat)
  {
    var accent := beat == 4 || beat == 12;
    (if beat % 4 == 0 then [Tone(time, Kick)] else [])
    + (if accent then [Tone(time, Snare)] else [])
    + (if beat % 2 == 0 then [Tone(time, HiHat(if accent then 0.15 else 0.08))] else [])
  }

  /** The voices that sound on step `beat`, all at `time`: the drum and bass
      pattern, with its accents and bass pitches. */
  function ScheduleNote(c: Controller, beat: int, time: real, roll: real): (r: seq<Tone>)
    ensures |r| <= 4
    ensures !c.hasContext ==> r == []
    ensures forall t :: t in r ==> t.time == time
    ensures HasKick(r) <==> c.hasContext && beat % 4 == 0
    ensures HasSnare(r) <==> c.hasContext && (beat == 4 || beat == 12)
    ensures HasHiHat(r) <==> c.hasContext && beat % 2 == 0
    ensures HiHatAccents(r, beat)
    ensures HasBass(r) <==> c.hasContext && IsBassStep(beat)
    ensures BassNotes(r, beat, roll)
  {
    if !c.hasContext then []
    else
      var drums := Drums(beat, time);
      var bass := if IsBassStep(beat) then [Tone(time, Bass(BassIndex(beat, roll), if beat == 0 then 0.3 else 0.1))] else [];
      assert forall t :: t in drums + bass <==> t in drums || t in bass;
      drums + bass
  }

  /** The controller after `n` steps. */
  function Advance(c: Controller, n: nat): (r: Controller)
    requires c.bpm != 0.0
    ensures r.(nextNoteTime := c.nextNoteTime, step := c.step) == c
  {
    if n == 0 then c else NextNote(Advance(c, n - 1))
  }

  /** Closed form of `n` steps: time moves by `n` step durations. */
  lemma {:induction false} AdvanceTime(c: Controller, n: nat)
    requires c.bpm != 0.0
    ensures Advance(c, n).nextNoteTime == c.nextNoteTime + (n as real) * (15.0 / c.bpm)
  {
    if n > 0 {
      AdvanceTime(c, n - 1);
    }
  }

  /** Closed form of `n` steps: the step index moves by `n` modulo the bar. */
  lemma {:induction false} AdvanceStep(c: Controller, n: nat)
    requires c.bpm != 0.0 && 0 <= c.step < StepsPerBar
    ensures Advance(c, n).step == (c.step + n) % StepsPerBar
  {
    if n > 0 {
      AdvanceStep(c, n - 1);
      Arith.ModSucc(c.step + n - 1, StepsPerBar);
    }
  }

  /** The tones of the first `n` steps from `c`, the k-th step drawing the
      random number `roll(k)`. */
  function NotesFor(c: Controller, n: nat, roll: nat -> real): (r: seq<Tone>)
    requires c.bpm != 0.0
    ensures |r| <= 4 * n
    ensures !c.hasContext ==> r == []
  {
    if n == 0 then []
    else
      var d := Advance(c, n - 1);
      NotesFor(c, n - 1, roll) + ScheduleNote(d, d.step, d.nextNoteTime, roll(n - 1))
  }

  /** The catch-up loop of a scheduler poll: schedules step after step while
      the next note is due before `limit`. `count` is the number of steps. */
  method CatchUp(c: Controller, limit: real, roll: nat -> real) returns (r: Controller, tones: seq<Tone>, count: nat)
    requires c.bpm > 0.0
    ensures r == Advance(c, count) && tones == NotesFor(c, count, roll)
    ensures r.nextNoteTime >= limit
    ensures forall j :: 0 <= j < count ==> Advance(c, j).nextNoteTime < limit
    ensures forall t :: t in tones ==> t.time < limit
  {
    var dt := 15.0 / c.bpm;
    r, tones, count := c, [], 0;
    while r.nextNoteTime < limit
      invariant r == Advance(c, count)
      invariant tones == NotesFor(c, count, roll)
      invariant forall j :: 0 <= j < count ==> Advance(c, j).nextNoteTime < limit
      invariant forall t :: t in tones ==> t.time < limit
      decreases StepsLeft(limit, r.nextNoteTime, dt)
    {
      var notes := ScheduleNote(r, r.step, r.nextNoteTime, roll(count));
      StepShrinksGap(limit, r.nextNoteTime, dt);
      assert NotesFor(c, count + 1, roll) == tones + notes;
      forall j | 0 <= j < count + 1
        ensures Advance(c, j).nextNoteTime < limit
      {
        if j == count {
          assert Advance(c, j) == r;
        }
      }
      tones := tones + notes;
      r := NextNote(r);
      count := count + 1;
    }
  }

  /** One scheduler poll at audio-clock time `now`: schedules every step due
      before `now + ScheduleAheadTime`, then re-arms the poll timer only while
      playing. `count` is the number of steps scheduled. */
  method Scheduler(c: Controller, now: real, roll: nat -> real) returns (r: Controller, tones: seq<Tone>, count: nat)
    requires c.hasContext ==> c.bpm > 0.0
    ensures !c.hasContext ==> r == c && tones == [] && count == 0
    ensures c.hasContext ==> r == Advance(c, count).(timerPending := c.playing)
    ensures c.hasContext ==> tones == NotesFor(c, count, roll)
    ensures c.hasContext ==> r.nextNoteTime >= now + ScheduleAheadTime
    ensures c.hasContext ==> forall j :: 0 <= j < count ==> Advance(c, j).nextNoteTime < now + ScheduleAheadTime
    ensures c.nextNoteTime >= now + ScheduleAheadTime ==> count == 0 && tones == []
    ensures forall t :: t in tones ==> t.time < now + ScheduleAheadTime
  {
    if !c.hasContext {
      return c, [], 0;
    }
    var caughtUp;
    caughtUp, tones, count := CatchUp(c, now + ScheduleAheadTime, roll);
    if count > 0 {
      assert Advance(c, 0) == c;
    }
    r := caughtUp.(timerPending := c.playing);
  }

  /** Whole steps of length `dt` between `t` and `limit`. */
  function StepsLeft(limit: real, t: real, dt: real): int
    requires dt > 0.0
  {
    ((limit - t) / dt).Floor
  }

  /** Moving one step closer shrinks the remaining number of steps by one. */
  lemma StepShrinksGap(limit: real, t: real, dt: real)
    requires dt > 0.0 && t < limit
    ensures StepsLeft(limit, t + dt, dt) == StepsLeft(limit, t, dt) - 1
    ensures StepsLeft(limit, t, dt) >= 0
  {
    var g := (limit - t) / dt;
    var h := (limit - (t + dt)) / dt;
    assert g * dt == limit - t;
    assert h * dt == limit - (t + dt);
    var e := h - (g - 1.0);
    assert e * dt == 0.0;
    if e > 0.0 {
      assert false;
    } else if e < 0.0 {
      assert false;
    }
    assert h == g - 1.0;
    assert g > 0.0;
  }

  /** Starts the music at tempo `bpm` at audio-clock time `now`. */
  method StartMusic(c: Controller, bpm: real, now: real, roll: nat -> real) returns (r: Controller, tones: seq<Tone>)
    requires c.hasContext ==> bpm > 0.0
    ensures !c.hasContext ==> r == c && tones == []
    ensures c.hasContext ==> r.playing && r.timerPending && r.bpm == bpm && r.rootFreq == RootFor(bpm)
    ensures c.hasContext ==> r.step == 0 && r.nextNoteTime == now + StartDelay
    ensures tones == []
  {
    if !c.hasContext {
      return c, [];
    }
    var started := c.(bpm := bpm, playing := true, step := 0, nextNoteTime := now + StartDelay, rootFreq := RootFor(bpm));
    var count;
    r, tones, count := Scheduler(started, now, roll);
  }

  /** Stops the music: clears the playing flag and cancels the pending poll. */
  function StopMusic(c: Controller): (r: Controller)
    ensures !r.playing && !r.timerPending
    ensures r.(playing := c.playing, timerPending := c.timerPending) == c
  {
    c.(playing := false, timerPending := false)
  }
}
