/** Properties of the session transitions: the invariant every transition
    keeps, the beat clock's bookkeeping, and worked scenarios. */
module GameProofs {
  import opened Types
  import opened Seqs
  import opened Game
  import opened Arith

  /** What holds of every ball on screen. */
  predicate BallInv(b: Ball, song: Song)
  {
    b.color in song.colors && 40.0 <= b.size < 80.0 && b.dy < 0.0
  }

  predicate AllBallsInv(balls: seq<Ball>, song: Song)
  {
    forall i :: 0 <= i < |balls| ==> BallInv(balls[i], song)
  }

  /** The session invariant. The next life is due at the next multiple of 500
      points, and the colour index is the number of completed eight-beat
      blocks, modulo the palette. */
  predicate Inv(s: Session)
  {
    && PlayableSong(s.song)
    && 0 <= s.lives <= MaxLives
    && (s.playing ==> s.lives >= 1)
    && s.score >= 0 && s.score % PointsPerHit == 0
    && s.nextLifeScore == PointsPerLife * (s.score / PointsPerLife + 1)
    && s.beatCount >= 0 && s.beatTimer >= 0.0
    && s.colorIndex == (s.beatCount / ColorSwitchBeats) % |s.song.colors|
    && AllBallsInv(s.balls, s.song)
  }

  lemma NewSessionInv(song: Song)
    requires PlayableSong(song)
    ensures Inv(NewSession(song))
    ensures ActiveColor(NewSession(song)) == Some(song.colors[0])
  {
  }

  /** The active colour is always a palette entry: the one of the current
      eight-beat block. */
  lemma ActiveColorInPalette(s: Session)
    requires Inv(s)
    ensures ActiveColor(s) == Some(s.song.colors[(s.beatCount / ColorSwitchBeats) % |s.song.colors|])
    ensures ActiveColor(s).value in s.song.colors
  {
  }

  // ---------------------------------------------------------------------
  // Arithmetic facts
  // ---------------------------------------------------------------------

  lemma BlockOfNextBeat(b: nat)
    ensures (b + 1) % ColorSwitchBeats == 0 ==> (b + 1) / ColorSwitchBeats == b / ColorSwitchBeats + 1
    ensures (b + 1) % ColorSwitchBeats != 0 ==> (b + 1) / ColorSwitchBeats == b / ColorSwitchBeats
  {
  }

  /** Ten points at a time from a multiple of ten cannot jump over a multiple of
      500: the threshold is met exactly, and then moves to the next multiple. */
  lemma NextLifeThreshold(score: int)
    requires score >= 0 && score % PointsPerHit == 0
    ensures var t := PointsPerLife * (score / PointsPerLife + 1);
      var s2 := score + PointsPerHit;
      && (s2 >= t ==> s2 == t && t + PointsPerLife == PointsPerLife * (s2 / PointsPerLife + 1))
      && (s2 < t ==> t == PointsPerLife * (s2 / PointsPerLife + 1))
  {
    var q := score / PointsPerLife;
    var r := score % PointsPerLife;
    assert score == q * PointsPerLife + r;
    // The part above the last multiple of 500 is itself a multiple of ten.
    ModUnique(score, PointsPerHit, q * 50 + r / PointsPerHit, r % PointsPerHit);
    assert r <= PointsPerLife - PointsPerHit;
    var s2 := score + PointsPerHit;
    if r + PointsPerHit == PointsPerLife {
      ModUnique(s2, PointsPerLife, q + 1, 0);
    } else {
      ModUnique(s2, PointsPerLife, q, r + PointsPerHit);
    }
  }

  // ---------------------------------------------------------------------
  // The beat clock
  // ---------------------------------------------------------------------

  /** The colour index keeps tracking the beat count across a tick. */
  lemma ColorIndexFollowsBeats(s: Session, time: real)
    requires PlayableSong(s.song) && s.beatCount >= 0
    requires s.colorIndex == (s.beatCount / ColorSwitchBeats) % |s.song.colors|
    ensures var r := Tick(s, time).next;
      r.colorIndex == (r.beatCount / ColorSwitchBeats) % |s.song.colors|
  {
    var n := |s.song.colors|;
    var r := Tick(s, time);
    BlockOfNextBeat(s.beatCount);
    if ColorFlash in r.effects {
      ModSucc(s.beatCount / ColorSwitchBeats, n);
    }
  }

  /** The beat timer stays non-negative when frame timestamps do not go back. */
  lemma TickKeepsTimer(s: Session, time: real)
    requires PlayableSong(s.song) && s.beatTimer >= 0.0 && time >= s.lastTime
    ensures Tick(s, time).next.beatTimer >= 0.0
  {
  }

  /** Ticks over a run of frame timestamps. */
  function TickRun(s: Session, times: seq<real>): Session
    requires PlayableSong(s.song)
    decreases |times|
  {
    if |times| == 0 then s
    else TickRun(Tick(s, times[0]).next, times[1..])
  }

  /** Over any run of frames no elapsed time is lost: completed beats plus the
      timer account for all of it, and no frame completes more than one beat. */
  lemma {:induction false} TickRunAccounts(s: Session, times: seq<real>)
    requires PlayableSong(s.song)
    decreases |times|
    ensures var r := TickRun(s, times);
      && r.song == s.song
      && s.beatCount <= r.beatCount <= s.beatCount + |times|
      && BeatClock(r) == BeatClock(s) + (r.lastTime - s.lastTime)
      && (|times| > 0 ==> r.lastTime == times[|times| - 1])
  {
    if |times| > 0 {
      var t := Tick(s, times[0]).next;
      TickRunAccounts(t, times[1..]);
      var r := TickRun(s, times);
      assert r == TickRun(t, times[1..]);
      assert t.song == s.song && t.lastTime == times[0];
      if |times| > 1 {
        assert times[1..][|times[1..]| - 1] == times[|times| - 1];
      }
    }
  }

  /** A frame after a stall still completes a beat while a whole beat is owed:
      the clock catches up one beat per frame. */
  lemma TickCatchesUp(s: Session, time: real)
    requires PlayableSong(s.song) && s.beatTimer >= BeatInterval(s.song.bpm) && time >= s.lastTime
    ensures Tick(s, time).next.beatCount == s.beatCount + 1
  {
  }

  // ---------------------------------------------------------------------
  // Preservation of the invariant
  // ---------------------------------------------------------------------

  lemma RemoveBallKeepsInv(balls: seq<Ball>, id: string, song: Song)
    requires AllBallsInv(balls, song)
    ensures AllBallsInv(RemoveBall(balls, id), song)
  {
    var r := RemoveBall(balls, id);
    forall i | 0 <= i < |r|
      ensures BallInv(r[i], song)
    {
      var j :| 0 <= j < |balls| && balls[j] == r[i];
    }
  }

  lemma TapPreservesInv(s: Session, ballId: string, color: GameColor)
    requires Inv(s)
    ensures Inv(Tap(s, ballId, color).next)
    ensures Tap(s, ballId, color).next.score >= s.score
  {
    if s.playing && ActiveColor(s) == Some(color) {
      NextLifeThreshold(s.score);
      RemoveBallKeepsInv(s.balls, ballId, s.song);
    }
  }

  lemma SpawnKeepsInv(s: Session, time: real, view: Viewport, d: SpawnDraw)
    requires PlayableSong(s.song) && ValidDraw(d) && AllBallsInv(s.balls, s.song)
    ensures AllBallsInv(Spawn(s, time, view, d).balls, s.song)
  {
  }

  lemma PhysicsKeepsInv(balls: seq<Ball>, width: real, song: Song)
    requires AllBallsInv(balls, song)
    ensures AllBallsInv(Cull(MoveAll(balls, width)), song)
  {
    var moved := MoveAll(balls, width);
    assert AllBallsInv(moved, song);
    var r := Cull(moved);
    forall i | 0 <= i < |r|
      ensures BallInv(r[i], song)
    {
      var j :| 0 <= j < |moved| && moved[j] == r[i];
    }
  }

  lemma FramePreservesInv(s: Session, time: real, view: Viewport, d: SpawnDraw)
    requires Inv(s) && ValidDraw(d) && time >= s.lastTime
    ensures Inv(Frame(s, time, view, d).next)
  {
    if s.playing {
      var t := Tick(s, time).next;
      ColorIndexFollowsBeats(s, time);
      TickKeepsTimer(s, time);
      SpawnKeepsInv(t, time, view, d);
      PhysicsKeepsInv(Spawn(t, time, view, d).balls, view.width, s.song);
    }
  }

  /** Starting keeps the invariant unless the session already lost its last
      life (the screen is left for the game-over screen at that point). */
  lemma StartPreservesInv(s: Session, now: real)
    requires Inv(s) && s.lives >= 1 && CanStart(s)
    ensures Inv(Start(s, now).next)
  {
  }

  lemma EndPreservesInv(s: Session)
    requires Inv(s)
    ensures Inv(End(s).next)
  {
  }

  /** Culling and removal by id keep the survivors' relative order: they
      commute with splitting the ball list anywhere. */
  lemma RetirementKeepsOrder(a: seq<Ball>, b: seq<Ball>, id: string)
    ensures Cull(a + b) == Cull(a) + Cull(b)
    ensures RemoveBall(a + b, id) == RemoveBall(a, id) + RemoveBall(b, id)
  {
    FilterAppend(a, b, OnScreen);
    FilterAppend(a, b, (x: Ball) => x.id != id);
  }

  /** Tapping an identity no ball has leaves the balls as they were. */
  lemma RemoveAbsentBall(balls: seq<Ball>, id: string)
    requires forall i :: 0 <= i < |balls| ==> balls[i].id != id
    ensures RemoveBall(balls, id) == balls
  {
    FilterKeepsAll(balls, (x: Ball) => x.id != id);
  }

  // ---------------------------------------------------------------------
  // Scenarios
  // ---------------------------------------------------------------------

  /** A red-and-blue song at 120 beats per minute: one beat every 500 ms. */
  function DemoSong(): Song
  {
    Song("demo", "Demo", "Demo", 120.0, 180, "", [Red, Blue], Medium, None, None)
  }

  /** Three taps on the wrong colour from the starting three lives end the
      session and report the unchanged score. */
  lemma ThreeWrongTapsEndTheSession()
    ensures var s0 := Start(NewSession(DemoSong()), 0.0).next;
      var s1 := Tap(s0, "a", Blue).next;
      var s2 := Tap(s1, "b", Blue).next;
      var r3 := Tap(s2, "c", Blue);
      && s1.lives == 2 && s2.lives == 1 && s2.playing
      && r3.next.lives == 0 && !r3.next.playing
      && r3.next.score == s0.score
      && GameOver(s0.score) in r3.effects
  {
  }

  /** A frame exactly one beat after an on-beat frame completes one beat and
      leaves the timer at zero; off the eight-beat boundary nothing else moves. */
  lemma OnBeatFrame(s: Session, time: real)
    requires PlayableSong(s.song) && s.beatTimer == 0.0
    requires time == s.lastTime + BeatInterval(s.song.bpm)
    requires (s.beatCount + 1) % ColorSwitchBeats != 0
    ensures Tick(s, time).next == s.(lastTime := time, beatCount := s.beatCount + 1)
  {
  }

  /** `n` frames, each exactly one beat after the previous one. */
  function BeatRun(s: Session, n: nat): (r: Session)
    requires PlayableSong(s.song)
    ensures r.song == s.song
    decreases n
  {
    if n == 0 then s
    else BeatRun(Tick(s, s.lastTime + BeatInterval(s.song.bpm)).next, n - 1)
  }

  /** The time `n` beats of length `beat` after `start`. */
  function BeatsLater(start: real, n: nat, beat: real): real
    decreases n
  {
    if n == 0 then start else BeatsLater(start + beat, n - 1, beat)
  }

  /** Frames one beat apart from an on-beat state complete one beat each;
      while the run stays inside eight-beat block `block` the colour stays put. */
  lemma {:induction false} OnBeatRun(s: Session, n: nat, block: int)
    requires PlayableSong(s.song) && s.beatTimer == 0.0
    requires ColorSwitchBeats * block <= s.beatCount && s.beatCount + n < ColorSwitchBeats * (block + 1)
    ensures BeatRun(s, n) == s.(lastTime := BeatsLater(s.lastTime, n, BeatInterval(s.song.bpm)),
                                beatCount := s.beatCount + n)
    decreases n
  {
    if n > 0 {
      var beat := BeatInterval(s.song.bpm);
      var t := s.(lastTime := s.lastTime + beat, beatCount := s.beatCount + 1);
      FirstBeatOfRun(s, block);
      OnBeatRun(t, n - 1, block);
    }
  }

  /** The first frame of an on-beat run inside a block completes one beat. */
  lemma FirstBeatOfRun(s: Session, block: int)
    requires PlayableSong(s.song) && s.beatTimer == 0.0
    requires ColorSwitchBeats * block <= s.beatCount && s.beatCount + 1 < ColorSwitchBeats * (block + 1)
    ensures Tick(s, s.lastTime + BeatInterval(s.song.bpm)).next
      == s.(lastTime := s.lastTime + BeatInterval(s.song.bpm), beatCount := s.beatCount + 1)
  {
    var k := s.beatCount + 1;
    ModUnique(k, ColorSwitchBeats, block, k - ColorSwitchBeats * block);
    OnBeatFrame(s, s.lastTime + BeatInterval(s.song.bpm));
  }

  /** At 120 beats per minute, frames every 500 ms complete one beat each, and
      the colour switches exactly once, on the eighth beat, at 4000 ms. */
  lemma EighthBeatSwitchesColor()
    ensures var s0 := Start(NewSession(DemoSong()), 0.0).next;
      var s7 := BeatRun(s0, 7);
      var s8 := Tick(s7, 4000.0).next;
      && s7.beatCount == 7 && s7.lastTime == 3500.0 && ActiveColor(s7) == Some(Red)
      && s8.beatCount == 8 && ActiveColor(s8) == Some(Blue)
  {
    var s0 := Start(NewSession(DemoSong()), 0.0).next;
    OnBeatRun(s0, 7, 0);
  }

  /** A single 4000 ms frame completes only one beat; the other seven stay
      owed in the timer. */
  lemma LongFrameCompletesOneBeat()
    ensures var s1 := Tick(Start(NewSession(DemoSong()), 0.0).next, 4000.0).next;
      s1.beatCount == 1 && s1.beatTimer == 3500.0 && ActiveColor(s1) == Some(Red)
  {
  }

  /** As written, the first frame after a start runs the callback that was
      created while the session was not playing: it changes nothing and asks
      for no further frame, so the loop stops there. A callback reading the
      session's own flag advances the clock and keeps the loop going. */
  lemma StartedLoopStalls(s: Session, now: real, time: real, view: Viewport, d: SpawnDraw)
    requires PlayableSong(s.song) && ValidDraw(d) && CanStart(s)
    ensures var started := Start(s, now).next;
      var stale := ScheduledFrame(s.playing, started, time, view, d);
      var live := Frame(started, time, view, d);
      && stale == Step(started, [])
      && RequestFrame !in stale.effects
      && RequestFrame in live.effects
      && live.next.lastTime == time
  {
  }
}
