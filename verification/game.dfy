/** One play session of the game screen: scoring and lives on taps, and the
    per-frame beat clock, colour rotation, spawning and ball physics. */
module Game {
  import opened Types
  import opened Seqs

  const MaxLives: int := 5
  const PointsPerLife: int := 500
  const PointsPerHit: int := 10
  const StartingLives: int := 3
  /** Beats between two changes of the active colour. */
  const ColorSwitchBeats: int := 8
  /** Balls whose top edge rises to this height (pixels) or above are retired. */
  const CullHeight: real := -100.0
  /** Spawn period as a fraction of the beat. */
  const SpawnBeatFraction: real := 0.8

  /** The optional background video: none, loading, or ready to play. */
  datatype Video = NoVideo | Loading | Ready

  /** Size of the play area in pixels. */
  datatype Viewport = Viewport(width: real, height: real)

  /** The random numbers one spawn draws, each meant to lie in [0, 1). */
  datatype SpawnDraw = SpawnDraw(id: string, size: real, x: real, color: real, speed: real, drift: real)

  predicate UnitInterval(r: real) { 0.0 <= r < 1.0 }

  predicate ValidDraw(d: SpawnDraw)
  {
    UnitInterval(d.size) && UnitInterval(d.x) && UnitInterval(d.color)
    && UnitInterval(d.speed) && UnitInterval(d.drift)
  }

  /** What a transition asks of the outside world. */
  datatype Effect =
    | ClickSound(hit: bool)
    | DamageFlash
    | ColorFlash
    | PlayVideo
    | StartMusic(bpm: real)
    | StopVideo
    | StopMusic
    | GameOver(finalScore: int)
    | RequestFrame

  /** The session record. Times are in milliseconds. */
  datatype Session = Session(
    song: Song,
    score: int,
    lives: int,
    nextLifeScore: int,
    beatTimer: real,
    beatCount: int,
    colorIndex: int,
    nextSpawnTime: real,
    lastTime: real,
    balls: seq<Ball>,
    playing: bool,
    video: Video)

  datatype Step = Step(next: Session, effects: seq<Effect>)

  /** The song names a video. An empty id counts as none, as JavaScript's
      truthiness test does. */
  predicate HasVideo(song: Song)
  {
    song.youtubeId.Some? && song.youtubeId.value != ""
  }

  /** A fresh session for `song`, waiting to be started: nothing scored, three
      lives, the first bonus life at 500 points, no balls, and the palette's
      first colour active. A song with a video waits for it to load. */
  function NewSession(song: Song): (r: Session)
    ensures r.song == song && !r.playing
    ensures r.score == 0 && r.lives == StartingLives && r.nextLifeScore == PointsPerLife && r.balls == []
    ensures r.beatCount == 0 && r.beatTimer == 0.0 && r.nextSpawnTime == 0.0 && r.lastTime == 0.0
    ensures |song.colors| > 0 ==> ActiveColor(r) == Some(song.colors[0])
    ensures r.video == Loading <==> HasVideo(song)
    ensures r.video == NoVideo <==> !HasVideo(song)
  {
    Session(song, 0, StartingLives, PointsPerLife, 0.0, 0, 0, 0.0, 0.0, [], false,
            if HasVideo(song) then Loading else NoVideo)
  }

  /** The colour the player must tap; `None` where the palette has no entry at
      the index, as an out-of-range array read would give `undefined`. */
  function ActiveColor(s: Session): (c: Option<GameColor>)
    ensures c.Some? <==> 0 <= s.colorIndex < |s.song.colors|
    ensures c.Some? ==> c.value == s.song.colors[s.colorIndex]
  {
    if 0 <= s.colorIndex < |s.song.colors| then Some(s.song.colors[s.colorIndex]) else None
  }

  function BeatInterval(bpm: real): (ms: real)
    requires bpm > 0.0
    ensures ms > 0.0
  {
    60000.0 / bpm
  }

  function SpawnInterval(bpm: real): (ms: real)
    requires bpm > 0.0
    ensures ms > 0.0
  {
    BeatInterval(bpm) * SpawnBeatFraction
  }

  // ---------------------------------------------------------------------
  // Start, end, video readiness
  // ---------------------------------------------------------------------

  /** The video player signalled it is ready. */
  function VideoReady(s: Session): (r: Session)
    ensures s.video == Loading ==> r == s.(video := Ready)
    ensures s.video != Loading ==> r == s
    ensures !s.playing ==> CanStart(r)
  {
    if s.video == Loading then s.(video := Ready) else s
  }

  /** The start control is offered while not playing and no video is loading. */
  predicate CanStart(s: Session)
  {
    !s.playing && s.video != Loading
  }

  /** Starts play at time `now`: the video if one is ready, the built-in music
      otherwise, then the first animation frame. The start control is only
      offered when `CanStart` holds. */
  function Start(s: Session, now: real): (r: Step)
    requires CanStart(s)
    ensures r.next == s.(playing := true, lastTime := now)
    ensures |r.effects| == 2 && r.effects[1] == RequestFrame
    ensures PlayVideo in r.effects <==> HasVideo(s.song) && s.video == Ready
    ensures StartMusic(s.song.bpm) in r.effects <==> !(HasVideo(s.song) && s.video == Ready)
  {
    var media := if HasVideo(s.song) && s.video == Ready then PlayVideo else StartMusic(s.song.bpm);
    Step(s.(playing := true, lastTime := now), [media, RequestFrame])
  }

  /** Ends play: stops the media and reports the final score. Also the
      reaction to the video's end. */
  function End(s: Session): (r: Step)
    ensures !r.next.playing && r.next.(playing := s.playing) == s
    ensures GameOver(s.score) in r.effects
    ensures StopVideo in r.effects <==> s.video == Ready
    ensures StopMusic in r.effects <==> s.video != Ready
  {
    Step(s.(playing := false), [if s.video == Ready then StopVideo else StopMusic, GameOver(s.score)])
  }

  // ---------------------------------------------------------------------
  // Taps
  // ---------------------------------------------------------------------

  /** The balls other than those with identity `id`, in their order. */
  function RemoveBall(balls: seq<Ball>, id: string): (r: seq<Ball>)
    ensures forall i :: 0 <= i < |r| ==> r[i] in balls && r[i].id != id
    ensures forall i :: 0 <= i < |balls| && balls[i].id != id ==> balls[i] in r
  {
    Filter(balls, (b: Ball) => b.id != id)
  }

  /** The player tapped ball `ballId`, whose colour is `color`. */
  function Tap(s: Session, ballId: string, color: GameColor): (r: Step)
    ensures !s.playing ==> r == Step(s, [])
    ensures s.playing && ActiveColor(s) == Some(color) ==>
      && r.next.score == s.score + PointsPerHit
      && r.next.balls == RemoveBall(s.balls, ballId)
      && r.next.playing
      && (r.next.score >= s.nextLifeScore ==> r.next.nextLifeScore == s.nextLifeScore + PointsPerLife)
      && (r.next.score < s.nextLifeScore ==> r.next.nextLifeScore == s.nextLifeScore)
      && (r.next.lives == s.lives + 1 <==> r.next.score >= s.nextLifeScore && s.lives < MaxLives)
      && (r.next.lives != s.lives + 1 ==> r.next.lives == s.lives)
      && r.effects == [ClickSound(true)]
    ensures s.playing && ActiveColor(s) != Some(color) ==>
      && r.next.score == s.score
      && r.next.balls == s.balls
      && r.next.lives == s.lives - 1
      && (r.next.playing <==> s.lives - 1 > 0)
      && (GameOver(s.score) in r.effects <==> s.lives - 1 <= 0)
      && ClickSound(false) in r.effects && DamageFlash in r.effects
      && r.next.nextLifeScore == s.nextLifeScore
    ensures s.playing && ActiveColor(s) != Some(color) && s.lives - 1 > 0 ==>
      r.effects == [ClickSound(false), DamageFlash]
    ensures s.playing && ActiveColor(s) != Some(color) && s.lives - 1 <= 0 ==>
      && (StopVideo in r.effects <==> s.video == Ready)
      && (StopMusic in r.effects <==> s.video != Ready)
    ensures r.next.(score := s.score, lives := s.lives, nextLifeScore := s.nextLifeScore,
                    balls := s.balls, playing := s.playing) == s
  {
    if !s.playing then Step(s, [])
    else if ActiveColor(s) == Some(color) then
      var score := s.score + PointsPerHit;
      var bonus := score >= s.nextLifeScore;
      Step(s.(score := score,
              lives := if bonus && s.lives < MaxLives then s.lives + 1 else s.lives,
              nextLifeScore := if bonus then s.nextLifeScore + PointsPerLife else s.nextLifeScore,
              balls := RemoveBall(s.balls, ballId)),
           [ClickSound(true)])
    else
      var hurt := s.(lives := s.lives - 1);
      var cues := [ClickSound(false), DamageFlash];
      if hurt.lives <= 0 then
        var ended := End(hurt);
        Step(ended.next, cues + ended.effects)
      else Step(hurt, cues)
  }

  // ---------------------------------------------------------------------
  // Frames
  // ---------------------------------------------------------------------

  /** Time accounted for by the beat clock: completed beats plus the timer. */
  function BeatClock(s: Session): real
    requires PlayableSong(s.song)
  {
    (s.beatCount as real) * BeatInterval(s.song.bpm) + s.beatTimer
  }

  /** The beat clock: accumulate the time since the last frame and advance at
      most one beat; every eighth beat moves the active colour on. */
  function Tick(s: Session, time: real): (r: Step)
    requires PlayableSong(s.song)
    ensures r.next.(lastTime := s.lastTime, beatTimer := s.beatTimer, beatCount := s.beatCount, colorIndex := s.colorIndex) == s
    ensures r.next.lastTime == time
    ensures r.next.beatCount == s.beatCount || r.next.beatCount == s.beatCount + 1
    ensures r.next.beatCount == s.beatCount + 1 <==> s.beatTimer + (time - s.lastTime) >= BeatInterval(s.song.bpm)
    ensures BeatClock(r.next) == BeatClock(s) + (time - s.lastTime)
    ensures ColorFlash in r.effects <==> r.next.beatCount != s.beatCount && r.next.beatCount % ColorSwitchBeats == 0
    ensures ColorFlash !in r.effects ==> r.next.colorIndex == s.colorIndex
    ensures ColorFlash in r.effects ==> r.next.colorIndex == JsRem(s.colorIndex + 1, |s.song.colors|)
  {
    var interval := BeatInterval(s.song.bpm);
    var timer := s.beatTimer + (time - s.lastTime);
    if timer >= interval then
      var count := s.beatCount + 1;
      // `count % 8 == 0` holds under JavaScript's `%` exactly when it holds under Dafny's.
      if count % ColorSwitchBeats == 0 then
        Step(s.(lastTime := time, beatTimer := timer - interval, beatCount := count,
                colorIndex := JsRem(s.colorIndex + 1, |s.song.colors|)),
             [ColorFlash])
      else
        Step(s.(lastTime := time, beatTimer := timer - interval, beatCount := count), [])
    else
      Step(s.(lastTime := time, beatTimer := timer), [])
  }

  /** Index into a palette of `n` colours picked by the random number `r`. */
  function PaletteIndex(r: real, n: int): (i: int)
    requires UnitInterval(r) && n > 0
    ensures 0 <= i < n
  {
    var f := r * (n as real);
    assert 0.0 <= f < n as real;
    f.Floor
  }

  /** Diameter of a new ball, in [40, 80). */
  function SpawnSize(r: real): (size: real)
    requires UnitInterval(r)
    ensures 40.0 <= size < 80.0
  {
    r * 40.0 + 40.0
  }

  /** Rising speed of a new ball in pixels per frame: proportional to the
      tempo, scaled by a factor in [3, 5). */
  function RiseSpeed(bpm: real, r: real): (v: real)
    requires bpm > 0.0 && UnitInterval(r)
    ensures v > 0.0
    ensures 3.0 * (bpm / 60.0) <= v < 5.0 * (bpm / 60.0)
  {
    var beatsPerSecond := bpm / 60.0;
    assert beatsPerSecond > 0.0;
    beatsPerSecond * (r * 2.0 + 3.0)
  }

  /** A new ball just below the bottom edge, drawn from `d`. */
  function NewBall(song: Song, view: Viewport, d: SpawnDraw): (b: Ball)
    requires PlayableSong(song) && ValidDraw(d)
    ensures b.id == d.id
    ensures b.color in song.colors
    ensures 40.0 <= b.size < 80.0
    ensures b.y == view.height + b.size
    ensures b.dy < 0.0
    ensures -1.0 <= b.dx < 1.0
    ensures b.size <= view.width ==> 0.0 <= b.x <= view.width - b.size
  {
    var size := SpawnSize(d.size);
    Ball(id := d.id,
         x := Portion(d.x, view.width - size),
         y := view.height + size,
         color := song.colors[PaletteIndex(d.color, |song.colors|)],
         dx := (d.drift - 0.5) * 2.0,
         dy := -RiseSpeed(song.bpm, d.speed),
         size := size)
  }

  /** The part `r` of a room of `room` pixels; inside the room when the room
      is not negative. */
  function Portion(r: real, room: real): (v: real)
    requires UnitInterval(r)
    ensures room >= 0.0 ==> 0.0 <= v <= room
  {
    ProductNonNegative(r, room);
    ProductNonNegative(1.0 - r, room);
    assert r * room == room - (1.0 - r) * room;
    r * room
  }

  lemma ProductNonNegative(a: real, b: real)
    requires a >= 0.0
    ensures b >= 0.0 ==> a * b >= 0.0
  {
  }

  /** Spawns one ball once `time` has passed the spawn gate, and moves the
      gate a fraction of a beat past `time`. */
  function Spawn(s: Session, time: real, view: Viewport, d: SpawnDraw): (r: Session)
    requires PlayableSong(s.song) && ValidDraw(d)
    ensures time > s.nextSpawnTime ==>
      && r.balls == s.balls + [NewBall(s.song, view, d)]
      && r.nextSpawnTime == time + SpawnInterval(s.song.bpm)
    ensures time <= s.nextSpawnTime ==> r == s
    ensures r.(balls := s.balls, nextSpawnTime := s.nextSpawnTime) == s
  {
    if time > s.nextSpawnTime then
      s.(balls := s.balls + [NewBall(s.song, view, d)], nextSpawnTime := time + SpawnInterval(s.song.bpm))
    else s
  }

  function Abs(x: real): real { if x < 0.0 then -x else x }

  /** Moves a ball by its velocity and bounces it off the side walls by
      negating its horizontal speed; the position is not clamped. */
  function MoveBall(b: Ball, width: real): (r: Ball)
    ensures r.x == b.x + b.dx && r.y == b.y + b.dy
    ensures r.(x := b.x, y := b.y, dx := b.dx) == b
    ensures Abs(r.dx) == Abs(b.dx)
    ensures (r.x <= 0.0 || r.x + r.size >= width) ==> r.dx == -b.dx
    ensures (0.0 < r.x && r.x + r.size < width) ==> r.dx == b.dx
  {
    var x := b.x + b.dx;
    b.(x := x, y := b.y + b.dy, dx := if x <= 0.0 || x + b.size >= width then -b.dx else b.dx)
  }

  function MoveAll(balls: seq<Ball>, width: real): (r: seq<Ball>)
    ensures |r| == |balls|
    ensures forall i :: 0 <= i < |r| ==> r[i] == MoveBall(balls[i], width)
  {
    seq(|balls|, i requires 0 <= i < |balls| => MoveBall(balls[i], width))
  }

  predicate OnScreen(b: Ball) { b.y > CullHeight }

  /** The balls that have not yet risen out of sight, in their order. */
  function Cull(balls: seq<Ball>): (r: seq<Ball>)
    ensures forall i :: 0 <= i < |r| ==> r[i] in balls && OnScreen(r[i])
    ensures forall i :: 0 <= i < |balls| && OnScreen(balls[i]) ==> balls[i] in r
  {
    Filter(balls, OnScreen)
  }

  /** One animation frame at timestamp `time` while playing: beat clock,
      spawn gate, physics, then a request for the next frame. */
  function Frame(s: Session, time: real, view: Viewport, d: SpawnDraw): (r: Step)
    requires PlayableSong(s.song) && ValidDraw(d)
    ensures !s.playing ==> r == Step(s, [])
    ensures s.playing ==> RequestFrame in r.effects && r.next.lastTime == time
    ensures r.next.score == s.score && r.next.lives == s.lives && r.next.nextLifeScore == s.nextLifeScore
    ensures r.next.playing == s.playing && r.next.song == s.song && r.next.video == s.video
    ensures s.playing ==> r.next.(balls := s.balls, nextSpawnTime := s.nextSpawnTime) == Tick(s, time).next
    ensures s.playing ==> r.next.balls == Cull(MoveAll(Spawn(s, time, view, d).balls, view.width))
    ensures s.playing ==> r.next.nextSpawnTime == Spawn(s, time, view, d).nextSpawnTime
  {
    if !s.playing then Step(s, [])
    else
      var ticked := Tick(s, time);
      var spawned := Spawn(ticked.next, time, view, d);
      Step(spawned.(balls := Cull(MoveAll(spawned.balls, view.width))), ticked.effects + [RequestFrame])
  }

  /** The frame callback as the screen actually schedules it: its guard reads
      the playing flag captured when the callback was created, not the
      session's current one. */
  function ScheduledFrame(captured: bool, s: Session, time: real, view: Viewport, d: SpawnDraw): (r: Step)
    requires PlayableSong(s.song) && ValidDraw(d)
    ensures !captured ==> r == Step(s, [])
    ensures captured ==> r == Frame(s, time, view, d)
  {
    if !captured then Step(s, []) else Frame(s, time, view, d)
  }
}
