# ChromaRhythm core, modelled in Dafny

ChromaRhythm is a browser rhythm game. Coloured balls rise up the screen in
time with a beat clock. The player must tap only balls of the current *active
colour*, and the active colour moves to the next palette entry every eight beats.
This project models three parts of the game.

**The game screen's session logic** (`Game`, with proofs in `GameProofs`):
- Starting and ending a session.
- Tap handling: points, lives, and an extra life every 500 points, up to five lives.
- The per-frame beat clock and colour rotation.
- The spawn gate and the drawing of a new ball.
- Ball physics, and retiring balls that have risen off screen.

**The audio controller's look-ahead scheduler** (`Audio`, with proofs in `AudioProofs`):
- Starting and stopping the music.
- The scheduler poll, which catches up on every sixteenth note due before the look-ahead horizon.
- Moving on to the next note.
- The drum and bass pattern table.

**Song mapping** (`SongMapping`): how a generated reply is cleaned into a
`Song`, and the fallback song.

Shared records (`Song`, `Ball`, the colour enumeration) are in `Types`. A
generic order-preserving filter is in `Seqs`, and small facts about `%` and `/` are in `Arith`.
`Consistency` relates the components to each other.

**How the model represents the program**

Every operation is a pure function from the old state to the new state, plus
the list of effects it asks of the outside world: sounds, flashes, video
control, the game-over report, a request for the next animation frame. The
audio scheduler returns the tones it schedules, each stamped with its
audio-clock time.

Times are `real` numbers: milliseconds in the game and seconds on the audio
clock. Random numbers are parameters:
- `SpawnDraw` holds the five draws one spawn makes, plus the new ball's id.
- `roll: nat -> real` gives the draw for the k-th scheduled step.

Two JavaScript behaviours are modelled explicitly:
- The `%` in the colour rotation uses JavaScript's sign rules (`JsRem`).
- `data.x || default` becomes an `Option` plus an explicit test for the empty string or zero.

## Model

| member | source | states |
|---|---|---|
| Types.JsRem | chromarhythm/components/GameScreen.tsx:202 | JavaScript's `%` for a positive length: agrees with the mathematical remainder on non-negative operands; on negative ones it lies in (-d, 0] and differs from the dividend by a multiple of d, which together single out the truncating remainder |
| SongMapping.UpperChar | services/geminiService.ts:108 | lower-case ASCII letters move up by 32 code points; every other character is unchanged |
| SongMapping.ToUpper | services/geminiService.ts:108 | upper-casing keeps the length and maps every character independently |
| SongMapping.ParseColor | services/geminiService.ts:108-109 | an accepted string upper-cases to the name of the colour it yields; a rejected one upper-cases to no colour name |
| SongMapping.ParseColorNames | services/geminiService.ts:108-110 | a string is accepted as a colour exactly when its upper-cased form is that colour's name, and each colour's own name is accepted as that colour |
| SongMapping.UpperKeepsUpper | services/geminiService.ts:108 | upper-casing a string without lower-case letters leaves it unchanged |
| SongMapping.ParseColorExamples | services/geminiService.ts:108-110 | "purple" and "Blue" are accepted case-insensitively; "pink" is dropped |
| SongMapping.ValidColors | services/geminiService.ts:105-113 | every kept colour comes from some accepted input string, and every accepted input string contributes its colour |
| SongMapping.ValidColorsAppend | services/geminiService.ts:107-112 | colours are kept in input order: the filter distributes over concatenation |
| SongMapping.PadPalette | services/geminiService.ts:115-117 | the palette has at least two colours; the accepted colours come first; a palette of two or more is kept as is; otherwise RED and BLUE are appended |
| SongMapping.OrDefault | services/geminiService.ts:126-127 | a present non-empty string is kept; an absent or empty one becomes the default |
| SongMapping.BpmOrDefault | services/geminiService.ts:120 | a present non-zero tempo is kept; an absent or zero tempo becomes 120 |
| SongMapping.DifficultyFor | services/geminiService.ts:119-122 | EASY exactly below 110 bpm, HARD exactly above 140, MEDIUM exactly on [110, 140] |
| SongMapping.MapResponseToSong | services/geminiService.ts:104-136 | every field of the mapped song: the defaults for title, artist and tempo; a difficulty that matches the tempo; duration 180; marked generated; a palette of two or more colours built from the reply |
| SongMapping.MappedColorsFromInput | services/geminiService.ts:105-117 | the mapped palette starts with the accepted colours in order, and every entry is accepted from the reply or is a RED/BLUE padding colour |
| SongMapping.FallbackSong | services/geminiService.ts:138-150 | the fallback song is playable: positive tempo, non-empty palette |
| SongMapping.FallbackLikeMapped | services/geminiService.ts:138-150 | the fallback song plays exactly red then yellow at tempo 125 for 120 seconds, labelled MEDIUM; the label matches its tempo band and it has at least two colours, as a mapped song does |
| Audio.NewController | chromarhythm/services/audioService.ts:5-24 | a new controller is idle with no pending poll, at step 0, with a positive default tempo and the bass root of that tempo's band; it has an audio context exactly when the browser provides one |
| Audio.RootFor | chromarhythm/services/audioService.ts:88-90 | the bass root is 48.99 Hz exactly below 110 bpm, 61.74 Hz exactly above 140, and 55 Hz otherwise |
| Audio.NextNote | chromarhythm/services/audioService.ts:111-118 | the next note time moves forward by a sixteenth note (15/bpm seconds); the step index moves to (step+1) mod 16 and stays within the bar; nothing else changes |
| Audio.BassIndex | chromarhythm/services/audioService.ts:150-154 | the downbeat plays the tonic; otherwise a draw in [0, 1) picks an index within the five-note scale |
| Audio.Drums | chromarhythm/services/audioService.ts:123-140 | kick exactly on multiples of 4, snare exactly on steps 4 and 12, hi-hat exactly on even steps and louder on 4 and 12; no bass; all at the given time |
| Audio.ScheduleNote | chromarhythm/services/audioService.ts:120-159 | the pattern table: kick exactly on multiples of 4; snare exactly on steps 4 and 12; hi-hat exactly on even steps, louder on 4 and 12; bass exactly on steps 0, 3, 5, 8, 11 and 14, accented with the tonic on 0; nothing without an audio context; all voices at the given time |
| Audio.Advance | chromarhythm/services/audioService.ts:111-118 | stepping any number of times changes only the note time and the step index |
| Audio.AdvanceTime | chromarhythm/services/audioService.ts:111-113 | after n steps the note time has advanced by exactly n sixteenth notes |
| Audio.AdvanceStep | chromarhythm/services/audioService.ts:114-117 | after n steps the step index is the start index plus n, modulo 16 |
| Audio.NotesFor | chromarhythm/services/audioService.ts:102-105 | the tone stream of the first n steps holds at most 4n tones in all, and nothing at all without an audio context (the per-step bound of four is Audio.ScheduleNote's) |
| Audio.CatchUp | chromarhythm/services/audioService.ts:102-105 | the loop schedules exactly the steps due before the horizon, in order: every step it scheduled was due, the next one is not, and every tone lies before the horizon |
| Audio.Scheduler | chromarhythm/services/audioService.ts:100-109 | without an audio context nothing happens; otherwise it catches up to the look-ahead horizon and re-arms the poll exactly while playing; nothing is scheduled when the next note is not yet due |
| Audio.StartMusic | chromarhythm/services/audioService.ts:80-93 | starting sets the tempo, the tempo's bass root, step 0, the first note 0.1 s ahead, and a pending poll; the immediate poll schedules no tone |
| Audio.StopMusic | chromarhythm/services/audioService.ts:95-98 | stopping clears the playing flag and the pending poll and changes nothing else |
| AudioProofs.StepTonesClosedForm | chromarhythm/services/audioService.ts:102-117 | the k-th step the catch-up loop schedules plays the pattern of bar position (step + k) mod 16, at k sixteenth notes after the first note, with the k-th random draw |
| AudioProofs.StepTiming | chromarhythm/services/audioService.ts:111-113 | every tone of the k-th step sounds k sixteenth notes after the first note |
| AudioProofs.BarPattern | chromarhythm/services/audioService.ts:111-158 | counting from the downbeat, the k-th step of the bar plays a kick exactly when k is a multiple of 4, a snare exactly on 4 and 12, a hi-hat exactly on even k, and bass exactly on 0, 3, 5, 8, 11 and 14 |
| AudioProofs.PatternRepeats | chromarhythm/services/audioService.ts:114-117 | the step sixteen steps later has the same index in the bar and sounds the same voices: the pattern repeats every bar |
| AudioProofs.NegativeTempoNeverCatchesUp | chromarhythm/services/audioService.ts:102-113 | with a negative tempo each step moves the next note earlier, so once a note is due before the horizon the catch-up guard still holds after any number of steps: the loop never ends |
| AudioProofs.StopIdleController | chromarhythm/services/audioService.ts:95-98 | stopping a controller that never started leaves it exactly as constructed |
| Game.NewSession | chromarhythm/components/GameScreen.tsx:24-45 | a fresh session is not playing, has no score, three lives, the first bonus life at 500 points, no balls, zeroed clocks, and the first palette colour active; its video is loading exactly when the song has a non-empty video id |
| Game.ActiveColor | chromarhythm/components/GameScreen.tsx:201-204 | the active colour is the palette entry at the colour index, and it is absent exactly when the index is outside the palette |
| Game.BeatInterval | chromarhythm/components/GameScreen.tsx:48 | one beat lasts a positive number of milliseconds for a positive tempo |
| Game.SpawnInterval | chromarhythm/components/GameScreen.tsx:213 | the spawn period is positive for a positive tempo |
| Game.VideoReady | chromarhythm/components/GameScreen.tsx:75-78 | the ready signal moves a loading video to ready and leaves the session otherwise unchanged; afterwards a session that is not playing offers the start control |
| Game.Start | chromarhythm/components/GameScreen.tsx:108-122 | callable only where the start control is shown (not playing, no video loading, lines 268-283); starting sets playing and the frame clock, then asks for either the video (exactly when the song has a non-empty video id and it is ready) or the built-in music at the song's tempo, and then for the first frame |
| Game.End | chromarhythm/components/GameScreen.tsx:178-187 | ending clears the playing flag and nothing else; it stops the video exactly when one is ready and the music otherwise, and reports the score |
| Game.RemoveBall | chromarhythm/components/GameScreen.tsx:162 | the balls left are exactly those with a different identity |
| Game.Tap | chromarhythm/components/GameScreen.tsx:146-176 | ignored while not playing; a hit adds 10 points, removes the ball and grants a life exactly when the threshold is reached below five lives, moving the threshold by 500; a miss costs one life, keeps score, balls and threshold, and ends the session exactly when no lives remain, stopping the video if ready and the music otherwise and reporting the score; the clocks, spawn gate and video are never touched |
| Game.Tick | chromarhythm/components/GameScreen.tsx:192-208 | at most one beat per frame, completed exactly when the accumulated timer reaches a beat; beats plus timer account for all elapsed time; the colour index moves on, with a flash, exactly on multiples of eight beats |
| Game.PaletteIndex | chromarhythm/components/GameScreen.tsx:131 | a draw in [0, 1) picks an index inside the palette |
| Game.SpawnSize | chromarhythm/components/GameScreen.tsx:127 | a new ball's diameter lies in [40, 80) |
| Game.RiseSpeed | chromarhythm/components/GameScreen.tsx:132 | the rising speed lies in [3, 5) times the beats per second |
| Game.Portion | chromarhythm/components/GameScreen.tsx:128 | the horizontal position lies inside the room left by the ball's size whenever there is room |
| Game.NewBall | chromarhythm/components/GameScreen.tsx:125-144 | a new ball has a palette colour and the drawn id, a size in [40, 80), starts just below the bottom edge and moves upward with a horizontal drift in [-1, 1); it starts inside the width when it fits |
| Game.Spawn | chromarhythm/components/GameScreen.tsx:210-215 | once the time has passed the gate, exactly one ball is appended and the gate moves 0.8 beats past the frame time; before that nothing changes |
| Game.MoveBall | chromarhythm/components/GameScreen.tsx:218-225 | a ball moves by its velocity; the horizontal speed keeps its magnitude and reverses exactly when the moved ball touches a side wall |
| Game.MoveAll | chromarhythm/components/GameScreen.tsx:218-225 | every ball is moved and the list keeps its length and order |
| Game.Cull | chromarhythm/components/GameScreen.tsx:227-228 | exactly the balls below the -100 px line survive |
| Game.Frame | chromarhythm/components/GameScreen.tsx:189-232 | a frame while playing ticks the beat clock, moves the spawn gate as the spawn step does, spawns, moves and culls, and requests the next frame; score, lives and threshold are untouched; while not playing it does nothing |
| Game.ScheduledFrame | chromarhythm/components/GameScreen.tsx:189-190 | the frame callback as scheduled: it does nothing when the flag it captured was false, whatever the session's current state |
| GameProofs.NewSessionInv | chromarhythm/components/GameScreen.tsx:24-45 | a fresh session on a playable song meets the session invariant and shows the palette's first colour |
| GameProofs.ActiveColorInPalette | chromarhythm/components/GameScreen.tsx:201-203 | under the invariant the active colour is the palette entry of the current eight-beat block |
| GameProofs.NextLifeThreshold | chromarhythm/components/GameScreen.tsx:151-160 | scoring in steps of 10 meets each 500-point threshold exactly, and the threshold then moves to the next multiple of 500 |
| GameProofs.ColorIndexFollowsBeats | chromarhythm/components/GameScreen.tsx:199-203 | a tick keeps the colour index equal to the number of completed eight-beat blocks, modulo the palette size |
| GameProofs.TickKeepsTimer | chromarhythm/components/GameScreen.tsx:196-198 | the beat timer stays non-negative when frame timestamps do not go back |
| GameProofs.TickRunAccounts | chromarhythm/components/GameScreen.tsx:192-199 | over any run of frames no elapsed time is lost (completed beats plus the timer grow by exactly the elapsed time), and a run of n frames completes at most n beats in all (the one-beat bound per frame is Game.Tick's) |
| GameProofs.TickCatchesUp | chromarhythm/components/GameScreen.tsx:197-199 | after a stall, each frame completes one more beat while a whole beat is still owed |
| GameProofs.RemoveBallKeepsInv | chromarhythm/components/GameScreen.tsx:162 | removing balls keeps every remaining ball's colour, size and direction invariant |
| GameProofs.TapPreservesInv | chromarhythm/components/GameScreen.tsx:146-176 | a tap keeps lives in [0, 5], the score a non-negative multiple of 10, the threshold at the next multiple of 500, and never lowers the score |
| GameProofs.SpawnKeepsInv | chromarhythm/components/GameScreen.tsx:125-144 | spawned balls meet the ball invariant |
| GameProofs.PhysicsKeepsInv | chromarhythm/components/GameScreen.tsx:218-228 | moving and culling keep the ball invariant |
| GameProofs.FramePreservesInv | chromarhythm/components/GameScreen.tsx:189-232 | a frame with a non-decreasing timestamp keeps the whole session invariant |
| GameProofs.StartPreservesInv | chromarhythm/components/GameScreen.tsx:108-122 | starting a session that has lives left keeps the invariant |
| GameProofs.EndPreservesInv | chromarhythm/components/GameScreen.tsx:178-187 | ending keeps the invariant |
| GameProofs.RetirementKeepsOrder | chromarhythm/components/GameScreen.tsx:227 | culling and removal by id keep the survivors' relative order |
| GameProofs.RemoveAbsentBall | chromarhythm/components/GameScreen.tsx:162 | tapping an identity that no ball has leaves the balls unchanged |
| GameProofs.ThreeWrongTapsEndTheSession | chromarhythm/components/GameScreen.tsx:164-174 | from three lives, three wrong taps end the session with the score unchanged and a game-over report |
| GameProofs.OnBeatFrame | chromarhythm/components/GameScreen.tsx:196-208 | a frame exactly one beat after an on-beat frame completes one beat, and away from the eight-beat boundary nothing else changes |
| GameProofs.OnBeatRun | chromarhythm/components/GameScreen.tsx:196-208 | frames one beat apart inside an eight-beat block each complete exactly one beat and keep the colour |
| GameProofs.EighthBeatSwitchesColor | chromarhythm/components/GameScreen.tsx:197-207 | at 120 bpm with frames every 500 ms, the colour holds for seven beats and switches on the eighth, at 4000 ms |
| GameProofs.LongFrameCompletesOneBeat | chromarhythm/components/GameScreen.tsx:197-199 | a single frame covering several beats completes only one |
| GameProofs.StartedLoopStalls | chromarhythm/components/GameScreen.tsx:121 | the frame callback scheduled by start does nothing and requests no further frame, although the session is playing |
| Consistency.MappedSongPlayable | services/geminiService.ts:115-128 | a mapped song is playable exactly when the reply did not carry a negative tempo |
| Consistency.MappedSongSessionInv | services/geminiService.ts:104-150 | sessions on mapped songs with a non-negative tempo, and on the fallback song, start in a state that meets the game's invariant |
| Consistency.BassRootFollowsDifficulty | chromarhythm/services/audioService.ts:88-90 | the bass root bands coincide with the difficulty bands of the song mapping |
| Consistency.NegativeTempoReachesMusic | services/geminiService.ts:120 | a reply with tempo -120 and no video yields a song with tempo -120 whose session can be started at once, and starting it asks the music to play at -120 |

## Left out

- Media and rendering are left out: the YouTube player, its loading script, the Web Audio node graphs and envelopes, and the React render.
  - Each becomes an effect or a tone event.
  - The bass frequency (root × 2^(interval/12)) is left out because it needs a real power.
  - `Scale` records the intervals only.
- `playClickSound`, `init` and the noise buffer are left out: they produce sound and change no scheduler state.
- Timers are left out: `requestAnimationFrame`, `setTimeout` and the 25 ms poll period.
  - The model treats a frame or a poll as one call.
  - Cancelling the frame request in `endGame` is covered by the session's playing flag.
  - The 150 ms and 200 ms flash reset timers are not modelled.
- The audio clock is assumed not to advance within one call, so `startMusic` and the scheduler it calls read the same time.
- Audio.StartMusic does not model a second start while music is already playing. The source then arms a second polling timer, and stopping cancels only the newer one.
- `Math.random` is left out: its values are parameters, assumed to lie in [0, 1). The id string built from it is a parameter.
- The call to the generative model, `JSON.parse`, and the error path that falls back to `createFallbackSong` are left out; the mapping starts from an already-parsed reply.
- Reply fields of the wrong JSON type are left out: the `Response` record is typed.
- SongMapping.ToUpper: upper-cases ASCII only. JavaScript's full Unicode upper-casing is left out; it cannot turn a non-ASCII string into a colour name except through rare special mappings.
- The exit button, the menu, the song cards, the preset list and the app shell are left out: they are outside this core.
- Non-finite numbers are left out. A tempo of NaN or ±Infinity has no counterpart among `real`s.
- Floating-point rounding is left out: every number is an exact `real`. The bounds below hold in exact arithmetic and can fail by one rounding step in the source.
- Game.SpawnSize: the upper bound `size < 80` holds for exact reals. In double precision, the largest draw below 1 makes `r * 40 + 40` round to exactly 80.
- Game.RiseSpeed: the upper bound `v < 5 * (bpm / 60)` holds for exact reals. In double precision, the largest draw below 1 makes `r * 2 + 3` round to exactly 5.
- Game.NewBall: its size bound inherits the exact-real assumption of Game.SpawnSize.
- GameProofs.TickRunAccounts: "no elapsed time is lost" holds for exact reals. The source's repeated `+=` and `-=` on the beat timer accumulate rounding error.
- Game.Tick, Game.Spawn, Game.Frame: these require `PlayableSong`, a positive tempo and a non-empty palette. A zero tempo cannot come from the mapping, which replaces it with 120. A negative tempo can reach a running session when the song has a video, since the video plays and the scheduler is never used. The source then completes a beat on every frame, because the timer always reaches the negative beat interval. It spawns a ball on every frame, because the gate moves behind the current time. The new balls move down with a positive `dy` and are never retired. The model does not describe these sessions.
- Audio.Scheduler: requires a positive tempo when an audio context exists. With a negative tempo the source's loop never ends (see "## Findings"), and a loop that does not end has no result to model. A zero tempo cannot come from the mapping, which replaces it with 120.
- Audio.CatchUp: requires a positive tempo, for the same reason as Audio.Scheduler.
- Audio.StartMusic: requires a positive tempo when an audio context exists, for the same reason as Audio.Scheduler.
- Game.End: the source stops the video whenever a player object with `stopVideo` exists. The model keys this on the video being ready, which is the only state a session can start from when the song has a video.

Behaviour of the code worth knowing, where one might expect otherwise:

- **One beat per frame at most.** A frame completes at most one beat (`if`, not a loop). After a long frame the clock catches up one beat per frame (`Tick`, `TickCatchesUp`, `LongFrameCompletesOneBeat`); no elapsed time is lost (`TickRunAccounts`).
- **No clamping.** A ball's position is not clamped to the screen. Only its horizontal speed is reversed on contact with a wall (`MoveBall`).
- **Palette size.** The mapped palette is neither capped at five colours nor deduplicated (`PadPalette`, `ValidColors`).
- **Tempo.** A negative tempo passes through the mapping unchanged and yields an unplayable song (`MappedSongPlayable`).
- **Taps on absent balls.** A matching tap scores even when no ball has the tapped identity. The screen only offers taps on balls it shows.
- **No tone on start.** The first note is set 0.1 s ahead, and the poll schedules notes strictly before now + 0.1 s, so the poll made by `startMusic` schedules nothing. The first tones come from the next poll.

## Findings

| source | as written | input that shows it | evidently intended | confidence | as-written member | corrected member |
|---|---|---|---|---|---|---|
| chromarhythm/components/GameScreen.tsx:121 | `startGame` sets the playing state and then requests a frame with the `gameLoop` callback of the current render. That callback captured `isPlaying == false`, so it returns at line 190 without requesting another frame. | Any start: the first frame after `startGame` does nothing, and no further frame is requested. Beats, spawning and physics never run. | The loop should test the live playing state, or be restarted once `isPlaying` is true, so that frames keep running while the session plays. | high (not executed) | Game.ScheduledFrame, GameProofs.StartedLoopStalls | Game.Frame |
| chromarhythm/services/audioService.ts:102-113 | The song mapping keeps any non-zero tempo, negative ones included (`data.bpm || 120`, services/geminiService.ts:120). A song without a video starts the music at that tempo (GameScreen.tsx:116). With a negative tempo, `nextNote` adds a negative step to `nextNoteTime`, so the scheduler's `while` guard never becomes false. | A reply with `bpm: -120` and no video. The poll inside `startMusic` schedules nothing, but the next poll, 25 ms later, finds a note due and never returns. | The tempo should be positive before it reaches the scheduler, for example by replacing a non-positive reply tempo with the default, so that every poll ends. | medium (not executed; needs the text model to return a negative tempo) | AudioProofs.NegativeTempoNeverCatchesUp, Consistency.NegativeTempoReachesMusic | Audio.CatchUp |
