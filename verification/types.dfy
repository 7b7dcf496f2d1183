/** Shared data model of the rhythm game: the colour enumeration, songs, balls,
    and the small helpers every component uses. */
module Types {
  import Arith

  /** A value that may be missing: an absent JSON field, or the `undefined`
      an out-of-range array read gives. */
  datatype Option<+T> = None | Some(value: T)

  /** The five colours a palette may draw from. */
  datatype GameColor = Yellow | Green | Red | Blue | Purple

  /** The string each enumeration member stands for. */
  function ColorName(c: GameColor): string
  {
    match c
    case Yellow => "YELLOW"
    case Green => "GREEN"
    case Red => "RED"
    case Blue => "BLUE"
    case Purple => "PURPLE"
  }

  datatype Difficulty = Easy | Medium | Hard

  /** A playable song. Tempo and durations are plain numbers in the game, so
      they are `real` here; the optional fields are `Option`s. */
  datatype Song = Song(
    id: string,
    title: string,
    artist: string,
    bpm: real,
    durationSec: int,
    image: string,
    colors: seq<GameColor>,
    difficulty: Difficulty,
    isAiGenerated: Option<bool>,
    youtubeId: Option<string>)

  /** What the game loop needs of a song: a positive tempo (it divides by it)
      and a non-empty palette (it indexes and reduces modulo its length). */
  predicate PlayableSong(song: Song)
  {
    song.bpm > 0.0 && |song.colors| > 0
  }

  /** One tappable target: position, velocity and diameter in pixels. */
  datatype Ball = Ball(id: string, x: real, y: real, color: GameColor, dx: real, dy: real, size: real)

  /** JavaScript's `%` on integers, for a positive divisor (a length): the
      remainder takes the sign of the dividend instead of being non-negative.
      The range and the last clause together determine it. */
  function JsRem(a: int, d: int): (r: int)
    requires d > 0
    ensures a >= 0 ==> r == a % d
    ensures a < 0 ==> -d < r <= 0
    ensures (a - r) % d == 0
  {
    if a >= 0 then
      Arith.ModUnique(a - a % d, d, a / d, 0);
      a % d
    else
      var q := (-a) / d;
      assert -a == q * d + (-a) % d;
      Arith.ModUnique(a + (-a) % d, d, -q, 0);
      -((-a) % d)
  }
}
