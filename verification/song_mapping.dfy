/** Normalisation of a song description returned by the text model into a
    `Song` the game can play, and the constant song used when that fails. */
module SongMapping {
  import opened Types

  const DefaultBpm: real := 120.0
  const DefaultDurationSec: int := 180
  const UnknownTitle: string := "Unknown Track"
  const UnknownArtist: string := "Unknown Artist"

  /** The parsed JSON reply, every field optional. `colors` is `None` when the
      field is missing or is not an array. */
  datatype Response = Response(
    title: Option<string>,
    artist: Option<string>,
    bpm: Option<real>,
    colors: Option<seq<string>>)

  /** Upper-casing of one character, for the ASCII letters. */
  function UpperChar(ch: char): (u: char)
    ensures 'a' <= ch <= 'z' ==> u as int == ch as int - 32
    ensures !('a' <= ch <= 'z') ==> u == ch
  {
    if 'a' <= ch <= 'z' then (ch as int - 32) as char else ch
  }

  function ToUpper(s: string): (u: string)
    ensures |u| == |s|
    ensures forall i :: 0 <= i < |s| ==> u[i] == UpperChar(s[i])
  {
    seq(|s|, i requires 0 <= i < |s| => UpperChar(s[i]))
  }

  /** The enumeration member whose name is the upper-cased string, if any
      (the `upper in GameColor` test). */
  function ParseColor(s: string): (r: Option<GameColor>)
    ensures r.Some? ==> ToUpper(s) == ColorName(r.value)
    ensures r.None? ==> forall c :: ToUpper(s) != ColorName(c)
  {
    var u := ToUpper(s);
    if u == "YELLOW" then Some(Yellow)
    else if u == "GREEN" then Some(Green)
    else if u == "RED" then Some(Red)
    else if u == "BLUE" then Some(Blue)
    else if u == "PURPLE" then Some(Purple)
    else None
  }

  /** A string is accepted as a colour exactly when its upper-cased form is
      that colour's name. */
  lemma ParseColorNames(s: string, c: GameColor)
    ensures ParseColor(s) == Some(c) <==> ToUpper(s) == ColorName(c)
    ensures ParseColor(ColorName(c)) == Some(c)
  {
    UpperKeepsUpper(ColorName(c));
  }

  /** Upper-casing leaves a string without lower-case letters alone. */
  lemma UpperKeepsUpper(s: string)
    requires forall i :: 0 <= i < |s| ==> !('a' <= s[i] <= 'z')
    ensures ToUpper(s) == s
  {
  }

  /** The test ignores case but not spelling. */
  lemma ParseColorExamples()
    ensures ParseColor("purple") == Some(Purple)
    ensures ParseColor("Blue") == Some(Blue)
    ensures ParseColor("pink") == None
  {
    assert ToUpper("purple") == "PURPLE";
    assert ToUpper("Blue") == "BLUE";
    assert ToUpper("pink")[0] == 'P';
  }

  /** The accepted colours of the input, in input order. */
  function ValidColors(cs: seq<string>): (r: seq<GameColor>)
    ensures |r| <= |cs|
    ensures forall i :: 0 <= i < |r| ==> exists j :: 0 <= j < |cs| && ParseColor(cs[j]) == Some(r[i])
    ensures forall j :: 0 <= j < |cs| && ParseColor(cs[j]).Some? ==> ParseColor(cs[j]).value in r
  {
    if |cs| == 0 then []
    else
      match ParseColor(cs[0])
      case Some(c) => [c] + ValidColors(cs[1..])
      case None => ValidColors(cs[1..])
  }

  /** Order is preserved: the colours kept from a prefix precede those kept
      from the suffix. */
  lemma {:induction false} ValidColorsAppend(a: seq<string>, b: seq<string>)
    ensures ValidColors(a + b) == ValidColors(a) + ValidColors(b)
  {
    if |a| == 0 {
      assert a + b == b;
    } else {
      assert (a + b)[0] == a[0];
      assert (a + b)[1..] == a[1..] + b;
      ValidColorsAppend(a[1..], b);
    }
  }

  /** Fewer than two accepted colours are topped up with RED then BLUE. */
  function PadPalette(valid: seq<GameColor>): (r: seq<GameColor>)
    ensures |r| >= 2
    ensures |valid| <= |r| && r[..|valid|] == valid
    ensures |valid| >= 2 ==> r == valid
    ensures |valid| < 2 ==> r[|valid|..] == [Red, Blue]
  {
    if |valid| < 2 then valid + [Red, Blue] else valid
  }

  /** JavaScript truthiness of an optional string: present and non-empty. */
  function OrDefault(s: Option<string>, default: string): (r: string)
    ensures (s.Some? && s.value != "") ==> r == s.value
    ensures (s.None? || s.value == "") ==> r == default
  {
    if s.Some? && s.value != "" then s.value else default
  }

  /** `data.bpm || 120`: a missing or zero tempo becomes 120. */
  function BpmOrDefault(bpm: Option<real>): (r: real)
    ensures (bpm.Some? && bpm.value != 0.0) ==> r == bpm.value
    ensures (bpm.None? || bpm.value == 0.0) ==> r == DefaultBpm
  {
    if bpm.Some? && bpm.value != 0.0 then bpm.value else DefaultBpm
  }

  /** The tempo bands: below 110 is easy, above 140 hard, the rest medium. */
  function DifficultyFor(bpm: real): (d: Difficulty)
    ensures d == Easy <==> bpm < 110.0
    ensures d == Hard <==> bpm > 140.0
    ensures d == Medium <==> 110.0 <= bpm <= 140.0
  {
    if bpm < 110.0 then Easy
    else if bpm > 140.0 then Hard
    else Medium
  }

  /** Builds the song record from a parsed reply, an id, an image and an
      optional video id. */
  function MapResponseToSong(data: Response, id: string, image: string, youtubeId: Option<string>): (song: Song)
    ensures song.id == id && song.image == image && song.youtubeId == youtubeId
    ensures song.title == OrDefault(data.title, UnknownTitle)
    ensures song.artist == OrDefault(data.artist, UnknownArtist)
    ensures song.bpm == BpmOrDefault(data.bpm)
    ensures song.difficulty == DifficultyFor(song.bpm)
    ensures song.durationSec == DefaultDurationSec && song.isAiGenerated == Some(true)
    ensures |song.colors| >= 2
    ensures data.colors.None? ==> song.colors == [Red, Blue]
    ensures data.colors.Some? ==> song.colors == PadPalette(ValidColors(data.colors.value))
  {
    var valid := if data.colors.Some? then ValidColors(data.colors.value) else [];
    var bpm := BpmOrDefault(data.bpm);
    Song(
      id := id,
      title := OrDefault(data.title, UnknownTitle),
      artist := OrDefault(data.artist, UnknownArtist),
      bpm := bpm,
      durationSec := DefaultDurationSec,
      image := image,
      colors := PadPalette(valid),
      difficulty := DifficultyFor(bpm),
      isAiGenerated := Some(true),
      youtubeId := youtubeId)
  }

  /** Every colour of a mapped song was accepted from the reply or is one of
      the two padding colours; the accepted colours come first, in order. */
  lemma {:induction false} MappedColorsFromInput(data: Response, id: string, image: string, youtubeId: Option<string>, cs: seq<string>)
    requires data.colors == Some(cs)
    ensures var song := MapResponseToSong(data, id, image, youtubeId);
      && song.colors[..|ValidColors(cs)|] == ValidColors(cs)
      && forall i :: 0 <= i < |song.colors| ==>
           song.colors[i] in [Red, Blue] || exists j :: 0 <= j < |cs| && ParseColor(cs[j]) == Some(song.colors[i])
  {
    var song := MapResponseToSong(data, id, image, youtubeId);
    var valid := ValidColors(cs);
    forall i | 0 <= i < |song.colors|
      ensures song.colors[i] in [Red, Blue] || exists j :: 0 <= j < |cs| && ParseColor(cs[j]) == Some(song.colors[i])
    {
      if i < |valid| {
        assert song.colors[i] == valid[i];
      } else {
        assert |valid| < 2;
        assert song.colors[i] == [Red, Blue][i - |valid|];
      }
    }
  }

  /** The song used when generation fails. */
  function FallbackSong(): (song: Song)
    ensures PlayableSong(song)
  {
    Song(
      id := "fallback",
      title := "Emergency Protocol",
      artist := "System Backup",
      bpm := 125.0,
      durationSec := 120,
      image := "https://picsum.photos/seed/error/400/400",
      colors := [Red, Yellow],
      difficulty := Medium,
      isAiGenerated := Some(true),
      youtubeId := None)
  }

  /** The fallback song plays red and yellow at a medium difficulty, and meets
      every guarantee a mapped song does: at least two colours, and a
      difficulty that matches its tempo band. */
  lemma FallbackLikeMapped()
    ensures FallbackSong().colors == [Red, Yellow] && FallbackSong().difficulty == Medium
    ensures |FallbackSong().colors| >= 2
    ensures FallbackSong().difficulty == DifficultyFor(FallbackSong().bpm)
    ensures FallbackSong().bpm == 125.0 && FallbackSong().durationSec == 120
  {
  }
}
