/** How the components fit together: songs produced by the mapping are
    playable by the game and the music, and the music's bass register follows
    the same tempo bands as the song's difficulty label. */
module Consistency {
  import opened Types
  import opened SongMapping
  import Audio
  import Game
  import GameProofs

  /** A mapped song can be played exactly when the reply did not carry a
      negative tempo: an absent or zero tempo falls back to 120, and the
      palette is always padded to at least two colours. */
  lemma MappedSongPlayable(data: Response, id: string, image: string, youtubeId: Option<string>)
    ensures PlayableSong(MapResponseToSong(data, id, image, youtubeId))
      <==> !(data.bpm.Some? && data.bpm.value < 0.0)
  {
    var song := MapResponseToSong(data, id, image, youtubeId);
    assert |song.colors| >= 2;
    if data.bpm.Some? && data.bpm.value != 0.0 {
      assert song.bpm == data.bpm.value;
    } else {
      assert song.bpm == DefaultBpm;
    }
  }

  /** A session opened on a mapped song with a non-negative tempo, or on the
      fallback song, starts in a state that meets the game's invariant. */
  lemma MappedSongSessionInv(data: Response, id: string, image: string, youtubeId: Option<string>)
    requires !(data.bpm.Some? && data.bpm.value < 0.0)
    ensures GameProofs.Inv(Game.NewSession(MapResponseToSong(data, id, image, youtubeId)))
    ensures GameProofs.Inv(Game.NewSession(FallbackSong()))
  {
    MappedSongPlayable(data, id, image, youtubeId);
    GameProofs.NewSessionInv(MapResponseToSong(data, id, image, youtubeId));
    GameProofs.NewSessionInv(FallbackSong());
  }

  /** The bass root is low for exactly the tempos labelled easy, high for
      exactly those labelled hard, and the middle root for the rest. */
  lemma BassRootFollowsDifficulty(bpm: real)
    ensures Audio.RootFor(bpm) == 48.99 <==> DifficultyFor(bpm) == Easy
    ensures Audio.RootFor(bpm) == 61.74 <==> DifficultyFor(bpm) == Hard
    ensures Audio.RootFor(bpm) == 55.0 <==> DifficultyFor(bpm) == Medium
  {
  }

  /** A reply with a negative tempo and no video yields a song whose start
      asks the music to play at that tempo. */
  lemma NegativeTempoReachesMusic(data: Response, id: string, image: string)
    requires data.bpm == Some(-120.0)
    ensures var song := MapResponseToSong(data, id, image, None);
      var s := Game.NewSession(song);
      && song.bpm == -120.0
      && Game.CanStart(s)
      && Game.Start(s, 0.0).effects[0] == Game.StartMusic(-120.0)
  {
  }
}
