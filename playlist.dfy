/**
 * The saved-song playlist that the serial dashboards (testUI4.py and 2.py)
 * keep in their session: entries `{'name': "Song k", 'frequencies': [...]}`
 * appended in order, so that entry `i` is always `Song {i+1}`.
 */
module Playlist {
  import opened PyText

  /** A playlist entry: `{'name', 'frequencies'}`. */
  datatype SavedSong = SavedSong(name: string, frequencies: seq<int>)

  /** The name of the `k`-th song of the playlist (counting from 1): `f"Song {k}"`. */
  function SongName(k: nat): string {
    "Song " + NatToString(k)
  }

  /** Entry `i` of the playlist is named `Song {i+1}`. */
  predicate SongsNumbered(songs: seq<SavedSong>) {
    forall i :: 0 <= i < |songs| ==> songs[i].name == SongName(i + 1)
  }

  /**
   * Appending a list of frequencies under the next number,
   * `f"Song {len(saved_songs) + 1}"`: earlier entries are kept and the
   * numbering is kept.
   */
  function WithSong(songs: seq<SavedSong>, freqs: seq<int>): (r: seq<SavedSong>)
    ensures |r| == |songs| + 1 && r[..|songs|] == songs
    ensures r[|songs|].frequencies == freqs
    ensures SongsNumbered(songs) ==> SongsNumbered(r)
  {
    AppendKeepsNumbering(songs, freqs);
    songs + [SavedSong(SongName(|songs| + 1), freqs)]
  }

  lemma AppendKeepsNumbering(songs: seq<SavedSong>, freqs: seq<int>)
    ensures var r := songs + [SavedSong(SongName(|songs| + 1), freqs)];
      r[..|songs|] == songs && (SongsNumbered(songs) ==> SongsNumbered(r))
  {
    var r := songs + [SavedSong(SongName(|songs| + 1), freqs)];
    assert r[..|songs|] == songs;
    if SongsNumbered(songs) {
      forall i | 0 <= i < |r| ensures r[i].name == SongName(i + 1) {
        if i < |songs| {
          assert r[i] == songs[i];
        }
      }
    }
  }
}
