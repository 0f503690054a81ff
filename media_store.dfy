/**
 * Reading the device's audio library. The content provider's cursor is given as
 * a sequence of rows whose string columns may be null; the two scans turn the
 * rows into songs and albums, skipping rows without a file path and rows whose
 * path looks like a voice note, a call recording, a ringtone or a system sound.
 */
module MediaStore {
  import opened Wrappers
  import opened Text
  import opened Domain

  /** A row of the audio media query: `_ID, TITLE, ARTIST, ALBUM, ALBUM_ID, DURATION, DATA, DATE_ADDED, SIZE`. */
  datatype SongRow = SongRow(
    id: int,
    title: Option<string>,
    artist: Option<string>,
    album: Option<string>,
    albumId: int,
    duration: int,
    data: Option<string>,
    dateAdded: int,
    size: int)

  /** A row of the albums query: `_ID, ALBUM, ARTIST, NUMBER_OF_SONGS`. */
  datatype AlbumRow = AlbumRow(id: int, album: Option<string>, artist: Option<string>, numberOfSongs: int)

  /** The text that stands in for a missing title, artist, album or album name. */
  const UNKNOWN: string := "Unknown"

  /** The path fragments that mark a file as not music, all in lower case. */
  const EXCLUDED: seq<string> :=
    ["/whatsapp/", "/voice", "recording", "callrecord", "/notifications/", "/alarms/", "/ringtones/", "/system/"]

  /** Whether a file is left out of the library: its lower-cased path contains one of the fragments. */
  predicate ShouldExclude(path: string) {
    var lower := LowerAll(path);
    || Contains(lower, "/whatsapp/")
    || Contains(lower, "/voice")
    || Contains(lower, "recording")
    || Contains(lower, "callrecord")
    || Contains(lower, "/notifications/")
    || Contains(lower, "/alarms/")
    || Contains(lower, "/ringtones/")
    || Contains(lower, "/system/")
  }

  /** A path is excluded exactly when its lower-cased form contains one of `EXCLUDED`. */
  lemma ShouldExcludeIffFragment(path: string)
    ensures ShouldExclude(path) <==> exists i :: 0 <= i < |EXCLUDED| && Contains(LowerAll(path), EXCLUDED[i])
  {
    var lower := LowerAll(path);
    if ShouldExclude(path) {
      if Contains(lower, "/whatsapp/") { assert Contains(lower, EXCLUDED[0]); }
      else if Contains(lower, "/voice") { assert Contains(lower, EXCLUDED[1]); }
      else if Contains(lower, "recording") { assert Contains(lower, EXCLUDED[2]); }
      else if Contains(lower, "callrecord") { assert Contains(lower, EXCLUDED[3]); }
      else if Contains(lower, "/notifications/") { assert Contains(lower, EXCLUDED[4]); }
      else if Contains(lower, "/alarms/") { assert Contains(lower, EXCLUDED[5]); }
      else if Contains(lower, "/ringtones/") { assert Contains(lower, EXCLUDED[6]); }
      else { assert Contains(lower, EXCLUDED[7]); }
    }
  }

  /** The check ignores case: a path and its lower-cased form are excluded alike. */
  lemma ShouldExcludeIgnoresCase(path: string)
    ensures ShouldExclude(path) == ShouldExclude(LowerAll(path))
  {
    LowerAllIdempotent(path);
  }

  /** Whether a row becomes a song: it has a path and the path is not excluded. */
  predicate Kept(r: SongRow) {
    r.data.Some? && !ShouldExclude(r.data.value)
  }

  /** The song a kept row becomes: null texts read as "Unknown", every other column copied. */
  function Convert(r: SongRow): (s: Song)
    requires r.data.Some?
    ensures s.id == r.id && s.albumId == r.albumId && s.duration == r.duration
    ensures s.path == r.data.value && s.dateAdded == r.dateAdded && s.size == r.size
    ensures s.title == (if r.title.Some? then r.title.value else UNKNOWN)
    ensures s.artist == (if r.artist.Some? then r.artist.value else UNKNOWN)
    ensures s.album == (if r.album.Some? then r.album.value else UNKNOWN)
  {
    Song(r.id, r.title.GetOr(UNKNOWN), r.artist.GetOr(UNKNOWN), r.album.GetOr(UNKNOWN),
         r.albumId, r.duration, r.data.value, r.dateAdded, r.size)
  }

  /** The songs a cursor yields: one per kept row, in row order. */
  function SongsOf(rows: seq<SongRow>): (songs: seq<Song>)
    ensures |songs| <= |rows|
  {
    if rows == [] then []
    else
      var last := rows[|rows| - 1];
      SongsOf(rows[..|rows| - 1]) + (if Kept(last) then [Convert(last)] else [])
  }

  /** `getSongs`: scans the cursor, skipping rows without a path and rows with an excluded path. */
  method GetSongs(cursor: seq<SongRow>) returns (songs: seq<Song>)
    ensures songs == SongsOf(cursor)
  {
    songs := [];
    var i := 0;
    while i < |cursor|
      invariant 0 <= i <= |cursor|
      invariant songs == SongsOf(cursor[..i])
    {
      var row := cursor[i];
      i := i + 1;
      assert cursor[..i][..i - 1] == cursor[..i - 1];
      if row.data.None? {
        continue;
      }
      var path := row.data.value;
      if ShouldExclude(path) {
        continue;
      }
      songs := songs + [Song(row.id, row.title.GetOr(UNKNOWN), row.artist.GetOr(UNKNOWN), row.album.GetOr(UNKNOWN),
                             row.albumId, row.duration, path, row.dateAdded, row.size)];
    }
    assert cursor[..i] == cursor;
  }

  /** The indices of the kept rows, in increasing order. */
  function KeptIndices(rows: seq<SongRow>): (idx: seq<nat>)
    ensures forall k :: 0 <= k < |idx| ==> idx[k] < |rows| && Kept(rows[idx[k]])
    ensures forall k, l :: 0 <= k < l < |idx| ==> idx[k] < idx[l]
    ensures forall i :: 0 <= i < |rows| && Kept(rows[i]) ==> i in idx
  {
    if rows == [] then []
    else
      var n := |rows| - 1;
      var front := KeptIndices(rows[..n]);
      assert forall k :: 0 <= k < |front| ==> rows[..n][front[k]] == rows[front[k]];
      front + (if Kept(rows[n]) then [n] else [])
  }

  /** The songs are the kept rows converted, in row order: the k-th song comes from the k-th kept row,
    * so the output is a subsequence of the rows and has exactly one song per kept row. */
  lemma {:induction false} SongsOfKeptRows(rows: seq<SongRow>)
    ensures |SongsOf(rows)| == |KeptIndices(rows)|
    ensures forall k :: 0 <= k < |SongsOf(rows)| ==> SongsOf(rows)[k] == Convert(rows[KeptIndices(rows)[k]])
  {
    if rows != [] {
      var n := |rows| - 1;
      var init := rows[..n];
      SongsOfKeptRows(init);
      var front, songs := KeptIndices(init), SongsOf(init);
      var idx, out := KeptIndices(rows), SongsOf(rows);
      assert idx == front + (if Kept(rows[n]) then [n] else []);
      assert out == songs + (if Kept(rows[n]) then [Convert(rows[n])] else []);
      forall k | 0 <= k < |out| ensures out[k] == Convert(rows[idx[k]]) {
        if k < |songs| {
          assert out[k] == songs[k] && idx[k] == front[k];
          assert init[front[k]] == rows[front[k]];
        }
      }
    }
  }

  /** A song comes out of the scan exactly when some kept row converts to it. */
  lemma SongsOfMembership(rows: seq<SongRow>, s: Song)
    ensures s in SongsOf(rows) <==> exists i :: 0 <= i < |rows| && Kept(rows[i]) && Convert(rows[i]) == s
  {
    SongsOfKeptRows(rows);
    var songs, idx := SongsOf(rows), KeptIndices(rows);
    if s in songs {
      var k :| 0 <= k < |songs| && songs[k] == s;
      assert Kept(rows[idx[k]]);
    }
    if exists i :: 0 <= i < |rows| && Kept(rows[i]) && Convert(rows[i]) == s {
      var i :| 0 <= i < |rows| && Kept(rows[i]) && Convert(rows[i]) == s;
      var k :| 0 <= k < |idx| && idx[k] == i;
      assert songs[k] == s;
    }
  }

  /** The provider returns rows newest first; skipping rows keeps the songs newest first. */
  lemma SongsOfKeepsDateOrder(rows: seq<SongRow>)
    requires forall i, j :: 0 <= i < j < |rows| ==> rows[i].dateAdded >= rows[j].dateAdded
    ensures forall k, l :: 0 <= k < l < |SongsOf(rows)| ==> SongsOf(rows)[k].dateAdded >= SongsOf(rows)[l].dateAdded
  {
    SongsOfKeptRows(rows);
  }

  /** The album an albums row becomes: null texts read as "Unknown", the counts copied. */
  function AlbumOf(r: AlbumRow): (a: Album)
    ensures a.id == r.id && a.songCount == r.numberOfSongs
    ensures a.name == (if r.album.Some? then r.album.value else UNKNOWN)
    ensures a.artist == (if r.artist.Some? then r.artist.value else UNKNOWN)
  {
    Album(r.id, r.album.GetOr(UNKNOWN), r.artist.GetOr(UNKNOWN), r.numberOfSongs)
  }

  /** `getAlbums`: one album per row, in row order. */
  method GetAlbums(cursor: seq<AlbumRow>) returns (albums: seq<Album>)
    ensures |albums| == |cursor|
    ensures forall i :: 0 <= i < |cursor| ==> albums[i] == AlbumOf(cursor[i])
  {
    albums := [];
    var i := 0;
    while i < |cursor|
      invariant 0 <= i <= |cursor|
      invariant |albums| == i
      invariant forall k :: 0 <= k < i ==> albums[k] == AlbumOf(cursor[k])
    {
      var row := cursor[i];
      albums := albums + [Album(row.id, row.album.GetOr(UNKNOWN), row.artist.GetOr(UNKNOWN), row.numberOfSongs)];
      i := i + 1;
    }
  }
}
