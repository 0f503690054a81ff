/**
 * The rows of the app's database: the `songs`, `favorites`, `playlists` and
 * `playlist_songs` tables, the relation that joins a playlist to its songs,
 * and the conversions between a stored song row and a domain song.
 */
module Entities {
  import opened Domain

  /** A row of `songs`; `id` is the primary key. */
  datatype SongEntity = SongEntity(
    id: int,
    title: string,
    artist: string,
    album: string,
    albumId: int,
    duration: int,
    path: string,
    dateAdded: int,
    size: int)

  /** A row of `favorites`; `songId` is the primary key. */
  datatype FavoriteEntity = FavoriteEntity(songId: int)

  /** A row of `playlists`; an `id` of 0 asks the database to generate one. */
  datatype PlaylistEntity = PlaylistEntity(id: int, name: string)

  /** A row of `playlist_songs`; the pair is the primary key. */
  datatype PlaylistSongCrossRef = PlaylistSongCrossRef(playlistId: int, songId: int)

  /** A playlist together with the song rows the cross references join to it. */
  datatype PlaylistWithSongs = PlaylistWithSongs(playlist: PlaylistEntity, songs: seq<SongEntity>)

  /** Copies a stored row into a domain song, field by field. */
  function ToDomain(e: SongEntity): (s: Song)
    ensures s.id == e.id && s.title == e.title && s.artist == e.artist && s.album == e.album
    ensures s.albumId == e.albumId && s.duration == e.duration && s.path == e.path
    ensures s.dateAdded == e.dateAdded && s.size == e.size
  {
    Song(e.id, e.title, e.artist, e.album, e.albumId, e.duration, e.path, e.dateAdded, e.size)
  }

  /** Copies a domain song into a row, field by field. */
  function ToEntity(s: Song): (e: SongEntity)
    ensures e.id == s.id && e.title == s.title && e.artist == s.artist && e.album == s.album
    ensures e.albumId == s.albumId && e.duration == s.duration && e.path == s.path
    ensures e.dateAdded == s.dateAdded && e.size == s.size
  {
    SongEntity(s.id, s.title, s.artist, s.album, s.albumId, s.duration, s.path, s.dateAdded, s.size)
  }

  /** Storing a song and reading it back gives the same song. */
  lemma DomainRoundTrip(s: Song)
    ensures ToDomain(ToEntity(s)) == s
  {
  }

  /** Reading a row and storing it back gives the same row. */
  lemma EntityRoundTrip(e: SongEntity)
    ensures ToEntity(ToDomain(e)) == e
  {
  }

  /** Both conversions are injective: distinct songs are stored as distinct rows and vice versa. */
  lemma ConversionsInjective(s: Song, t: Song, e: SongEntity, f: SongEntity)
    ensures ToEntity(s) == ToEntity(t) <==> s == t
    ensures ToDomain(e) == ToDomain(f) <==> e == f
  {
    DomainRoundTrip(s);
    DomainRoundTrip(t);
    EntityRoundTrip(e);
    EntityRoundTrip(f);
  }

  /** The key of a row of `songs`. */
  function SongKey(e: SongEntity): int { e.id }

  /** The key of a row of `favorites`. */
  function FavoriteKey(f: FavoriteEntity): int { f.songId }

  /** The key of a row of `playlists`. */
  function PlaylistKey(p: PlaylistEntity): int { p.id }

  /** Converts stored rows into domain songs, one for one, in the same order. */
  function ToDomainAll(es: seq<SongEntity>): (ss: seq<Song>)
    ensures |ss| == |es|
    ensures forall i :: 0 <= i < |es| ==> ss[i] == ToDomain(es[i])
  {
    if es == [] then [] else [ToDomain(es[0])] + ToDomainAll(es[1..])
  }

  /** Converts domain songs into rows, one for one, in the same order. */
  function ToEntityAll(ss: seq<Song>): (es: seq<SongEntity>)
    ensures |es| == |ss|
    ensures forall i :: 0 <= i < |ss| ==> es[i] == ToEntity(ss[i])
  {
    if ss == [] then [] else [ToEntity(ss[0])] + ToEntityAll(ss[1..])
  }

  /** Storing a list of songs and reading it back gives the same list. */
  lemma DomainAllRoundTrip(ss: seq<Song>)
    ensures ToDomainAll(ToEntityAll(ss)) == ss
  {
  }

  /** Reading a list of rows and storing it back gives the same list. */
  lemma EntityAllRoundTrip(es: seq<SongEntity>)
    ensures ToEntityAll(ToDomainAll(es)) == es
  {
  }
}
