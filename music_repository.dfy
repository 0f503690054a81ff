/**
 * The repository the view models talk to: it reads and writes the three tables
 * and rescans the device library into the songs table.
 */
module Repository {
  import opened Wrappers
  import opened Domain
  import opened Entities
  import opened KeyedTable
  import opened Sequences
  import opened SongTable
  import opened FavoriteTable
  import opened PlaylistTables
  import MediaStore

  /** Rows whose song id is in `ids`. */
  function IdIn(ids: set<int>): SongEntity -> bool {
    (e: SongEntity) => e.id in ids
  }

  /** Songs whose id is in `ids`. */
  function SongIdIn(ids: set<int>): Song -> bool {
    (s: Song) => s.id in ids
  }

  /** Converting rows and then picking songs by id is picking rows by id and then converting them. */
  lemma {:induction false} ConvertThenFilter(ids: set<int>, es: seq<SongEntity>)
    ensures ToDomainAll(Filter(IdIn(ids), es)) == Filter(SongIdIn(ids), ToDomainAll(es))
  {
    if es != [] {
      ConvertThenFilter(ids, es[1..]);
      assert ToDomainAll(es)[1..] == ToDomainAll(es[1..]);
      var head: seq<SongEntity> := if es[0].id in ids then [es[0]] else [];
      assert ToDomainAll(head + Filter(IdIn(ids), es[1..])) == ToDomainAll(head) + ToDomainAll(Filter(IdIn(ids), es[1..]));
    }
  }

  /** Picking the favourites out of a newest-first listing of the stored rows: the songs whose row
    * is stored and whose id is among `ids`, still newest first. */
  lemma FavoritesOf(ids: set<int>, listing: seq<SongEntity>, rows: seq<SongEntity>)
    requires multiset(listing) == multiset(rows)
    requires forall i, j :: 0 <= i < j < |listing| ==> listing[i].dateAdded >= listing[j].dateAdded
    ensures ToDomainAll(Filter(IdIn(ids), listing)) == Filter(SongIdIn(ids), ToDomainAll(listing))
    ensures forall s :: s in Filter(SongIdIn(ids), ToDomainAll(listing)) <==> ToEntity(s) in rows && s.id in ids
    ensures var r := Filter(SongIdIn(ids), ToDomainAll(listing));
      forall i, j :: 0 <= i < j < |r| ==> r[i].dateAdded >= r[j].dateAdded
  {
    var songs := ToDomainAll(listing);
    ConvertThenFilter(ids, listing);
    assert forall i, j :: 0 <= i < j < |songs| ==> AddedNoEarlier()(songs[i], songs[j]) by {
      forall i, j | 0 <= i < j < |songs| ensures AddedNoEarlier()(songs[i], songs[j]) {
        assert songs[i].dateAdded == listing[i].dateAdded && songs[j].dateAdded == listing[j].dateAdded;
      }
    }
    FilterKeepsOrder(SongIdIn(ids), AddedNoEarlier(), songs);
    forall s ensures s in Filter(SongIdIn(ids), songs) <==> ToEntity(s) in rows && s.id in ids {
      FavoriteMember(ids, listing, rows, s);
    }
  }

  lemma FavoriteMember(ids: set<int>, listing: seq<SongEntity>, rows: seq<SongEntity>, s: Song)
    requires multiset(listing) == multiset(rows)
    ensures s in Filter(SongIdIn(ids), ToDomainAll(listing)) <==> ToEntity(s) in rows && s.id in ids
  {
    var songs := ToDomainAll(listing);
    DomainRoundTrip(s);
    if s in songs {
      var i :| 0 <= i < |songs| && songs[i] == s;
      EntityRoundTrip(listing[i]);
      assert listing[i] == ToEntity(s);
    }
    if ToEntity(s) in listing {
      var i :| 0 <= i < |listing| && listing[i] == ToEntity(s);
      assert songs[i] == s;
    }
    assert ToEntity(s) in listing <==> ToEntity(s) in multiset(rows);
    assert SongIdIn(ids)(s) <==> s.id in ids;
  }

  /** `a` was added no earlier than `b`. */
  function AddedNoEarlier(): (Song, Song) -> bool {
    (a: Song, b: Song) => a.dateAdded >= b.dateAdded
  }

  /** The favourites table after a toggle of `songId`: its row goes if present, otherwise one is added. */
  function Toggled(rows: seq<FavoriteEntity>, songId: int): seq<FavoriteEntity> {
    if Find(FavoriteKey, rows, songId).Some? then Delete(FavoriteKey, rows, songId)
    else Upsert(FavoriteKey, rows, FavoriteEntity(songId))
  }

  /** A toggle flips whether `songId` is a favourite and leaves every other id as it was. */
  lemma ToggledFlips(rows: seq<FavoriteEntity>, songId: int)
    requires Ordered(FavoriteKey, rows)
    ensures Ordered(FavoriteKey, Toggled(rows, songId))
    ensures forall id :: id in Keys(FavoriteKey, Toggled(rows, songId)) <==>
                         if id == songId then id !in Keys(FavoriteKey, rows) else id in Keys(FavoriteKey, rows)
  {
    FindSound(FavoriteKey, rows, songId);
    if songId in Keys(FavoriteKey, rows) {
      DeleteFind(FavoriteKey, rows, songId);
      DeleteKeys(FavoriteKey, rows, songId);
    } else {
      UpsertFind(FavoriteKey, rows, FavoriteEntity(songId));
      UpsertKeys(FavoriteKey, rows, FavoriteEntity(songId));
    }
  }

  /** Toggling the same id twice restores the table. */
  lemma ToggledTwice(rows: seq<FavoriteEntity>, songId: int)
    requires Ordered(FavoriteKey, rows)
    ensures Toggled(Toggled(rows, songId), songId) == rows
  {
    var me := FavoriteEntity(songId);
    FindSound(FavoriteKey, rows, songId);
    if Find(FavoriteKey, rows, songId).Some? {
      assert Find(FavoriteKey, rows, songId) == Some(me);
      var t := Delete(FavoriteKey, rows, songId);
      DeleteFind(FavoriteKey, rows, songId);
      UpsertFind(FavoriteKey, t, me);
      Extensionality(FavoriteKey, Upsert(FavoriteKey, t, me), rows);
    } else {
      var t := Upsert(FavoriteKey, rows, me);
      UpsertFind(FavoriteKey, rows, me);
      DeleteFind(FavoriteKey, t, songId);
      Extensionality(FavoriteKey, Delete(FavoriteKey, t, songId), rows);
    }
  }

  class MusicRepositoryImpl {
    const songDao: SongDao
    const favoriteDao: FavoriteDao
    const playlistDao: PlaylistDao

    ghost predicate Valid()
      reads songDao, favoriteDao, playlistDao
    {
      songDao.Valid() && favoriteDao.Valid() && playlistDao.Valid()
    }

    constructor(songDao: SongDao, favoriteDao: FavoriteDao, playlistDao: PlaylistDao)
      ensures this.songDao == songDao && this.favoriteDao == favoriteDao && this.playlistDao == playlistDao
    {
      this.songDao, this.favoriteDao, this.playlistDao := songDao, favoriteDao, playlistDao;
    }

    /** `getAllSongs`: the stored rows as songs, one for one, in the table's listing order (newest first). */
    function GetAllSongs(): (r: seq<Song>)
      reads songDao
      ensures |r| == |songDao.rows|
      ensures forall i :: 0 <= i < |r| ==> r[i] == ToDomain(songDao.GetAllSongs()[i])
      ensures multiset(ToEntityAll(r)) == multiset(songDao.rows)
      ensures forall i, j :: 0 <= i < j < |r| ==> r[i].dateAdded >= r[j].dateAdded
    {
      EntityAllRoundTrip(songDao.GetAllSongs());
      ToDomainAll(songDao.GetAllSongs())
    }

    /** `getFavoriteSongs`: the songs of `getAllSongs` whose id is a favourite, in that order;
      * a favourite id with no stored song contributes nothing. */
    function GetFavoriteSongs(): (r: seq<Song>)
      requires favoriteDao.Valid()
      reads songDao, favoriteDao
      ensures r == Filter(SongIdIn(favoriteDao.Ids()), GetAllSongs())
      ensures forall s :: s in r <==> ToEntity(s) in songDao.rows && favoriteDao.IsFavorite(s.id)
      ensures forall i, j :: 0 <= i < j < |r| ==> r[i].dateAdded >= r[j].dateAdded
    {
      var favs := favoriteDao.GetAllFavorites();
      var ids := set f | f in favs :: f.songId;
      assert ids == favoriteDao.Ids() by {
        forall id ensures id in ids <==> id in favoriteDao.Ids() {
          assert id in favoriteDao.Ids() <==> FavoriteEntity(id) in favs;
          if id in ids {
            var f :| f in favs && f.songId == id;
            assert f == FavoriteEntity(id);
          }
        }
      }
      var all := songDao.GetAllSongs();
      FavoritesOf(ids, all, songDao.rows);
      ToDomainAll(Filter(IdIn(ids), all))
    }

    /** `isFavorite`. */
    function IsFavorite(songId: int): (b: bool)
      reads favoriteDao
      ensures b <==> songId in favoriteDao.Ids()
    {
      favoriteDao.IsFavorite(songId)
    }

    /** `toggleFavorite`: reads whether the song is a favourite, then removes or adds it. */
    method ToggleFavorite(songId: int)
      requires Valid()
      modifies favoriteDao
      ensures Valid()
      ensures favoriteDao.rows == Toggled(old(favoriteDao.rows), songId)
    {
      var isFav := favoriteDao.IsFavorite(songId);
      FindSound(FavoriteKey, favoriteDao.rows, songId);
      if isFav {
        favoriteDao.RemoveFavorite(FavoriteEntity(songId));
      } else {
        favoriteDao.AddFavorite(FavoriteEntity(songId));
      }
    }

    /** `refreshSongs`: rescans the library, empties the songs table and inserts the scan.
      * Afterwards each id finds the last scanned song with that id, and ids not scanned are gone;
      * the favourites and playlist tables are untouched. */
    method RefreshSongs(cursor: seq<MediaStore.SongRow>)
      requires Valid()
      modifies songDao
      ensures Valid()
      ensures songDao.rows == UpsertAll(SongKey, [], ToEntityAll(MediaStore.SongsOf(cursor)))
      ensures forall k :: Find(SongKey, songDao.rows, k) == LastWithKey(SongKey, ToEntityAll(MediaStore.SongsOf(cursor)), k)
      ensures DistinctKeys(SongKey, ToEntityAll(MediaStore.SongsOf(cursor))) ==>
                multiset(songDao.rows) == multiset(ToEntityAll(MediaStore.SongsOf(cursor)))
      ensures favoriteDao.rows == old(favoriteDao.rows)
      ensures playlistDao.playlists == old(playlistDao.playlists) && playlistDao.crossRefs == old(playlistDao.crossRefs)
    {
      var songs := MediaStore.GetSongs(cursor);
      songDao.DeleteAll();
      songDao.InsertAll(ToEntityAll(songs));
      if DistinctKeys(SongKey, ToEntityAll(songs)) {
        UpsertAllDistinct(SongKey, ToEntityAll(songs));
      }
    }

    /** `getAlbums`: the albums the library scan yields. */
    method GetAlbums(cursor: seq<MediaStore.AlbumRow>) returns (albums: seq<Album>)
      ensures |albums| == |cursor|
      ensures forall i :: 0 <= i < |cursor| ==> albums[i] == MediaStore.AlbumOf(cursor[i])
    {
      albums := MediaStore.GetAlbums(cursor);
    }

    /** `getAllPlaylists`. */
    function GetAllPlaylists(): (r: seq<PlaylistEntity>)
      requires playlistDao.Valid()
      reads playlistDao
      ensures forall i, j :: 0 <= i < j < |r| ==> r[i].id < r[j].id
      ensures forall p :: p in r <==> Find(PlaylistKey, playlistDao.playlists, p.id) == Some(p)
    {
      playlistDao.GetAllPlaylists()
    }

    /** `createPlaylist`: inserts a row with the given name and a generated id, which is fresh and goes last. */
    method CreatePlaylist(name: string)
      requires Valid()
      modifies playlistDao
      ensures Valid()
      ensures playlistDao.playlists == old(playlistDao.playlists) + [PlaylistEntity(old(playlistDao.sequence) + 1, name)]
      ensures old(playlistDao.sequence) + 1 !in Keys(PlaylistKey, old(playlistDao.playlists))
      ensures playlistDao.sequence == old(playlistDao.sequence) + 1
      ensures playlistDao.crossRefs == old(playlistDao.crossRefs)
    {
      var _ := playlistDao.CreatePlaylist(PlaylistEntity(0, name));
    }

    /** `deletePlaylist`: removes the row with that playlist's id; its cross references stay. */
    method DeletePlaylist(playlist: PlaylistEntity)
      requires Valid()
      modifies playlistDao
      ensures Valid()
      ensures playlistDao.playlists == Delete(PlaylistKey, old(playlistDao.playlists), playlist.id)
      ensures playlistDao.crossRefs == old(playlistDao.crossRefs)
      ensures playlistDao.sequence == old(playlistDao.sequence)
    {
      playlistDao.DeletePlaylist(playlist);
    }

    /** `addSongToPlaylist`: adds the pair unless it is there already. */
    method AddSongToPlaylist(playlistId: int, songId: int)
      requires Valid()
      modifies playlistDao
      ensures Valid()
      ensures playlistDao.crossRefs == old(playlistDao.crossRefs) + {PlaylistSongCrossRef(playlistId, songId)}
      ensures playlistDao.playlists == old(playlistDao.playlists)
      ensures playlistDao.sequence == old(playlistDao.sequence)
    {
      playlistDao.AddSongToPlaylist(PlaylistSongCrossRef(playlistId, songId));
    }

    /** `getPlaylistWithSongs`: the playlist and the stored songs joined to it, or nothing for an unknown id. */
    function GetPlaylistWithSongs(playlistId: int): (r: Option<PlaylistWithSongs>)
      reads playlistDao, songDao
      ensures r.None? <==> playlistId !in Keys(PlaylistKey, playlistDao.playlists)
      ensures r.Some? ==> r.value.playlist in playlistDao.playlists && r.value.playlist.id == playlistId
      ensures r.Some? ==> forall e :: e in r.value.songs <==>
                            e in songDao.rows && PlaylistSongCrossRef(playlistId, e.id) in playlistDao.crossRefs
    {
      playlistDao.GetPlaylistWithSongs(playlistId, songDao.rows)
    }

    /** `renamePlaylist`. */
    method RenamePlaylist(id: int, name: string)
      requires Valid()
      modifies playlistDao
      ensures Valid()
      ensures playlistDao.playlists == Renamed(old(playlistDao.playlists), id, name)
      ensures playlistDao.crossRefs == old(playlistDao.crossRefs)
      ensures playlistDao.sequence == old(playlistDao.sequence)
    {
      playlistDao.RenamePlaylist(id, name);
    }
  }
}
