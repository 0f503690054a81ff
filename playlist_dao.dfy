/**
 * The `playlists` table (an auto-generated integer key, as SQLite's AUTOINCREMENT
 * assigns it) and the `playlist_songs` table of (playlist, song) pairs, with the
 * relation that lists a playlist's songs. No foreign key links the two tables.
 */
module PlaylistTables {
  import opened Wrappers
  import opened Entities
  import opened KeyedTable
  import opened Sequences

  /** `UPDATE playlists SET name = :name WHERE id = :id`. */
  function Renamed(rows: seq<PlaylistEntity>, id: int, name: string): (r: seq<PlaylistEntity>)
    ensures |r| == |rows|
    ensures forall i :: 0 <= i < |rows| ==> r[i].id == rows[i].id
  {
    seq(|rows|, i requires 0 <= i < |rows| => if rows[i].id == id then PlaylistEntity(id, name) else rows[i])
  }

  /** Renaming changes the name of the playlist with that id and nothing else; an unknown id changes nothing. */
  lemma {:induction false} RenamedFind(rows: seq<PlaylistEntity>, id: int, name: string)
    requires Ordered(PlaylistKey, rows)
    ensures Ordered(PlaylistKey, Renamed(rows, id, name))
    ensures forall k :: Find(PlaylistKey, Renamed(rows, id, name), k) ==
                        if k == id && Find(PlaylistKey, rows, k).Some? then Some(PlaylistEntity(id, name)) else Find(PlaylistKey, rows, k)
    ensures Find(PlaylistKey, rows, id) == None ==> Renamed(rows, id, name) == rows
  {
    var r := Renamed(rows, id, name);
    if rows != [] {
      RenamedFind(rows[1..], id, name);
      assert r[1..] == Renamed(rows[1..], id, name);
    }
  }

  /** The song rows joined to playlist `playlistId` through a cross reference. */
  function InPlaylist(refs: set<PlaylistSongCrossRef>, playlistId: int): SongEntity -> bool {
    (e: SongEntity) => PlaylistSongCrossRef(playlistId, e.id) in refs
  }

  class PlaylistDao {
    /** The `playlists` rows in primary-key order. */
    var playlists: seq<PlaylistEntity>
    /** The `playlist_songs` rows; the pair is the key, so a set. */
    var crossRefs: set<PlaylistSongCrossRef>
    /** AUTOINCREMENT's record of the largest id the table has ever held. */
    var sequence: int

    ghost predicate Valid()
      reads this
    {
      && Ordered(PlaylistKey, playlists)
      && forall i :: 0 <= i < |playlists| ==> playlists[i].id <= sequence
    }

    constructor()
      ensures Valid() && playlists == [] && crossRefs == {} && sequence == 0
    {
      playlists, crossRefs, sequence := [], {}, 0;
    }

    /** `getAllPlaylists`: every row, in primary-key order. */
    function GetAllPlaylists(): (r: seq<PlaylistEntity>)
      requires Valid()
      reads this
      ensures forall i, j :: 0 <= i < j < |r| ==> r[i].id < r[j].id
      ensures forall p :: p in r <==> Find(PlaylistKey, playlists, p.id) == Some(p)
    {
      forall p ensures p in playlists <==> Find(PlaylistKey, playlists, p.id) == Some(p) {
        FindSound(PlaylistKey, playlists, p.id);
        if p in playlists {
          FindComplete(PlaylistKey, playlists, p);
        }
      }
      playlists
    }

    /** `createPlaylist` with REPLACE. An id of 0 stands for "generate one": the new id is one more than
      * any id the table ever held, so it is fresh and the row goes last. Returns the id of the row. */
    method CreatePlaylist(playlist: PlaylistEntity) returns (rowId: int)
      requires Valid()
      modifies this
      ensures Valid()
      ensures rowId == if playlist.id == 0 then old(sequence) + 1 else playlist.id
      ensures playlists == Upsert(PlaylistKey, old(playlists), PlaylistEntity(rowId, playlist.name))
      ensures forall k :: Find(PlaylistKey, playlists, k) ==
                          if k == rowId then Some(PlaylistEntity(rowId, playlist.name)) else Find(PlaylistKey, old(playlists), k)
      ensures playlist.id == 0 ==> rowId !in Keys(PlaylistKey, old(playlists))
      ensures playlist.id == 0 ==> playlists == old(playlists) + [PlaylistEntity(rowId, playlist.name)]
      ensures crossRefs == old(crossRefs)
      ensures sequence == if rowId > old(sequence) then rowId else old(sequence)
    {
      rowId := if playlist.id == 0 then sequence + 1 else playlist.id;
      var row := PlaylistEntity(rowId, playlist.name);
      UpsertFind(PlaylistKey, playlists, row);
      UpsertMembers(PlaylistKey, playlists, row);
      if playlist.id == 0 {
        UpsertGreatest(PlaylistKey, playlists, row);
        KeysIndexed(PlaylistKey, playlists, rowId);
      }
      playlists := Upsert(PlaylistKey, playlists, row);
      if rowId > sequence {
        sequence := rowId;
      }
      forall i | 0 <= i < |playlists| ensures playlists[i].id <= sequence {
        assert playlists[i] == row || playlists[i] in old(playlists);
      }
    }

    /** `deletePlaylist`, a delete by primary key: the row goes, its cross references stay. */
    method DeletePlaylist(playlist: PlaylistEntity)
      requires Valid()
      modifies this
      ensures Valid()
      ensures playlists == Delete(PlaylistKey, old(playlists), playlist.id)
      ensures forall k :: Find(PlaylistKey, playlists, k) == if k == playlist.id then None else Find(PlaylistKey, old(playlists), k)
      ensures crossRefs == old(crossRefs) && sequence == old(sequence)
    {
      DeleteFind(PlaylistKey, playlists, playlist.id);
      playlists := Delete(PlaylistKey, playlists, playlist.id);
      forall i | 0 <= i < |playlists| ensures playlists[i].id <= sequence {
        assert playlists[i] in old(playlists);
      }
    }

    /** `addSongToPlaylist` with IGNORE: a pair already present is left alone. */
    method AddSongToPlaylist(crossRef: PlaylistSongCrossRef)
      requires Valid()
      modifies this
      ensures Valid()
      ensures crossRefs == old(crossRefs) + {crossRef}
      ensures crossRef in old(crossRefs) ==> crossRefs == old(crossRefs)
      ensures playlists == old(playlists) && sequence == old(sequence)
    {
      crossRefs := crossRefs + {crossRef};
    }

    /** `removeSongFromPlaylist`: only that pair goes. */
    method RemoveSongFromPlaylist(crossRef: PlaylistSongCrossRef)
      requires Valid()
      modifies this
      ensures Valid()
      ensures crossRefs == old(crossRefs) - {crossRef}
      ensures playlists == old(playlists) && sequence == old(sequence)
    {
      crossRefs := crossRefs - {crossRef};
    }

    /** `renamePlaylist`: only the name of the row with that id changes; an unknown id changes nothing. */
    method RenamePlaylist(id: int, name: string)
      requires Valid()
      modifies this
      ensures Valid()
      ensures playlists == Renamed(old(playlists), id, name)
      ensures crossRefs == old(crossRefs) && sequence == old(sequence)
    {
      RenamedFind(playlists, id, name);
      playlists := Renamed(playlists, id, name);
    }

    /** `getPlaylistWithSongs`: nothing for an unknown id; otherwise the playlist row and the rows of
      * `songs` (the songs table) that a cross reference joins to it. */
    function GetPlaylistWithSongs(playlistId: int, songs: seq<SongEntity>): (r: Option<PlaylistWithSongs>)
      reads this
      ensures r.None? <==> playlistId !in Keys(PlaylistKey, playlists)
      ensures r.Some? ==> r.value.playlist in playlists && r.value.playlist.id == playlistId
      ensures r.Some? ==> forall e :: e in r.value.songs <==> e in songs && PlaylistSongCrossRef(playlistId, e.id) in crossRefs
    {
      FindSound(PlaylistKey, playlists, playlistId);
      match Find(PlaylistKey, playlists, playlistId)
      case None => None
      case Some(p) => Some(PlaylistWithSongs(p, Filter(InPlaylist(crossRefs, playlistId), songs)))
    }
  }
}
