/**
 * The `favorites` table: a set of song ids, one row per id. Adding replaces a row
 * with the same id, removing deletes by id.
 */
module FavoriteTable {
  import opened Wrappers
  import opened Entities
  import opened KeyedTable

  class FavoriteDao {
    /** The rows in primary-key order. */
    var rows: seq<FavoriteEntity>

    ghost predicate Valid()
      reads this
    {
      Ordered(FavoriteKey, rows)
    }

    constructor()
      ensures Valid() && rows == []
    {
      rows := [];
    }

    /** The ids of the favourite songs. */
    function Ids(): set<int>
      reads this
    {
      Keys(FavoriteKey, rows)
    }

    /** `getAllFavorites`: every row, in primary-key order; each id once. */
    function GetAllFavorites(): (r: seq<FavoriteEntity>)
      requires Valid()
      reads this
      ensures forall i, j :: 0 <= i < j < |r| ==> r[i].songId < r[j].songId
      ensures forall id :: id in Ids() <==> FavoriteEntity(id) in r
    {
      forall id ensures id in Ids() <==> FavoriteEntity(id) in rows {
        FindSound(FavoriteKey, rows, id);
        if FavoriteEntity(id) in rows {
          FindComplete(FavoriteKey, rows, FavoriteEntity(id));
        }
      }
      rows
    }

    /** `isFavorite`: whether a row with that id exists. */
    function IsFavorite(songId: int): (b: bool)
      reads this
      ensures b <==> songId in Ids()
      ensures b <==> exists i :: 0 <= i < |rows| && rows[i].songId == songId
    {
      FindSound(FavoriteKey, rows, songId);
      KeysIndexed(FavoriteKey, rows, songId);
      Find(FavoriteKey, rows, songId).Some?
    }

    /** `addFavorite` with REPLACE: the id is a favourite afterwards; adding a present id changes nothing. */
    method AddFavorite(favorite: FavoriteEntity)
      requires Valid()
      modifies this
      ensures Valid()
      ensures rows == Upsert(FavoriteKey, old(rows), favorite)
      ensures Ids() == old(Ids()) + {favorite.songId}
      ensures favorite.songId in old(Ids()) ==> rows == old(rows)
    {
      UpsertFind(FavoriteKey, rows, favorite);
      UpsertKeys(FavoriteKey, rows, favorite);
      if favorite.songId in Ids() {
        FindSound(FavoriteKey, rows, favorite.songId);
        UpsertPresent(FavoriteKey, rows, favorite);
      }
      rows := Upsert(FavoriteKey, rows, favorite);
    }

    /** `removeFavorite`, a delete by primary key: only that id stops being a favourite; removing an absent id changes nothing. */
    method RemoveFavorite(favorite: FavoriteEntity)
      requires Valid()
      modifies this
      ensures Valid()
      ensures rows == Delete(FavoriteKey, old(rows), favorite.songId)
      ensures Ids() == old(Ids()) - {favorite.songId}
      ensures favorite.songId !in old(Ids()) ==> rows == old(rows)
    {
      DeleteFind(FavoriteKey, rows, favorite.songId);
      DeleteKeys(FavoriteKey, rows, favorite.songId);
      if favorite.songId !in Ids() {
        FindSound(FavoriteKey, rows, favorite.songId);
        DeleteAbsent(FavoriteKey, rows, favorite.songId);
      }
      rows := Delete(FavoriteKey, rows, favorite.songId);
    }
  }
}
