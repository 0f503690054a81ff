/**
 * The `songs` table: one row per song id. Inserting replaces a row with the same
 * id; the listing query returns every row, newest first.
 */
module SongTable {
  import opened Wrappers
  import opened Entities
  import opened KeyedTable
  import Sorting

  /** `ORDER BY dateAdded DESC`: `a` may come before `b` when it was added no earlier. */
  predicate NewerOrSame(a: SongEntity, b: SongEntity) {
    a.dateAdded >= b.dateAdded
  }

  lemma NewerOrSamePreorder()
    ensures Sorting.TotalPreorder(NewerOrSame)
  {
  }

  class SongDao {
    /** The rows in primary-key order. */
    var rows: seq<SongEntity>

    ghost predicate Valid()
      reads this
    {
      Ordered(SongKey, rows)
    }

    constructor()
      ensures Valid() && rows == []
    {
      rows := [];
    }

    /** `getAllSongs`: every row, ordered by non-increasing `dateAdded`. */
    function GetAllSongs(): (r: seq<SongEntity>)
      reads this
      ensures multiset(r) == multiset(rows)
      ensures forall i, j :: 0 <= i < j < |r| ==> r[i].dateAdded >= r[j].dateAdded
    {
      NewerOrSamePreorder();
      Sorting.SortSorted(NewerOrSame, rows);
      Sorting.Sort(NewerOrSame, rows)
    }

    /** `insertAll` with REPLACE: each song in turn replaces the row with its id, or is added. */
    method InsertAll(songs: seq<SongEntity>)
      requires Valid()
      modifies this
      ensures Valid()
      ensures rows == UpsertAll(SongKey, old(rows), songs)
      ensures forall k :: Find(SongKey, rows, k) ==
                          if LastWithKey(SongKey, songs, k).Some? then LastWithKey(SongKey, songs, k) else Find(SongKey, old(rows), k)
    {
      for i := 0 to |songs|
        invariant Valid()
        invariant rows == UpsertAll(SongKey, old(rows), songs[..i])
      {
        UpsertFind(SongKey, rows, songs[i]);
        rows := Upsert(SongKey, rows, songs[i]);
        assert songs[..i + 1][..i] == songs[..i];
      }
      assert songs[..|songs|] == songs;
      UpsertAllFind(SongKey, old(rows), songs);
    }

    /** `deleteAll`: the table becomes empty. */
    method DeleteAll()
      modifies this
      ensures Valid() && rows == []
    {
      rows := [];
    }

    /** `getCount`: the number of rows, which is the number of distinct ids stored. */
    method GetCount() returns (n: int)
      requires Valid()
      ensures n == |rows| && n == |Keys(SongKey, rows)|
    {
      KeysCount(SongKey, rows);
      n := |rows|;
    }
  }
}
