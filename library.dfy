/**
 * The library screen's state: the songs, the search query and the sort order,
 * and the list they produce: the songs matching the query, sorted by the one
 * key the order names. Also the playlist actions the screen offers.
 */
module Library {
  import opened Wrappers
  import opened Domain
  import opened Text
  import opened Sequences
  import opened Sorting
  import opened Entities
  import opened KeyedTable
  import opened PlaylistTables
  import opened Repository
  import MediaStore

  datatype SortOrder = DateAddedDesc | DateAddedAsc | NameAsc | NameDesc | DurationDesc | DurationAsc | Artist

  /** The value an order sorts by: a number (date added, duration) or a text (title, artist). */
  datatype SortKey = Number(n: int) | Words(s: string)

  function KeyOf(order: SortOrder, song: Song): SortKey {
    match order
    case NameAsc | NameDesc => Words(song.title)
    case DateAddedDesc | DateAddedAsc => Number(song.dateAdded)
    case DurationDesc | DurationAsc => Number(song.duration)
    case Artist => Words(song.artist)
  }

  /** The orders written with `sortedByDescending`. */
  predicate Descending(order: SortOrder) {
    order == NameDesc || order == DateAddedDesc || order == DurationDesc
  }

  /** Natural order of keys: numbers by value, texts by `compareTo`. */
  predicate KeyLe(a: SortKey, b: SortKey) {
    match (a, b)
    case (Number(x), Number(y)) => x <= y
    case (Words(x), Words(y)) => LexLe(x, y)
    case (Number(_), Words(_)) => true
    case (Words(_), Number(_)) => false
  }

  lemma KeyLeTotalPreorder(a: SortKey, b: SortKey, c: SortKey)
    ensures KeyLe(a, b) || KeyLe(b, a)
    ensures KeyLe(a, b) && KeyLe(b, c) ==> KeyLe(a, c)
    ensures KeyLe(a, b) && KeyLe(b, a) ==> a == b
  {
    if a.Words? && b.Words? {
      LexLeTotal(a.s, b.s);
      if KeyLe(a, b) && KeyLe(b, a) {
        LexLeAntisymmetric(a.s, b.s);
      }
      if c.Words? && KeyLe(a, b) && KeyLe(b, c) {
        LexLeTransitive(a.s, b.s, c.s);
      }
    }
  }

  /** `a` may come before `b` in the list sorted by `order`. */
  predicate Precedes(order: SortOrder, a: Song, b: Song) {
    if Descending(order) then KeyLe(KeyOf(order, b), KeyOf(order, a)) else KeyLe(KeyOf(order, a), KeyOf(order, b))
  }

  function Le(order: SortOrder): (Song, Song) -> bool {
    (a: Song, b: Song) => Precedes(order, a, b)
  }

  lemma LePreorder(order: SortOrder)
    ensures TotalPreorder(Le(order))
  {
    forall a: Song, b: Song, c: Song
      ensures Le(order)(a, b) || Le(order)(b, a)
      ensures Le(order)(a, b) && Le(order)(b, c) ==> Le(order)(a, c)
    {
      KeyLeTotalPreorder(KeyOf(order, a), KeyOf(order, b), KeyOf(order, c));
      KeyLeTotalPreorder(KeyOf(order, c), KeyOf(order, b), KeyOf(order, a));
    }
  }

  /** Two songs are tied under an order exactly when their keys are equal. */
  lemma TieIffSameKey(order: SortOrder, a: Song, b: Song)
    ensures Tie(Le(order), a, b) <==> KeyOf(order, a) == KeyOf(order, b)
  {
    KeyLeTotalPreorder(KeyOf(order, a), KeyOf(order, b), KeyOf(order, a));
  }

  /** The search filter: a blank query keeps every song; otherwise the title, the artist or the
    * album must contain the query, ignoring case under `fold`. */
  predicate Matches(fold: char -> char, query: string, song: Song) {
    || IsBlank(query)
    || ContainsIgnoringCase(fold, song.title, query)
    || ContainsIgnoringCase(fold, song.artist, query)
    || ContainsIgnoringCase(fold, song.album, query)
  }

  function MatchesQuery(fold: char -> char, query: string): Song -> bool {
    (song: Song) => Matches(fold, query, song)
  }

  /** `filteredSongs`: the matching songs, sorted by the order's key; equal keys keep their order. */
  function DisplayList(fold: char -> char, songs: seq<Song>, query: string, order: SortOrder): (r: seq<Song>)
    ensures multiset(r) == multiset(Filter(MatchesQuery(fold, query), songs))
    ensures SortedBy(Le(order), r)
  {
    LePreorder(order);
    SortSorted(Le(order), Filter(MatchesQuery(fold, query), songs));
    Sort(Le(order), Filter(MatchesQuery(fold, query), songs))
  }

  /** A blank query keeps every song: the list is a reordering of the whole library. */
  lemma BlankQueryKeepsAll(fold: char -> char, songs: seq<Song>, query: string, order: SortOrder)
    requires IsBlank(query)
    ensures multiset(DisplayList(fold, songs, query, order)) == multiset(songs)
  {
    FilterKeepsAll(MatchesQuery(fold, query), songs);
  }

  /** A song is listed exactly when it is in the library and the query is blank or matches one of
    * its title, artist and album somewhere, ignoring case; it is listed as often as the library holds it. */
  lemma DisplayListMembers(fold: char -> char, songs: seq<Song>, query: string, order: SortOrder, s: Song)
    ensures s in DisplayList(fold, songs, query, order) <==>
              && s in songs
              && (|| IsBlank(query)
                  || (exists i :: MatchesAt(fold, s.title, query, i))
                  || (exists i :: MatchesAt(fold, s.artist, query, i))
                  || (exists i :: MatchesAt(fold, s.album, query, i)))
    ensures multiset(DisplayList(fold, songs, query, order))[s] == if Matches(fold, query, s) then multiset(songs)[s] else 0
  {
    ContainsIgnoringCaseIffMatches(fold, s.title, query);
    ContainsIgnoringCaseIffMatches(fold, s.artist, query);
    ContainsIgnoringCaseIffMatches(fold, s.album, query);
    FilterMultiset(MatchesQuery(fold, query), songs);
    var r := DisplayList(fold, songs, query, order);
    assert s in r <==> s in multiset(r);
    assert s in songs <==> s in multiset(songs);
  }

  /** The list is never longer than the library, and an empty library lists nothing. */
  lemma DisplayListLength(fold: char -> char, songs: seq<Song>, query: string, order: SortOrder)
    ensures |DisplayList(fold, songs, query, order)| <= |songs|
    ensures songs == [] ==> DisplayList(fold, songs, query, order) == []
  {
    var r := DisplayList(fold, songs, query, order);
    assert |r| == |multiset(r)|;
  }

  /** Each order sorts by its own key, ascending or descending as its name says. */
  lemma DisplayListOrdered(fold: char -> char, songs: seq<Song>, query: string, order: SortOrder)
    ensures var r := DisplayList(fold, songs, query, order);
      && (order == NameAsc ==> forall i, j :: 0 <= i < j < |r| ==> LexLe(r[i].title, r[j].title))
      && (order == NameDesc ==> forall i, j :: 0 <= i < j < |r| ==> LexLe(r[j].title, r[i].title))
      && (order == DateAddedAsc ==> forall i, j :: 0 <= i < j < |r| ==> r[i].dateAdded <= r[j].dateAdded)
      && (order == DateAddedDesc ==> forall i, j :: 0 <= i < j < |r| ==> r[i].dateAdded >= r[j].dateAdded)
      && (order == DurationAsc ==> forall i, j :: 0 <= i < j < |r| ==> r[i].duration <= r[j].duration)
      && (order == DurationDesc ==> forall i, j :: 0 <= i < j < |r| ==> r[i].duration >= r[j].duration)
      && (order == Artist ==> forall i, j :: 0 <= i < j < |r| ==> LexLe(r[i].artist, r[j].artist))
  {
    var r := DisplayList(fold, songs, query, order);
    assert forall i, j :: 0 <= i < j < |r| ==> Precedes(order, r[i], r[j]);
  }

  /** Choosing the elements tied with `z` commutes with filtering. */
  lemma {:induction false} TiedFilter<T>(le: (T, T) -> bool, z: T, p: T -> bool, s: seq<T>)
    ensures Tied(le, z, Filter(p, s)) == Filter(p, Tied(le, z, s))
  {
    if s != [] {
      TiedFilter(le, z, p, s[1..]);
      var x := s[0];
      var hp: seq<T> := if p(x) then [x] else [];
      var ht: seq<T> := if Tie(le, z, x) then [x] else [];
      TiedAppend(le, z, hp, Filter(p, s[1..]));
      FilterAppend(p, ht, Tied(le, z, s[1..]));
      assert Tied(le, z, hp) == Filter(p, ht);
    }
  }

  lemma {:induction false} TiedAppend<T>(le: (T, T) -> bool, z: T, a: seq<T>, b: seq<T>)
    ensures Tied(le, z, a + b) == Tied(le, z, a) + Tied(le, z, b)
  {
    if a != [] {
      TiedAppend(le, z, a[1..], b);
      assert (a + b)[1..] == a[1..] + b;
    } else {
      assert a + b == b;
    }
  }

  /** Stability, for ascending and descending orders alike: the listed songs whose key equals
    * the key of `z` are the matching library songs with that key, in library order. */
  lemma DisplayListStable(fold: char -> char, songs: seq<Song>, query: string, order: SortOrder, z: Song)
    ensures Tied(Le(order), z, DisplayList(fold, songs, query, order)) ==
            Filter(MatchesQuery(fold, query), Tied(Le(order), z, songs))
  {
    LePreorder(order);
    SortStable(Le(order), Filter(MatchesQuery(fold, query), songs), z);
    TiedFilter(Le(order), z, MatchesQuery(fold, query), songs);
  }

  /** When no two library songs share a title, sorting by title descending gives exactly the
    * reverse of sorting by title ascending. */
  lemma NameDescIsReverse(fold: char -> char, songs: seq<Song>, query: string)
    requires forall i, j :: 0 <= i < j < |songs| ==> songs[i].title != songs[j].title
    ensures DisplayList(fold, songs, query, NameDesc) == Reverse(DisplayList(fold, songs, query, NameAsc))
  {
    var desc := DisplayList(fold, songs, query, NameDesc);
    var asc := DisplayList(fold, songs, query, NameAsc);
    LePreorder(NameDesc);
    ReverseAt(asc);
    ReversedAscIsDesc(asc);
    FilterMultiset(MatchesQuery(fold, query), songs);
    DistinctTitlesNoTies(songs, desc);
    SortedPermutationsEqual(Le(NameDesc), desc, Reverse(asc));
  }

  lemma ReversedAscIsDesc(asc: seq<Song>)
    requires SortedBy(Le(NameAsc), asc)
    ensures SortedBy(Le(NameDesc), Reverse(asc))
  {
    var rev := Reverse(asc);
    ReverseAt(asc);
    forall i, j | 0 <= i < j < |rev| ensures Le(NameDesc)(rev[i], rev[j]) {
      assert rev[i] == asc[|asc| - 1 - i] && rev[j] == asc[|asc| - 1 - j];
      assert Le(NameAsc)(asc[|asc| - 1 - j], asc[|asc| - 1 - i]);
    }
  }

  lemma DistinctTitlesNoTies(songs: seq<Song>, picked: seq<Song>)
    requires forall i, j :: 0 <= i < j < |songs| ==> songs[i].title != songs[j].title
    requires multiset(picked) <= multiset(songs)
    ensures forall x, y :: x in picked && y in picked && Tie(Le(NameDesc), x, y) ==> x == y
  {
    forall x, y | x in picked && y in picked && Tie(Le(NameDesc), x, y) ensures x == y {
      TieIffSameKey(NameDesc, x, y);
      assert x in multiset(picked) && y in multiset(picked);
      assert x in multiset(songs) && y in multiset(songs);
      var i :| 0 <= i < |songs| && songs[i] == x;
      var j :| 0 <= j < |songs| && songs[j] == y;
    }
  }

  class HomeViewModel {
    const repository: MusicRepositoryImpl
    /** The platform's per-character case comparison behind `ignoreCase = true`. */
    const fold: char -> char
    var allSongs: seq<Song>
    var searchQuery: string
    var sortOrder: SortOrder
    var albums: seq<Album>
    var playlists: seq<PlaylistEntity>

    ghost predicate Valid()
      reads repository.songDao, repository.favoriteDao, repository.playlistDao
    {
      repository.Valid()
    }

    /** The initial state: no songs yet, an empty query, newest first. */
    constructor(repository: MusicRepositoryImpl, fold: char -> char)
      ensures this.repository == repository && this.fold == fold
      ensures allSongs == [] && searchQuery == "" && sortOrder == DateAddedDesc
      ensures albums == [] && playlists == []
    {
      this.repository, this.fold := repository, fold;
      allSongs, searchQuery, sortOrder := [], "", DateAddedDesc;
      albums, playlists := [], [];
    }

    /** `filteredSongs` for the current state: every matching library song, as often as the library
      * holds it, sorted by the current order; the `DisplayList` lemmas add stability and membership. */
    function FilteredSongs(): (r: seq<Song>)
      reads this
      ensures r == DisplayList(fold, allSongs, searchQuery, sortOrder)
      ensures multiset(r) == multiset(Filter(MatchesQuery(fold, searchQuery), allSongs))
      ensures SortedBy(Le(sortOrder), r)
      ensures |r| <= |allSongs|
      ensures forall i :: 0 <= i < |r| ==> r[i] in allSongs && Matches(fold, searchQuery, r[i])
    {
      var r := DisplayList(fold, allSongs, searchQuery, sortOrder);
      DisplayListLength(fold, allSongs, searchQuery, sortOrder);
      assert forall i :: 0 <= i < |r| ==> r[i] in multiset(r);
      r
    }

    method SetSearchQuery(q: string)
      modifies this`searchQuery
      ensures searchQuery == q
      ensures allSongs == old(allSongs) && sortOrder == old(sortOrder)
    {
      searchQuery := q;
    }

    method SetSortOrder(s: SortOrder)
      modifies this`sortOrder
      ensures sortOrder == s
      ensures allSongs == old(allSongs) && searchQuery == old(searchQuery)
    {
      sortOrder := s;
    }

    /** The collector of `getAllSongs`: the library becomes the repository's current song list. */
    method OnSongsEmitted()
      modifies this`allSongs
      ensures allSongs == repository.GetAllSongs()
    {
      allSongs := repository.GetAllSongs();
    }

    /** The collector of `getAllPlaylists`. */
    method OnPlaylistsEmitted()
      requires Valid()
      modifies this`playlists
      ensures playlists == repository.GetAllPlaylists()
    {
      playlists := repository.GetAllPlaylists();
    }

    /** `refreshSongs`: rescans the library into the songs table, then loads the albums. */
    method RefreshSongs(songCursor: seq<MediaStore.SongRow>, albumCursor: seq<MediaStore.AlbumRow>)
      requires Valid()
      modifies this`albums, repository.songDao
      ensures Valid()
      ensures repository.songDao.rows == UpsertAll(SongKey, [], ToEntityAll(MediaStore.SongsOf(songCursor)))
      ensures |albums| == |albumCursor|
      ensures forall i :: 0 <= i < |albumCursor| ==> albums[i] == MediaStore.AlbumOf(albumCursor[i])
    {
      repository.RefreshSongs(songCursor);
      albums := repository.GetAlbums(albumCursor);
    }

    /** `createPlaylist`: a blank name is ignored; otherwise a playlist named with the trimmed name is added last. */
    method CreatePlaylist(name: string)
      requires Valid()
      modifies repository.playlistDao
      ensures Valid()
      ensures IsBlank(name) ==> repository.playlistDao.playlists == old(repository.playlistDao.playlists)
      ensures !IsBlank(name) ==>
                (&& Trim(name) != []
                 && repository.playlistDao.playlists ==
                    old(repository.playlistDao.playlists) + [PlaylistEntity(old(repository.playlistDao.sequence) + 1, Trim(name))])
      ensures IsBlank(name) ==> repository.playlistDao.sequence == old(repository.playlistDao.sequence)
      ensures !IsBlank(name) ==> repository.playlistDao.sequence == old(repository.playlistDao.sequence) + 1
      ensures repository.playlistDao.crossRefs == old(repository.playlistDao.crossRefs)
    {
      if IsBlank(name) {
        return;
      }
      repository.CreatePlaylist(Trim(name));
    }

    method DeletePlaylist(playlist: PlaylistEntity)
      requires Valid()
      modifies repository.playlistDao
      ensures Valid()
      ensures repository.playlistDao.playlists == Delete(PlaylistKey, old(repository.playlistDao.playlists), playlist.id)
      ensures repository.playlistDao.crossRefs == old(repository.playlistDao.crossRefs)
      ensures repository.playlistDao.sequence == old(repository.playlistDao.sequence)
    {
      repository.DeletePlaylist(playlist);
    }

    method AddSongToPlaylist(playlistId: int, songId: int)
      requires Valid()
      modifies repository.playlistDao
      ensures Valid()
      ensures repository.playlistDao.crossRefs == old(repository.playlistDao.crossRefs) + {PlaylistSongCrossRef(playlistId, songId)}
      ensures repository.playlistDao.playlists == old(repository.playlistDao.playlists)
      ensures repository.playlistDao.sequence == old(repository.playlistDao.sequence)
    {
      repository.AddSongToPlaylist(playlistId, songId);
    }

    method RenamePlaylist(id: int, name: string)
      requires Valid()
      modifies repository.playlistDao
      ensures Valid()
      ensures repository.playlistDao.playlists == Renamed(old(repository.playlistDao.playlists), id, name)
      ensures repository.playlistDao.crossRefs == old(repository.playlistDao.crossRefs)
      ensures repository.playlistDao.sequence == old(repository.playlistDao.sequence)
    {
      repository.RenamePlaylist(id, name);
    }
  }
}
