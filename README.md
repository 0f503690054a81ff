# SnoahTune core, modelled in Dafny

SnoahTune is an Android music player. This project models the logic behind its
screens and proves properties of it:

- **the library query** (`HomeViewModel`): the search filter, the seven sort
  orders and the playlist actions (module `Library`, file `library.dfy`);
- **the playback controller** (`PlayerViewModel`): a class that mirrors the
  playback engine's state and logs the commands it sends to it (module `Player`,
  file `player.dfy`);
- **the repository and its three tables** (`MusicRepositoryImpl`, `SongDao`,
  `FavoriteDao`, `PlaylistDao`): tables held in memory with the primary-key and
  conflict rules of their annotations (modules `Repository`, `SongTable`,
  `FavoriteTable`, `PlaylistTables`);
- **the media library scan** (`MediaStoreDataSource`): the path filter and the
  two cursor loops, with the cursor as a sequence of rows whose text columns
  may be null (module `MediaStore`);
- **the conversions between stored rows and songs** (`SongEntity.kt`, module
  `Entities`).

Supporting modules:

- `Text`: the Kotlin string functions the app relies on (`isBlank`, `trim`,
  `lowercase`, `contains`, `compareTo`, decimal rendering).
- `Sorting`: a stable sort, for `sortedBy` and `sortedByDescending`.
- `Sequences`: `filter`.
- `KeyedTable`: a table kept in primary-key order, with INSERT OR REPLACE and
  DELETE.
- `Wrappers`: nullable values.

Design choices:

- **Classes for in-place state.** The view models, the repository and the DAOs
  are classes whose methods update fields.
- **Tables are sequences kept in strictly increasing key order.** This is the
  order in which SQLite scans a table keyed by an integer primary key. Keys are
  therefore unique, and `KeyedTable.Extensionality` shows that a table is fully
  determined by what its key lookups return.
- **The engine's current index is a natural number.** The platform never
  reports a negative `currentMediaItemIndex`, which is why the single
  `idx < size` test in `syncCurrentSong` is the whole bounds check; the model
  takes this as given by typing the index as `nat`.
- **The engine is a value in the controller.** It is an `Option<Engine>` field.
  Setters whose effect the engine reports at once are applied to the record:
  shuffle, repeat mode, and the current item after `setMediaItems`. Every
  command is appended to `commands`.
- **Speed, pitch and progress are `real`.**
- **The case fold behind `ignoreCase = true` is a parameter.** It is a
  `char -> char` function held by `HomeViewModel`.
- **`lowercase()` in the path filter is ASCII lower-casing.**

Two behaviours of the code worth knowing:

- **Progress with an unknown duration.** A duration of 0 or less counts as
  1 ms (`PlayerViewModel.kt:86`), so any positive position shows progress 1.
  See `Player.Progress`.
- **Favourite-status collectors are never cancelled.** `playSong` and
  `syncCurrentSong` start one each time and never cancel the previous one. The
  model logs every start in `favoriteWatches` and does not claim that at most
  one is live.

## Model

| member | source | states |
|---|---|---|
| Text.Trim | app/src/main/java/com/snoahtune/app/viewmodel/HomeViewModel.kt:100 | a name trims to the empty string exactly when it is blank; otherwise the result starts and ends with a non-whitespace character and is the slice of the name after its leading whitespace, with only whitespace after it |
| Text.TrimBy | app/src/main/java/com/snoahtune/app/viewmodel/HomeViewModel.kt:100 | the trimmed slice is empty exactly when every character is trimmable, and is otherwise a slice bounded by untrimmable characters |
| Text.LowerAllIdempotent | app/src/main/java/com/snoahtune/app/data/local/MediaStoreDataSource.kt:68 | lower-casing twice is lower-casing once; a lower-cased path holds no A..Z |
| Text.ContainsIffOccurs | app/src/main/java/com/snoahtune/app/data/local/MediaStoreDataSource.kt:69-76 | `contains` holds exactly when the needle occurs at some index |
| Text.ContainsIgnoringCaseIffMatches | app/src/main/java/com/snoahtune/app/viewmodel/HomeViewModel.kt:50-52 | `contains(query, ignoreCase)` holds exactly when some window of the text equals the query character by character under the case fold |
| Text.LexLeTotal | app/src/main/java/com/snoahtune/app/viewmodel/HomeViewModel.kt:56-62 | any two strings are comparable under `compareTo` |
| Text.LexLeTransitive | app/src/main/java/com/snoahtune/app/viewmodel/HomeViewModel.kt:56-62 | `compareTo` order is transitive |
| Text.LexLeAntisymmetric | app/src/main/java/com/snoahtune/app/viewmodel/HomeViewModel.kt:56-62 | strings that compare equal both ways are equal |
| Text.Natural | app/src/main/java/com/snoahtune/app/viewmodel/PlayerViewModel.kt:187 | the digits of a number are non-empty, all decimal digits, a single digit exactly for numbers below 10, and start with 0 only for 0 (no leading zeros) |
| Text.DecimalRoundTrip | app/src/main/java/com/snoahtune/app/viewmodel/PlayerViewModel.kt:109 | the decimal rendering of an id parses back to the id |
| Text.DecimalInjective | app/src/main/java/com/snoahtune/app/viewmodel/PlayerViewModel.kt:109 | different numbers render differently |
| Text.ParseNaturalInverse | app/src/main/java/com/snoahtune/app/viewmodel/PlayerViewModel.kt:109 | reading the digits of a natural number gives the number |
| Sequences.Filter | app/src/main/java/com/snoahtune/app/viewmodel/HomeViewModel.kt:48-53 | the filtered list is no longer than the input and holds exactly the input elements that satisfy the predicate |
| Sequences.FilterMultiset | app/src/main/java/com/snoahtune/app/viewmodel/HomeViewModel.kt:48-53 | each kept element keeps its multiplicity; a rejected one disappears; the result is a sub-multiset |
| Sequences.FilterKeepsAll | app/src/main/java/com/snoahtune/app/viewmodel/HomeViewModel.kt:49 | when every element qualifies the filter returns its input |
| Sequences.FilterKeepsOrder | app/src/main/java/com/snoahtune/app/data/repository/MusicRepositoryImpl.kt:30 | a relation that holds between every earlier and later element still holds after filtering (order is kept) |
| Sequences.FilterAppend | app/src/main/java/com/snoahtune/app/viewmodel/HomeViewModel.kt:48-53 | filtering a concatenation filters each part |
| Sorting.SortSorted | app/src/main/java/com/snoahtune/app/viewmodel/HomeViewModel.kt:56-62 | `sortedBy` returns a permutation of its input, sorted under the total preorder |
| Sorting.InsertSorted | app/src/main/java/com/snoahtune/app/viewmodel/HomeViewModel.kt:56-62 | inserting into a sorted list keeps it sorted and adds exactly one element |
| Sorting.SortStable | app/src/main/java/com/snoahtune/app/viewmodel/HomeViewModel.kt:56-62 | stability: the elements tied with any given one appear in the output in their input order |
| Sorting.InsertTied | app/src/main/java/com/snoahtune/app/viewmodel/HomeViewModel.kt:56-62 | inserting adds the element to the tied group it belongs to, in front, and changes no other group |
| Sorting.SortedPermutationsEqual | app/src/main/java/com/snoahtune/app/viewmodel/HomeViewModel.kt:56-57 | two sorted permutations of the same list are equal when no two distinct elements are tied |
| Sorting.ReverseAt | app/src/main/java/com/snoahtune/app/viewmodel/HomeViewModel.kt:57 | reversal keeps the length and the elements and puts index i at the mirrored index |
| KeyedTable.FindSound | app/src/main/java/com/snoahtune/app/data/local/dao/SongDao.kt:12-13 | a lookup returns a row that is in the table and carries the key; it finds something exactly for the keys present |
| KeyedTable.FindComplete | app/src/main/java/com/snoahtune/app/data/local/entities/SongEntity.kt:9 | in a table with unique keys every row is found under its own key |
| KeyedTable.UpsertFind | app/src/main/java/com/snoahtune/app/data/local/dao/SongDao.kt:12-13 | REPLACE keeps keys unique; afterwards the new row is found under its key and every other key finds what it found before |
| KeyedTable.UpsertKeys | app/src/main/java/com/snoahtune/app/data/local/dao/FavoriteDao.kt:12-13 | after REPLACE the key set is the old one plus the new row's key |
| KeyedTable.UpsertPresent | app/src/main/java/com/snoahtune/app/data/local/dao/FavoriteDao.kt:12-13 | REPLACE with a row already stored changes nothing (idempotence) |
| KeyedTable.UpsertNewKey | app/src/main/java/com/snoahtune/app/data/local/dao/SongDao.kt:12-13 | REPLACE with a new key adds exactly that row |
| KeyedTable.UpsertGreatest | app/src/main/java/com/snoahtune/app/data/local/entities/PlaylistEntity.kt:7 | a row whose key exceeds every stored key is added last |
| KeyedTable.DeleteFind | app/src/main/java/com/snoahtune/app/data/local/dao/FavoriteDao.kt:15-16 | DELETE by key keeps keys unique; afterwards that key finds nothing and every other key finds what it found before |
| KeyedTable.DeleteKeys | app/src/main/java/com/snoahtune/app/data/local/dao/FavoriteDao.kt:15-16 | after DELETE the key set is the old one without that key |
| KeyedTable.DeleteAbsent | app/src/main/java/com/snoahtune/app/data/local/dao/FavoriteDao.kt:15-16 | DELETE of an absent key changes nothing |
| KeyedTable.Extensionality | app/src/main/java/com/snoahtune/app/data/local/entities/SongEntity.kt:9 | two key-ordered tables that find the same row under every key are the same table |
| KeyedTable.UpsertAllFind | app/src/main/java/com/snoahtune/app/data/local/dao/SongDao.kt:12-13 | after inserting a list with REPLACE each key finds the last inserted row with that key, other keys what they found before; keys stay unique |
| KeyedTable.UpsertAllDistinct | app/src/main/java/com/snoahtune/app/data/local/dao/SongDao.kt:12-16 | inserting rows with distinct keys into an empty table stores exactly those rows |
| KeyedTable.KeysCount | app/src/main/java/com/snoahtune/app/data/local/dao/SongDao.kt:18-19 | a table with unique keys holds one row per key |
| KeyedTable.KeysIndexed | app/src/main/java/com/snoahtune/app/data/local/dao/FavoriteDao.kt:18-19 | a key is present exactly when some row carries it |
| Entities.ToDomain | app/src/main/java/com/snoahtune/app/data/local/entities/SongEntity.kt:20 | every field of the row is copied to the same-named field of the song |
| Entities.ToEntity | app/src/main/java/com/snoahtune/app/data/local/entities/SongEntity.kt:21 | every field of the song is copied to the same-named field of the row |
| Entities.DomainRoundTrip | app/src/main/java/com/snoahtune/app/data/local/entities/SongEntity.kt:20-21 | `toDomain(toEntity(s)) == s` |
| Entities.EntityRoundTrip | app/src/main/java/com/snoahtune/app/data/local/entities/SongEntity.kt:20-21 | `toEntity(toDomain(e)) == e` |
| Entities.ConversionsInjective | app/src/main/java/com/snoahtune/app/data/local/entities/SongEntity.kt:20-21 | both conversions are injective, so neither loses or merges songs |
| Entities.ToDomainAll | app/src/main/java/com/snoahtune/app/data/repository/MusicRepositoryImpl.kt:25 | the list conversion maps rows to songs one for one, in order |
| Entities.ToEntityAll | app/src/main/java/com/snoahtune/app/data/repository/MusicRepositoryImpl.kt:44 | the list conversion maps songs to rows one for one, in order |
| Entities.DomainAllRoundTrip | app/src/main/java/com/snoahtune/app/data/repository/MusicRepositoryImpl.kt:44 | converting a list of songs to rows and back gives the list |
| Entities.EntityAllRoundTrip | app/src/main/java/com/snoahtune/app/data/repository/MusicRepositoryImpl.kt:25 | converting a list of rows to songs and back gives the list |
| MediaStore.ShouldExcludeIffFragment | app/src/main/java/com/snoahtune/app/data/local/MediaStoreDataSource.kt:67-77 | a path is excluded exactly when its lower-cased form contains one of the eight fragments |
| MediaStore.ShouldExcludeIgnoresCase | app/src/main/java/com/snoahtune/app/data/local/MediaStoreDataSource.kt:68 | `shouldExclude(p) == shouldExclude(lowercase(p))` |
| MediaStore.Convert | app/src/main/java/com/snoahtune/app/data/local/MediaStoreDataSource.kt:48-60 | a null title, artist or album becomes "Unknown"; id, album id, duration, path, date added and size are copied |
| MediaStore.SongsOf | app/src/main/java/com/snoahtune/app/data/local/MediaStoreDataSource.kt:45-61 | the scan yields at most one song per row |
| MediaStore.GetSongs | app/src/main/java/com/snoahtune/app/data/local/MediaStoreDataSource.kt:15-64 | the loop with its two `continue`s yields exactly the specified songs |
| MediaStore.KeptIndices | app/src/main/java/com/snoahtune/app/data/local/MediaStoreDataSource.kt:45-47 | the rows with a path that is not excluded, by strictly increasing index, all of them |
| MediaStore.SongsOfKeptRows | app/src/main/java/com/snoahtune/app/data/local/MediaStoreDataSource.kt:45-61 | the k-th song is the k-th kept row converted: one song per kept row, none for the others, in row order (a subsequence) |
| MediaStore.SongsOfMembership | app/src/main/java/com/snoahtune/app/data/local/MediaStoreDataSource.kt:46-60 | a song is produced exactly when some kept row converts to it |
| MediaStore.SongsOfKeepsDateOrder | app/src/main/java/com/snoahtune/app/data/local/MediaStoreDataSource.kt:32 | rows delivered newest first yield songs newest first |
| MediaStore.AlbumOf | app/src/main/java/com/snoahtune/app/data/local/MediaStoreDataSource.kt:96-101 | a null album name or artist becomes "Unknown"; id and song count are copied |
| MediaStore.GetAlbums | app/src/main/java/com/snoahtune/app/data/local/MediaStoreDataSource.kt:79-106 | one album per row, in row order |
| SongTable.SongDao.GetAllSongs | app/src/main/java/com/snoahtune/app/data/local/dao/SongDao.kt:9-10 | every stored row, as a permutation, ordered by non-increasing `dateAdded` |
| SongTable.SongDao.InsertAll | app/src/main/java/com/snoahtune/app/data/local/dao/SongDao.kt:12-13 | each song replaces the row with its id or is added; ids stay unique; each id finds the last inserted song with that id |
| SongTable.SongDao.DeleteAll | app/src/main/java/com/snoahtune/app/data/local/dao/SongDao.kt:15-16 | the table is empty afterwards |
| SongTable.SongDao.GetCount | app/src/main/java/com/snoahtune/app/data/local/dao/SongDao.kt:18-19 | the count is the number of rows, which is the number of distinct ids |
| FavoriteTable.FavoriteDao.GetAllFavorites | app/src/main/java/com/snoahtune/app/data/local/dao/FavoriteDao.kt:9-10 | every favourite id appears exactly once, in increasing id order |
| FavoriteTable.FavoriteDao.IsFavorite | app/src/main/java/com/snoahtune/app/data/local/dao/FavoriteDao.kt:18-19 | true exactly when a row with that song id exists |
| FavoriteTable.FavoriteDao.AddFavorite | app/src/main/java/com/snoahtune/app/data/local/dao/FavoriteDao.kt:12-13 | the id set gains the id; adding a present id leaves the table unchanged |
| FavoriteTable.FavoriteDao.RemoveFavorite | app/src/main/java/com/snoahtune/app/data/local/dao/FavoriteDao.kt:15-16 | the id set loses that id only; removing an absent id changes nothing |
| PlaylistTables.Renamed | app/src/main/java/com/snoahtune/app/data/local/dao/PlaylistDao.kt:28-29 | renaming keeps the number of rows and every row's id |
| PlaylistTables.RenamedFind | app/src/main/java/com/snoahtune/app/data/local/dao/PlaylistDao.kt:28-29 | only the row with that id gets the new name; an unknown id changes nothing; ids stay unique |
| PlaylistTables.PlaylistDao.GetAllPlaylists | app/src/main/java/com/snoahtune/app/data/local/dao/PlaylistDao.kt:9-10 | every stored playlist, in increasing id order |
| PlaylistTables.PlaylistDao.CreatePlaylist | app/src/main/java/com/snoahtune/app/data/local/dao/PlaylistDao.kt:16-17 | id 0 gets one more than any id ever assigned, which is fresh, and the row goes last; any id is returned and finds the new row; the cross references are untouched |
| PlaylistTables.PlaylistDao.DeletePlaylist | app/src/main/java/com/snoahtune/app/data/local/dao/PlaylistDao.kt:19-20 | the row with that id goes and every other stays; cross references are not cascaded |
| PlaylistTables.PlaylistDao.AddSongToPlaylist | app/src/main/java/com/snoahtune/app/data/local/dao/PlaylistDao.kt:22-23 | the pair is added; an existing pair leaves the table unchanged (IGNORE) |
| PlaylistTables.PlaylistDao.RemoveSongFromPlaylist | app/src/main/java/com/snoahtune/app/data/local/dao/PlaylistDao.kt:25-26 | only that pair is removed |
| PlaylistTables.PlaylistDao.RenamePlaylist | app/src/main/java/com/snoahtune/app/data/local/dao/PlaylistDao.kt:28-29 | the playlists become `Renamed`; the cross references are untouched |
| PlaylistTables.PlaylistDao.GetPlaylistWithSongs | app/src/main/java/com/snoahtune/app/data/local/dao/PlaylistDao.kt:12-14 | absent exactly for an unknown id; otherwise the playlist row and exactly the song rows cross-referenced to it |
| Repository.ConvertThenFilter | app/src/main/java/com/snoahtune/app/data/repository/MusicRepositoryImpl.kt:27-31 | converting and then selecting favourite ids equals selecting favourite rows and then converting |
| Repository.FavoritesOf | app/src/main/java/com/snoahtune/app/data/repository/MusicRepositoryImpl.kt:27-31 | the favourites picked from the listing are exactly the stored songs with a favourite id, newest first |
| Repository.ToggledFlips | app/src/main/java/com/snoahtune/app/data/repository/MusicRepositoryImpl.kt:35-39 | a toggle flips membership of that id and leaves every other id as it was |
| Repository.ToggledTwice | app/src/main/java/com/snoahtune/app/data/repository/MusicRepositoryImpl.kt:35-39 | toggling the same id twice restores the favourites table |
| Repository.MusicRepositoryImpl.GetAllSongs | app/src/main/java/com/snoahtune/app/data/repository/MusicRepositoryImpl.kt:24-25 | one song per stored row, in the table's newest-first order, and a permutation of the rows |
| Repository.MusicRepositoryImpl.GetFavoriteSongs | app/src/main/java/com/snoahtune/app/data/repository/MusicRepositoryImpl.kt:27-31 | the songs of `getAllSongs` whose id is a favourite, in that order; favourite ids with no stored song are omitted |
| Repository.MusicRepositoryImpl.IsFavorite | app/src/main/java/com/snoahtune/app/data/repository/MusicRepositoryImpl.kt:33 | true exactly when the id is a favourite |
| Repository.MusicRepositoryImpl.ToggleFavorite | app/src/main/java/com/snoahtune/app/data/repository/MusicRepositoryImpl.kt:35-39 | the favourites table becomes `Toggled` |
| Repository.MusicRepositoryImpl.RefreshSongs | app/src/main/java/com/snoahtune/app/data/repository/MusicRepositoryImpl.kt:41-45 | afterwards the songs table holds exactly the scanned songs (each id the last scanned with it); favourites and playlists are untouched |
| Repository.MusicRepositoryImpl.GetAlbums | app/src/main/java/com/snoahtune/app/data/repository/MusicRepositoryImpl.kt:47 | the albums of the scan, one per row |
| Repository.MusicRepositoryImpl.GetAllPlaylists | app/src/main/java/com/snoahtune/app/data/repository/MusicRepositoryImpl.kt:49 | exactly the stored playlists, each once, in increasing id order |
| Repository.MusicRepositoryImpl.CreatePlaylist | app/src/main/java/com/snoahtune/app/data/repository/MusicRepositoryImpl.kt:51-53 | one row with the given name and a fresh generated id is added last; the id counter advances by one |
| Repository.MusicRepositoryImpl.DeletePlaylist | app/src/main/java/com/snoahtune/app/data/repository/MusicRepositoryImpl.kt:55-57 | one delete by the playlist's id; cross references and the id counter untouched, so a deleted id is never handed out again |
| Repository.MusicRepositoryImpl.AddSongToPlaylist | app/src/main/java/com/snoahtune/app/data/repository/MusicRepositoryImpl.kt:59-61 | one cross reference with the given ids is added (an existing pair is kept); playlists and the id counter untouched |
| Repository.MusicRepositoryImpl.GetPlaylistWithSongs | app/src/main/java/com/snoahtune/app/data/repository/MusicRepositoryImpl.kt:63-64 | absent exactly for an unknown id; otherwise the stored playlist row with that id and exactly the stored songs cross-referenced to it |
| Repository.MusicRepositoryImpl.RenamePlaylist | app/src/main/java/com/snoahtune/app/data/repository/MusicRepositoryImpl.kt:66-68 | the playlists become `Renamed` with the given id and name; cross references and the id counter untouched |
| Library.KeyLeTotalPreorder | app/src/main/java/com/snoahtune/app/viewmodel/HomeViewModel.kt:56-62 | the key order is total, transitive and antisymmetric |
| Library.LePreorder | app/src/main/java/com/snoahtune/app/viewmodel/HomeViewModel.kt:56-62 | each sort order compares songs by a total preorder |
| Library.TieIffSameKey | app/src/main/java/com/snoahtune/app/viewmodel/HomeViewModel.kt:56-62 | two songs tie under an order exactly when their keys are equal |
| Library.DisplayList | app/src/main/java/com/snoahtune/app/viewmodel/HomeViewModel.kt:45-65 | `filteredSongs` is a sorted permutation of the filtered library |
| Library.BlankQueryKeepsAll | app/src/main/java/com/snoahtune/app/viewmodel/HomeViewModel.kt:49 | a blank query keeps every song |
| Library.DisplayListMembers | app/src/main/java/com/snoahtune/app/viewmodel/HomeViewModel.kt:47-53 | a song is listed exactly when it is in the library and the query is blank or occurs in its title, artist or album ignoring case, and as often as the library holds it |
| Library.DisplayListLength | app/src/main/java/com/snoahtune/app/viewmodel/HomeViewModel.kt:46-64 | the list is no longer than the library; an empty library lists nothing |
| Library.DisplayListOrdered | app/src/main/java/com/snoahtune/app/viewmodel/HomeViewModel.kt:55-63 | each order sorts by its single key: title, date added, duration ascending or descending, artist ascending |
| Library.DisplayListStable | app/src/main/java/com/snoahtune/app/viewmodel/HomeViewModel.kt:56-62 | for ascending and descending orders, songs with equal keys keep their library order |
| Library.NameDescIsReverse | app/src/main/java/com/snoahtune/app/viewmodel/HomeViewModel.kt:56-57 | with pairwise distinct titles the NAME_DESC list is the exact reverse of the NAME_ASC list |
| Library.HomeViewModel.constructor | app/src/main/java/com/snoahtune/app/viewmodel/HomeViewModel.kt:27-43 | initially no songs, query "" and DATE_ADDED_DESC |
| Library.HomeViewModel.FilteredSongs | app/src/main/java/com/snoahtune/app/viewmodel/HomeViewModel.kt:45-65 | the value is `DisplayList` of the current library, query and order: a permutation of the matching library songs (each as often as the library holds it), sorted by the order's key; through `DisplayListStable` equal keys keep library order |
| Library.HomeViewModel.SetSearchQuery | app/src/main/java/com/snoahtune/app/viewmodel/HomeViewModel.kt:94 | only the query changes |
| Library.HomeViewModel.SetSortOrder | app/src/main/java/com/snoahtune/app/viewmodel/HomeViewModel.kt:95 | only the sort order changes |
| Library.HomeViewModel.OnSongsEmitted | app/src/main/java/com/snoahtune/app/viewmodel/HomeViewModel.kt:73-76 | the library becomes the repository's song list |
| Library.HomeViewModel.OnPlaylistsEmitted | app/src/main/java/com/snoahtune/app/viewmodel/HomeViewModel.kt:79 | the playlists become the repository's playlists |
| Library.HomeViewModel.RefreshSongs | app/src/main/java/com/snoahtune/app/viewmodel/HomeViewModel.kt:83-92 | the songs table is rebuilt from the scan, then the albums are loaded |
| Library.HomeViewModel.CreatePlaylist | app/src/main/java/com/snoahtune/app/viewmodel/HomeViewModel.kt:98-101 | a blank name changes nothing, the id counter included; otherwise a playlist named `name.trim()` (non-empty) is added with the next id, and the counter advances by one |
| Library.HomeViewModel.DeletePlaylist | app/src/main/java/com/snoahtune/app/viewmodel/HomeViewModel.kt:103-105 | the playlist's id is deleted; cross references and the id counter untouched |
| Library.HomeViewModel.AddSongToPlaylist | app/src/main/java/com/snoahtune/app/viewmodel/HomeViewModel.kt:107-109 | the pair joins the cross references; playlists and the id counter untouched |
| Library.HomeViewModel.RenamePlaylist | app/src/main/java/com/snoahtune/app/viewmodel/HomeViewModel.kt:111-113 | the playlists become `Renamed`; cross references and the id counter untouched |
| Player.IndexOf | app/src/main/java/com/snoahtune/app/viewmodel/PlayerViewModel.kt:106 | `indexOf`: the first index of the song, or -1 exactly when it is absent |
| Player.StartIndex | app/src/main/java/com/snoahtune/app/viewmodel/PlayerViewModel.kt:106 | the first index of the song, or 0 when absent; a valid index for a non-empty queue |
| Player.MediaItems | app/src/main/java/com/snoahtune/app/viewmodel/PlayerViewModel.kt:107-122 | one media item per queue entry, in queue order |
| Player.MediaItemIdentifiesSong | app/src/main/java/com/snoahtune/app/viewmodel/PlayerViewModel.kt:107-122 | the media id reads back as the song id, the uri is the path, the artwork uri ends with the album id |
| Player.MediaIdsDistinct | app/src/main/java/com/snoahtune/app/viewmodel/PlayerViewModel.kt:109 | songs with different ids get different media ids |
| Player.NextRepeatMode | app/src/main/java/com/snoahtune/app/viewmodel/PlayerViewModel.kt:148-152 | the next mode is one of OFF, ONE, ALL and differs from the current one |
| Player.RepeatCycle | app/src/main/java/com/snoahtune/app/viewmodel/PlayerViewModel.kt:146-154 | three toggles return to each of OFF, ONE, ALL; any other value goes to OFF |
| Player.PitchFor | app/src/main/java/com/snoahtune/app/viewmodel/PlayerViewModel.kt:174 | pitch equals speed in slowed mode and 1 otherwise; it is positive |
| Player.Clamp | app/src/main/java/com/snoahtune/app/viewmodel/PlayerViewModel.kt:87 | `coerceIn` stays within the bounds, leaves values inside them alone, gives the lower bound below the range and the upper bound above it |
| Player.Progress | app/src/main/java/com/snoahtune/app/viewmodel/PlayerViewModel.kt:86-87 | progress lies in [0, 1]; it is position/duration inside a known duration, 0 at or before the start, 1 at or past the end and for any positive position when the duration is unknown |
| Player.Quot | app/src/main/java/com/snoahtune/app/viewmodel/PlayerViewModel.kt:186 | Kotlin's `/` rounds toward zero: the remainder a - q*b lies in [0, b) for a >= 0 and in (-b, 0] for a < 0 |
| Player.Rem | app/src/main/java/com/snoahtune/app/viewmodel/PlayerViewModel.kt:187 | Kotlin's `%` takes the sign of the dividend and satisfies a == q*b + r |
| Player.Pad2 | app/src/main/java/com/snoahtune/app/viewmodel/PlayerViewModel.kt:187 | `%02d` gives two digits for 0..99 |
| Player.MsToStringShape | app/src/main/java/com/snoahtune/app/viewmodel/PlayerViewModel.kt:185-188 | for ms >= 0 the text is the minutes, ':', and two digits of seconds below 60, and it reads back as the whole seconds |
| Player.PlayerViewModel.constructor | app/src/main/java/com/snoahtune/app/viewmodel/PlayerViewModel.kt:28-58 | initial mirrors: nothing playing, progress 0, repeat OFF, speed 1, empty queue |
| Player.PlayerViewModel.Connected | app/src/main/java/com/snoahtune/app/viewmodel/PlayerViewModel.kt:65 | the engine becomes available |
| Player.PlayerViewModel.OnIsPlayingChanged | app/src/main/java/com/snoahtune/app/viewmodel/PlayerViewModel.kt:73 | the mirror follows the engine |
| Player.PlayerViewModel.OnRepeatModeChanged | app/src/main/java/com/snoahtune/app/viewmodel/PlayerViewModel.kt:74 | the mirror follows the engine |
| Player.PlayerViewModel.OnShuffleModeEnabledChanged | app/src/main/java/com/snoahtune/app/viewmodel/PlayerViewModel.kt:75 | the mirror follows the engine |
| Player.PlayerViewModel.OnMediaItemTransition | app/src/main/java/com/snoahtune/app/viewmodel/PlayerViewModel.kt:76 | a transition re-synchronises the current song |
| Player.PlayerViewModel.SyncCurrentSong | app/src/main/java/com/snoahtune/app/viewmodel/PlayerViewModel.kt:93-102 | with an engine index inside the queue the current song becomes that entry and a favourite watch starts; otherwise nothing changes |
| Player.PlayerViewModel.PlaySong | app/src/main/java/com/snoahtune/app/viewmodel/PlayerViewModel.kt:104-132 | queue and current song are set even with no engine or a song not in the queue; an engine gets SetMediaItems(items, start index, TIME_UNSET), Prepare, Play |
| Player.PlayerViewModel.PlayPause | app/src/main/java/com/snoahtune/app/viewmodel/PlayerViewModel.kt:134 | pause exactly when the engine reports playing, else play; no engine, no command |
| Player.PlayerViewModel.SkipNext | app/src/main/java/com/snoahtune/app/viewmodel/PlayerViewModel.kt:135 | one skip command when an engine is connected |
| Player.PlayerViewModel.SkipPrevious | app/src/main/java/com/snoahtune/app/viewmodel/PlayerViewModel.kt:136 | one skip-back command when an engine is connected |
| Player.PlayerViewModel.ToggleShuffle | app/src/main/java/com/snoahtune/app/viewmodel/PlayerViewModel.kt:142-144 | negates the engine's own flag; no engine, no change |
| Player.PlayerViewModel.ToggleRepeat | app/src/main/java/com/snoahtune/app/viewmodel/PlayerViewModel.kt:146-154 | sets the engine to the next repeat mode after its own; no engine, no change |
| Player.PlayerViewModel.ApplyPlaybackParameters | app/src/main/java/com/snoahtune/app/viewmodel/PlayerViewModel.kt:171-176 | with an engine, one (speed, pitch) push with the pitch `PitchFor` selects; without one, nothing |
| Player.PlayerViewModel.SetPlaybackSpeed | app/src/main/java/com/snoahtune/app/viewmodel/PlayerViewModel.kt:156-159 | the speed is stored, then pushed once with its pitch when an engine is connected |
| Player.PlayerViewModel.ToggleSlowedReverb | app/src/main/java/com/snoahtune/app/viewmodel/PlayerViewModel.kt:166-169 | the flag flips, then one push with the new pitch when an engine is connected |
| Player.PlayerViewModel.SampleProgress | app/src/main/java/com/snoahtune/app/viewmodel/PlayerViewModel.kt:84-88 | position copied from the engine and progress set to `Progress(position, duration)`, kept in [0, 1] |
| Player.PlayerViewModel.ToggleFavorite | app/src/main/java/com/snoahtune/app/viewmodel/PlayerViewModel.kt:178-182 | toggles the current song's favourite; nothing without a current song |

## Left out

- **Asynchronous and platform machinery:** `connectToService`, Flow and
  coroutine plumbing (`combine`, `stateIn`, `launch`, `collect`), and the
  `while (true)` / `delay(500)` poller loop. Each is modelled by its effect:
  `Connected`, the `On...` listener and collector methods, and one
  `SampleProgress` step.
- **`isLoading` in `HomeViewModel`** and the `isFavorite` mirror in
  `PlayerViewModel`: both are updated across suspensions or by collectors.
  The collectors are only logged, in `favoriteWatches`.
- **`seekTo`:** it multiplies a float by a duration that may be the
  `TIME_UNSET` sentinel and truncates the result to a Long. Floating-point
  behaviour is out of scope.
- **Floating point in general:** speed, pitch and progress are exact reals. The
  rounding of `Float` division is not modelled.
- **Integer widths:** Long and Int overflow and wrap-around are not modelled
  (ids, sizes, the AUTOINCREMENT counter reaching its maximum, `getCount`
  returning an Int).
- **The content provider query itself:** the `IS_MUSIC` / 30-second selection
  and the order it returns. Rows arrive as given; `SongsOfKeepsDateOrder` takes
  the newest-first order as a precondition.
- **Row order for ties:** SQLite does not fix the order of rows with equal
  `dateAdded` in `getAllSongs`. The model lists them stably, in id order.
- **Relation order:** the order of the songs inside `getPlaylistWithSongs` is
  also not fixed by SQL. The model uses the songs table's order, and its
  contract only states membership.
- Text.LexLeTotal: compares Unicode scalar values. Kotlin's `compareTo`
  compares UTF-16 code units, so strings with characters outside the Basic
  Multilingual Plane may order differently.
- Library.DisplayListMembers: `ignoreCase` is modelled as equality under a
  per-character fold given as a parameter. Kotlin's rule (through
  `regionMatches`) is equality under `c -> lowercaseChar(uppercaseChar(c))`,
  which is one such fold, so the lemmas cover it; what is not modelled is that
  particular function, that is, the Unicode case tables behind it.
- MediaStore.ShouldExcludeIffFragment: `lowercase()` is modelled for ASCII
  letters only. Non-ASCII letters are left unchanged, and none of the eight
  fragments contains one.
- Text.Trim: whitespace is the JVM's `Character.isWhitespace` set plus the
  space separators. It is written out as fixed code-point ranges, not taken
  from a Unicode table.
- Player.PlayerViewModel.SetPlaybackSpeed: requires a positive speed, because
  the engine's playback parameters reject anything else. The screen only
  offers 0.5 to 2.0.
- **The platform's `Player` listener and `MediaController`:** the engine
  record's `isPlaying`, position and duration are whatever the engine reports.
  `play` and `pause` are only logged.
- Player.PlayerViewModel.Connected: also stands for every later change of the
  engine's own state (index after a skip, position, duration, isPlaying), since
  the engine is outside the model; calling it again with the new record replaces
  what the controller reads.
- Player.MsToStringShape: `String.format` uses the default locale, which may
  render other digits than 0-9; the model fixes ASCII digits.
- **Compose UI, widgets, permission flow and dependency wiring:** none of these
  hold logic of the core. `SongItem.kt`'s private copy of `msToString` is not
  part of this model.
