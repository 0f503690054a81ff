/** The app's domain values: a song of the device library and an album. */
module Domain {

  /** A song; `duration` is in milliseconds, `dateAdded` in seconds since the epoch. */
  datatype Song = Song(
    id: int,
    title: string,
    artist: string,
    album: string,
    albumId: int,
    duration: int,
    path: string,
    dateAdded: int,
    size: int)

  datatype Album = Album(id: int, name: string, artist: string, songCount: int)
}
