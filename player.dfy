/**
 * The now-playing screen's controller. It mirrors the playback engine's state
 * into fields the screen reads, and turns the screen's actions into engine
 * commands. The engine is a record that may be absent (not yet connected);
 * every command sent to it is appended to a log.
 */
module Player {
  import opened Wrappers
  import opened Domain
  import opened Text
  import opened Repository

  /** Media3's repeat modes. */
  const REPEAT_MODE_OFF: int := 0
  const REPEAT_MODE_ONE: int := 1
  const REPEAT_MODE_ALL: int := 2

  /** Media3's "no position given" (`C.TIME_UNSET`, `Long.MIN_VALUE + 1`). */
  const TIME_UNSET: int := -9223372036854775807

  const ARTWORK_PREFIX: string := "content://media/external/audio/albumart/"

  /** What the engine reports. `currentMediaItemIndex` is never negative. */
  datatype Engine = Engine(
    isPlaying: bool,
    shuffleModeEnabled: bool,
    repeatMode: int,
    currentMediaItemIndex: nat,
    currentPosition: int,
    duration: int)

  /** A playlist entry as the engine receives it. */
  datatype MediaItem = MediaItem(
    mediaId: string,
    uri: string,
    title: string,
    artist: string,
    albumTitle: string,
    artworkUri: string)

  datatype Command =
    | SetMediaItems(items: seq<MediaItem>, startIndex: int, startPositionMs: int)
    | Prepare
    | Play
    | Pause
    | SeekToNextMediaItem
    | SeekToPreviousMediaItem
    | SetShuffleModeEnabled(enabled: bool)
    | SetRepeatMode(mode: int)
    | SetPlaybackParameters(speed: real, pitch: real)

  // ---------------------------------------------------------------------
  // Pure helpers
  // ---------------------------------------------------------------------

  /** `List.indexOf`: the first index of `x` in `q`, or -1. */
  function IndexOf(q: seq<Song>, x: Song): (i: int)
    ensures -1 <= i < |q|
    ensures i == -1 <==> x !in q
    ensures 0 <= i ==> q[i] == x && forall j :: 0 <= j < i ==> q[j] != x
  {
    if q == [] then -1
    else if q[0] == x then 0
    else
      var k := IndexOf(q[1..], x);
      if k == -1 then -1 else k + 1
  }

  /** The index playback starts from: the first position of the song in the queue, or 0 when
    * the queue does not hold it. For a non-empty queue it is a valid index. */
  function StartIndex(q: seq<Song>, song: Song): (i: nat)
    ensures q != [] ==> i < |q|
    ensures song in q ==> q[i] == song && forall j :: 0 <= j < i ==> q[j] != song
    ensures song !in q ==> i == 0
  {
    var k := IndexOf(q, song);
    if k < 0 then 0 else k
  }

  /** The media item built for a song. */
  function MediaItemOf(s: Song): MediaItem {
    MediaItem(Decimal(s.id), s.path, s.title, s.artist, s.album, ARTWORK_PREFIX + Decimal(s.albumId))
  }

  /** The engine can tell which song an item stands for: its id reads back from the media id,
    * its file from the uri, its album id from the artwork uri. */
  lemma MediaItemIdentifiesSong(s: Song)
    ensures ParseDecimal(MediaItemOf(s).mediaId) == Some(s.id)
    ensures MediaItemOf(s).uri == s.path
    ensures ParseDecimal(MediaItemOf(s).artworkUri[|ARTWORK_PREFIX|..]) == Some(s.albumId)
  {
    DecimalRoundTrip(s.id);
    DecimalRoundTrip(s.albumId);
    assert MediaItemOf(s).artworkUri[|ARTWORK_PREFIX|..] == Decimal(s.albumId);
  }

  /** Songs with different ids get different media ids. */
  lemma MediaIdsDistinct(s: Song, t: Song)
    requires s.id != t.id
    ensures MediaItemOf(s).mediaId != MediaItemOf(t).mediaId
  {
    DecimalRoundTrip(s.id);
    DecimalRoundTrip(t.id);
  }

  /** One media item per queue entry, in queue order. */
  function MediaItems(q: seq<Song>): (items: seq<MediaItem>)
    ensures |items| == |q|
    ensures forall i :: 0 <= i < |q| ==> items[i] == MediaItemOf(q[i])
  {
    seq(|q|, i requires 0 <= i < |q| => MediaItemOf(q[i]))
  }

  /** The repeat mode a toggle selects: OFF to ALL, ALL to ONE, anything else to OFF. */
  function NextRepeatMode(mode: int): (r: int)
    ensures r == REPEAT_MODE_OFF || r == REPEAT_MODE_ONE || r == REPEAT_MODE_ALL
    ensures r != mode
  {
    if mode == REPEAT_MODE_OFF then REPEAT_MODE_ALL
    else if mode == REPEAT_MODE_ALL then REPEAT_MODE_ONE
    else REPEAT_MODE_OFF
  }

  /** Three toggles bring each of the three modes back; an unknown mode is reset to OFF. */
  lemma RepeatCycle(mode: int)
    ensures mode == REPEAT_MODE_OFF || mode == REPEAT_MODE_ONE || mode == REPEAT_MODE_ALL ==>
              NextRepeatMode(NextRepeatMode(NextRepeatMode(mode))) == mode
    ensures mode != REPEAT_MODE_OFF && mode != REPEAT_MODE_ALL ==> NextRepeatMode(mode) == REPEAT_MODE_OFF
  {
  }

  /** The pitch pushed with a speed: the speed itself in slowed mode, 1 otherwise. */
  function PitchFor(speed: real, slowed: bool): (pitch: real)
    requires speed > 0.0
    ensures pitch > 0.0
    ensures slowed ==> pitch == speed
    ensures !slowed ==> pitch == 1.0
  {
    if slowed then speed else 1.0
  }

  /** `coerceIn(lo, hi)`. */
  function Clamp(x: real, lo: real, hi: real): (r: real)
    requires lo <= hi
    ensures lo <= r <= hi
    ensures lo <= x <= hi ==> r == x
    ensures x < lo ==> r == lo
    ensures x > hi ==> r == hi
  {
    if x < lo then lo else if x > hi then hi else x
  }

  /** The progress one sampling step shows: position over duration, kept within [0, 1];
    * an unknown or zero duration is taken as 1 ms. */
  function Progress(position: int, duration: int): (p: real)
    ensures 0.0 <= p <= 1.0
    ensures duration > 0 && 0 <= position <= duration ==> p == position as real / duration as real
    ensures position <= 0 ==> p == 0.0
    ensures duration > 0 && position >= duration ==> p == 1.0
    ensures duration <= 0 && position >= 1 ==> p == 1.0
  {
    var dur := if duration > 0 then duration else 1;
    Clamp(position as real / dur as real, 0.0, 1.0)
  }

  // ---------------------------------------------------------------------
  // msToString
  // ---------------------------------------------------------------------

  /** Kotlin's `/` on `Long`: the quotient rounded toward zero. */
  function Quot(a: int, b: int): (q: int)
    requires b > 0
    ensures a >= 0 ==> 0 <= a - q * b < b
    ensures a < 0 ==> -b < a - q * b <= 0
  {
    if a >= 0 then a / b else -((-a) / b)
  }

  /** Kotlin's `%` on `Long`: the remainder takes the sign of `a`. */
  function Rem(a: int, b: int): (r: int)
    requires b > 0
    ensures a == Quot(a, b) * b + r
    ensures a >= 0 ==> 0 <= r < b
    ensures a < 0 ==> -b < r <= 0
  {
    a - Quot(a, b) * b
  }

  /** `"%02d"`: at least two characters, zero padded; a negative number gets no zero. */
  function Pad2(n: int): (r: string)
    ensures 0 <= n < 100 ==> r == [DigitChar(n / 10), DigitChar(n % 10)]
    ensures n < 0 || 10 <= n ==> r == Decimal(n)
  {
    if 0 <= n < 10 then [DigitChar(0), DigitChar(n)]
    else
      assert 10 <= n < 100 ==> Natural(n) == Natural(n / 10) + [DigitChar(n % 10)] && Natural(n / 10) == [DigitChar(n / 10)];
      Decimal(n)
  }

  lemma TwoDigits(n: int)
    requires 0 <= n < 100
    ensures AllDigits([DigitChar(n / 10), DigitChar(n % 10)])
    ensures ParseNatural([DigitChar(n / 10), DigitChar(n % 10)]) == n
  {
    var r := [DigitChar(n / 10), DigitChar(n % 10)];
    assert r[..1] == [DigitChar(n / 10)] && r[..1][..0] == [];
    assert ParseNatural(r[..1]) == n / 10;
    assert ParseNatural(r) == (n / 10) * 10 + n % 10;
  }

  /** `msToString`: whole seconds, as minutes, a colon and two-digit seconds. */
  function MsToString(ms: int): string {
    var s := Quot(ms, 1000);
    Decimal(Quot(s, 60)) + ":" + Pad2(Rem(s, 60))
  }

  /** Reads back "m:ss" as a number of seconds. */
  function ParseClock(text: string): Option<int> {
    if |text| >= 4 && text[|text| - 3] == ':' && AllDigits(text[|text| - 2..]) && ParseNatural(text[|text| - 2..]) < 60 then
      match ParseDecimal(text[..|text| - 3])
      case Some(m) => if m >= 0 then Some(m * 60 + ParseNatural(text[|text| - 2..])) else None
      case None => None
    else None
  }

  /** For a non-negative time the text is the minutes, a colon and two digits of seconds below 60,
    * and reading it back gives the whole seconds of the input. */
  lemma MsToStringShape(ms: int)
    requires ms >= 0
    ensures var text := MsToString(ms);
      && |text| >= 4
      && text[..|text| - 3] == Decimal((ms / 1000) / 60)
      && text[|text| - 3] == ':'
      && text[|text| - 2..] == [DigitChar((ms / 1000) % 60 / 10), DigitChar((ms / 1000) % 60 % 10)]
      && ParseClock(text) == Some(ms / 1000)
  {
    var s := ms / 1000;
    var m, ss := s / 60, s % 60;
    var text := MsToString(ms);
    TwoDigits(ss);
    var head := Decimal(m);
    assert text == head + ":" + Pad2(ss);
    assert text[..|text| - 3] == head;
    assert text[|text| - 2..] == Pad2(ss);
    DecimalRoundTrip(m);
  }

  // ---------------------------------------------------------------------
  // The controller
  // ---------------------------------------------------------------------

  class PlayerViewModel {
    const repository: MusicRepositoryImpl
    /** The engine, once connected. */
    var player: Option<Engine>
    /** Every command sent to the engine, oldest first. */
    var commands: seq<Command>
    var currentSong: Option<Song>
    var isPlaying: bool
    var progress: real
    var currentPos: int
    var shuffleOn: bool
    var repeatMode: int
    var playbackSpeed: real
    var queue: seq<Song>
    var slowedReverbOn: bool
    /** The song ids whose favourite status a collector was started for, oldest first. */
    var favoriteWatches: seq<int>

    ghost predicate Valid()
      reads this
    {
      0.0 <= progress <= 1.0 && playbackSpeed > 0.0
    }

    constructor(repository: MusicRepositoryImpl)
      ensures Valid() && this.repository == repository
      ensures player == None && commands == [] && currentSong == None && queue == []
      ensures !isPlaying && progress == 0.0 && currentPos == 0 && !shuffleOn && repeatMode == REPEAT_MODE_OFF
      ensures playbackSpeed == 1.0 && !slowedReverbOn && favoriteWatches == []
    {
      this.repository := repository;
      player, commands, currentSong, queue := None, [], None, [];
      isPlaying, progress, currentPos, shuffleOn, repeatMode := false, 0.0, 0, false, REPEAT_MODE_OFF;
      playbackSpeed, slowedReverbOn, favoriteWatches := 1.0, false, [];
    }

    /** The end of `connectToService`: the engine is connected. */
    method Connected(engine: Engine)
      modifies this`player
      ensures player == Some(engine)
    {
      player := Some(engine);
    }

    /** Listener callbacks: the engine reports a change and the mirror follows. */
    method OnIsPlayingChanged(playing: bool)
      modifies this`isPlaying
      ensures isPlaying == playing
    {
      isPlaying := playing;
    }

    method OnRepeatModeChanged(mode: int)
      modifies this`repeatMode
      ensures repeatMode == mode
    {
      repeatMode := mode;
    }

    method OnShuffleModeEnabledChanged(on: bool)
      modifies this`shuffleOn
      ensures shuffleOn == on
    {
      shuffleOn := on;
    }

    method OnMediaItemTransition()
      modifies this`currentSong, this`favoriteWatches
      ensures player.Some? && player.value.currentMediaItemIndex < |queue| ==>
                && currentSong == Some(queue[player.value.currentMediaItemIndex])
                && favoriteWatches == old(favoriteWatches) + [queue[player.value.currentMediaItemIndex].id]
      ensures !(player.Some? && player.value.currentMediaItemIndex < |queue|) ==>
                currentSong == old(currentSong) && favoriteWatches == old(favoriteWatches)
    {
      SyncCurrentSong();
    }

    /** `syncCurrentSong`: the current song becomes the queue entry at the engine's index when that
      * index is inside the queue; with no engine, or an index past the end, nothing changes. */
    method SyncCurrentSong()
      modifies this`currentSong, this`favoriteWatches
      ensures player.Some? && player.value.currentMediaItemIndex < |queue| ==>
                && currentSong == Some(queue[player.value.currentMediaItemIndex])
                && favoriteWatches == old(favoriteWatches) + [queue[player.value.currentMediaItemIndex].id]
      ensures !(player.Some? && player.value.currentMediaItemIndex < |queue|) ==>
                currentSong == old(currentSong) && favoriteWatches == old(favoriteWatches)
    {
      if player.None? {
        return;
      }
      var idx := player.value.currentMediaItemIndex;
      if idx < |queue| {
        var song := queue[idx];
        currentSong := Some(song);
        favoriteWatches := favoriteWatches + [song.id];
      }
    }

    /** `playSong`: the queue and the current song are set whether or not an engine is connected and
      * whether or not the song is in the queue; a connected engine gets the whole queue, starting at
      * the song, in one command, then prepare and play. */
    method PlaySong(song: Song, q: seq<Song>)
      modifies this`queue, this`player, this`commands, this`currentSong, this`favoriteWatches
      ensures queue == q && currentSong == Some(song)
      ensures favoriteWatches == old(favoriteWatches) + [song.id]
      ensures old(player).None? ==> player == None && commands == old(commands)
      ensures old(player).Some? ==>
                && commands == old(commands) + [SetMediaItems(MediaItems(q), StartIndex(q, song), TIME_UNSET), Prepare, Play]
                && player == Some(old(player).value.(currentMediaItemIndex := StartIndex(q, song)))
    {
      queue := q;
      var startIdx := IndexOf(q, song);
      if startIdx < 0 {
        startIdx := 0;
      }
      var items := MediaItems(q);
      if player.Some? {
        commands := commands + [SetMediaItems(items, startIdx, TIME_UNSET), Prepare, Play];
        player := Some(player.value.(currentMediaItemIndex := startIdx));
      }
      currentSong := Some(song);
      favoriteWatches := favoriteWatches + [song.id];
    }

    /** `playPause`: pause when the engine says it is playing, play otherwise. */
    method PlayPause()
      modifies this`commands
      ensures player.None? ==> commands == old(commands)
      ensures player.Some? ==> commands == old(commands) + [if player.value.isPlaying then Pause else Play]
    {
      if player.Some? {
        if player.value.isPlaying {
          commands := commands + [Pause];
        } else {
          commands := commands + [Play];
        }
      }
    }

    method SkipNext()
      modifies this`commands
      ensures commands == if player.Some? then old(commands) + [SeekToNextMediaItem] else old(commands)
    {
      if player.Some? {
        commands := commands + [SeekToNextMediaItem];
      }
    }

    method SkipPrevious()
      modifies this`commands
      ensures commands == if player.Some? then old(commands) + [SeekToPreviousMediaItem] else old(commands)
    {
      if player.Some? {
        commands := commands + [SeekToPreviousMediaItem];
      }
    }

    /** `toggleShuffle`: negates the engine's own flag, not the mirror. */
    method ToggleShuffle()
      modifies this`player, this`commands
      ensures old(player).None? ==> player == None && commands == old(commands)
      ensures old(player).Some? ==>
                && player == Some(old(player).value.(shuffleModeEnabled := !old(player).value.shuffleModeEnabled))
                && commands == old(commands) + [SetShuffleModeEnabled(!old(player).value.shuffleModeEnabled)]
    {
      if player.Some? {
        var on := !player.value.shuffleModeEnabled;
        player := Some(player.value.(shuffleModeEnabled := on));
        commands := commands + [SetShuffleModeEnabled(on)];
      }
    }

    /** `toggleRepeat`: the next mode after the engine's own mode, not the mirror's. */
    method ToggleRepeat()
      modifies this`player, this`commands
      ensures old(player).None? ==> player == None && commands == old(commands)
      ensures old(player).Some? ==>
                && player == Some(old(player).value.(repeatMode := NextRepeatMode(old(player).value.repeatMode)))
                && commands == old(commands) + [SetRepeatMode(NextRepeatMode(old(player).value.repeatMode))]
    {
      if player.Some? {
        var mode := NextRepeatMode(player.value.repeatMode);
        player := Some(player.value.(repeatMode := mode));
        commands := commands + [SetRepeatMode(mode)];
      }
    }

    /** `applyPlaybackParameters`: one (speed, pitch) push, pitch following speed only in slowed mode. */
    method ApplyPlaybackParameters()
      requires Valid()
      modifies this`commands
      ensures player.None? ==> commands == old(commands)
      ensures player.Some? ==> commands == old(commands) + [SetPlaybackParameters(playbackSpeed, PitchFor(playbackSpeed, slowedReverbOn))]
    {
      var speed := playbackSpeed;
      var pitch := if slowedReverbOn then speed else 1.0;
      if player.Some? {
        commands := commands + [SetPlaybackParameters(speed, pitch)];
      }
    }

    /** `setPlaybackSpeed`: the speed is stored first, then pushed with its pitch. */
    method SetPlaybackSpeed(speed: real)
      requires Valid() && speed > 0.0
      modifies this`playbackSpeed, this`commands
      ensures Valid() && playbackSpeed == speed
      ensures player.None? ==> commands == old(commands)
      ensures player.Some? ==> commands == old(commands) + [SetPlaybackParameters(speed, PitchFor(speed, slowedReverbOn))]
    {
      playbackSpeed := speed;
      ApplyPlaybackParameters();
    }

    /** `toggleSlowedReverb`: flips the flag, then pushes the speed with the pitch the new flag selects. */
    method ToggleSlowedReverb()
      requires Valid()
      modifies this`slowedReverbOn, this`commands
      ensures Valid() && slowedReverbOn == !old(slowedReverbOn)
      ensures player.None? ==> commands == old(commands)
      ensures player.Some? ==> commands == old(commands) + [SetPlaybackParameters(playbackSpeed, PitchFor(playbackSpeed, slowedReverbOn))]
    {
      slowedReverbOn := !slowedReverbOn;
      ApplyPlaybackParameters();
    }

    /** One step of the progress poller: the position is copied and the progress recomputed;
      * with no engine nothing changes. */
    method SampleProgress()
      requires Valid()
      modifies this`currentPos, this`progress
      ensures Valid()
      ensures player.None? ==> currentPos == old(currentPos) && progress == old(progress)
      ensures player.Some? ==>
                && currentPos == player.value.currentPosition
                && progress == Progress(player.value.currentPosition, player.value.duration)
    {
      if player.Some? {
        var p := player.value;
        currentPos := p.currentPosition;
        var dur := if p.duration > 0 then p.duration else 1;
        var ratio := p.currentPosition as real / dur as real;
        progress := if ratio < 0.0 then 0.0 else if ratio > 1.0 then 1.0 else ratio;
      }
    }

    /** `toggleFavorite`: toggles the current song's favourite row; with no current song nothing happens. */
    method ToggleFavorite()
      requires repository.Valid()
      modifies repository.favoriteDao
      ensures repository.Valid()
      ensures currentSong.None? ==> repository.favoriteDao.rows == old(repository.favoriteDao.rows)
      ensures currentSong.Some? ==> repository.favoriteDao.rows == Toggled(old(repository.favoriteDao.rows), currentSong.value.id)
    {
      if currentSong.Some? {
        repository.ToggleFavorite(currentSong.value.id);
      }
    }
  }
}
