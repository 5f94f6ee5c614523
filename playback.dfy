/**
 * Starting a track and walking the library: playCurrentSong, startPlayback
 * and audioLoop (AudioManager.cpp) together with autoNext (Navigation.cpp).
 * playCurrentSong and autoNext call each other, so they live in one module.
 * The audio player is foreign: which paths it can open and what one decode
 * step produces are inputs.
 */
module Playback {
  import opened Wrappers
  import opened ByteQueues
  import opened State
  import opened Menus
  import opened Indexer
  import opened Audio

  /** What the storage holds: the database's answers and the files the player can open. */
  datatype Media = Media(catalog: Catalog, openable: set<string>)

  /**
   * One decode step of the player: it either throws, or reports how many
   * bytes it copied and hands decoded audio to the transport buffer.
   */
  datatype CopyStep = CopyFault | Copied(count: nat, decoded: seq<byte>)

  /**
   * The library walk reads `albums[albumIndex + 1]` and `artists[artistIndex + 1]`
   * once it has checked that they are below the list's size; that they are not
   * below zero is what callers must ensure.
   */
  predicate Walkable(s: DeviceState) {
    -1 <= s.library.artistIndex && -1 <= s.library.albumIndex
  }

  function Redrawn(s: DeviceState): DeviceState {
    s.(screen := s.screen.(displayNeedsUpdate := true))
  }

  /** Past the last song: stop, show Now Playing and leave the cursor where it is. */
  function AfterEndOfLibrary(s: DeviceState): DeviceState {
    Redrawn(AfterNavigateToMenu(AfterStopPlayback(s), NowPlaying))
  }

  function AfterPlayCurrentSong(s: DeviceState, m: Media, updateDisplay: bool): DeviceState
    requires Walkable(s)
    decreases |s.library.artists| - s.library.artistIndex,
              |s.library.albums| - s.library.albumIndex,
              |s.library.songs| - s.library.songIndex, 2
  {
    var L := s.library;
    if !s.link.bluetoothConnected then
      s.(library := L.(currentTitle := "BT Disconnected"))
    else if L.songIndex < 0 || L.songIndex >= |L.songs| then
      s
    else
      var song := L.songs[L.songIndex];
      if song.path == "" then
        AfterAutoNext(Redrawn(s.(library := L.(currentTitle := "Error: No path"))), m)
      else
        var s1 := s.(library := L.(currentTitle := song.title),
                     audio := s.audio.(decoderPath := None));
        if song.path !in m.openable then
          AfterAutoNext(Redrawn(s1.(library := s1.library.(currentTitle := "Error: Cannot open"))), m)
        else
          var s2 := s1.(audio := s1.audio.(decoderPath := Some(song.path), playerState := Playing));
          var s3 := if s2.screen.currentMenu == MainMenu then AfterBuildMainMenu(s2) else s2;
          if updateDisplay then Redrawn(s3) else s3
  }

  /** autoNext: the next song of the album, else the next album, else the next artist, else the end. */
  function AfterAutoNext(s: DeviceState, m: Media): DeviceState
    requires Walkable(s)
    decreases |s.library.artists| - s.library.artistIndex,
              |s.library.albums| - s.library.albumIndex,
              |s.library.songs| - s.library.songIndex, 1
  {
    var L := s.library;
    if L.songIndex + 1 < |L.songs| then
      AfterPlayCurrentSong(s.(library := L.(songIndex := L.songIndex + 1)), m, true)
    else if L.albumIndex + 1 < |L.albums| then
      AfterNextAlbum(s, m)
    else if L.artistIndex + 1 < |L.artists| then
      AfterNextArtist(s, m)
    else
      AfterEndOfLibrary(s)
  }

  /** The state the walk reaches on entering album `i` of the current artist. */
  function EnteredAlbum(s: DeviceState, m: Media, i: int): DeviceState
    requires 0 <= i < |s.library.albums|
  {
    var album := s.library.albums[i];
    AfterBuildSongList(s.(library := s.library.(albumIndex := i, songIndex := 0, currentAlbum := album)),
                       m.catalog, s.library.currentArtist, album)
  }

  /** The album branch of autoNext: load the next album's songs, play the first or keep advancing. */
  function AfterNextAlbum(s: DeviceState, m: Media): DeviceState
    requires Walkable(s) && s.library.albumIndex + 1 < |s.library.albums|
    decreases |s.library.artists| - s.library.artistIndex,
              |s.library.albums| - s.library.albumIndex,
              |s.library.songs| - s.library.songIndex, 0
  {
    var i := s.library.albumIndex + 1;
    var s2 := EnteredAlbum(s, m, i);
    if SongListLoads(m.catalog, s.library.currentArtist, s.library.albums[i]) then
      AfterPlayCurrentSong(s2, m, true)
    else
      AfterAutoNext(s2, m)
  }

  /**
   * The artist branch of autoNext: load the next artist's albums and the
   * first album's songs; when either fails to load the walk ends there.
   */
  function AfterNextArtist(s: DeviceState, m: Media): DeviceState
    requires Walkable(s) && s.library.artistIndex + 1 < |s.library.artists|
    decreases |s.library.artists| - s.library.artistIndex,
              |s.library.albums| - s.library.albumIndex,
              |s.library.songs| - s.library.songIndex, 0
  {
    var L := s.library;
    var artist := L.artists[L.artistIndex + 1];
    var s1 := s.(library := L.(artistIndex := L.artistIndex + 1, albumIndex := 0, songIndex := 0,
                               currentArtist := artist));
    var s2 := AfterBuildAlbumList(s1, m.catalog, artist);
    if !AlbumListLoads(m.catalog, artist) then AfterEndOfLibrary(s2)
    else
      var album := s2.library.albums[0];
      var s3 := s2.(library := s2.library.(currentAlbum := album));
      var s4 := AfterBuildSongList(s3, m.catalog, artist, album);
      if SongListLoads(m.catalog, artist, album) then AfterPlayCurrentSong(s4, m, true)
      else AfterEndOfLibrary(s4)
  }

  function AfterStartPlayback(s: DeviceState, m: Media): DeviceState
    requires Walkable(s)
  {
    if !s.link.bluetoothConnected || s.audio.playerState == Playing then s
    else
      var r := AfterPlayCurrentSong(s, m, true);
      r.(audio := r.audio.(playerState := Playing))
  }

  function AfterAudioLoop(s: DeviceState, m: Media, step: CopyStep): DeviceState
    requires Walkable(s)
  {
    if s.audio.playerState == Playing && s.link.bluetoothConnected then
      match step
      case CopyFault => s
      case Copied(count, decoded) =>
        var s1 := s.(audio := s.audio.(buffered := Enqueued(s.audio.buffered, decoded, BufferSize)));
        if count == 0 then AfterAutoNext(s1, m) else s1
    else s
  }

  // ---------------------------------------------------------------------------
  // Outcomes of the walk
  // ---------------------------------------------------------------------------

  /** A track is running: the cursor is on a song whose file the player has open, and its title shows. */
  predicate StartedTrack(r: DeviceState, m: Media) {
    var L := r.library;
    r.audio.playerState == Playing &&
    0 <= L.songIndex < |L.songs| &&
    L.songs[L.songIndex].path in m.openable &&
    r.audio.decoderPath == Some(L.songs[L.songIndex].path) &&
    L.currentTitle == L.songs[L.songIndex].title
  }

  /** The walk ran off the end of the library. */
  predicate ReachedEnd(r: DeviceState) {
    r.audio.playerState == Stopped && r.audio.buffered == [] &&
    r.screen.currentMenu == NowPlaying && r.screen.displayNeedsUpdate
  }

  /** `r`'s cursor is at or after `s`'s, in library order (artist, then album, then song). */
  predicate AtOrAfter(s: DeviceState, r: DeviceState) {
    var a, b := s.library, r.library;
    a.artistIndex < b.artistIndex ||
    (a.artistIndex == b.artistIndex &&
      (a.albumIndex < b.albumIndex || (a.albumIndex == b.albumIndex && a.songIndex <= b.songIndex)))
  }

  /** `r`'s cursor is strictly after `s`'s, in library order. */
  predicate StrictlyAfter(s: DeviceState, r: DeviceState) {
    var a, b := s.library, r.library;
    a.artistIndex < b.artistIndex ||
    (a.artistIndex == b.artistIndex &&
      (a.albumIndex < b.albumIndex || (a.albumIndex == b.albumIndex && a.songIndex < b.songIndex)))
  }

  /**
   * Playing the song under the cursor, with the link up, either starts a
   * track or (after skipping every song that cannot be played) reaches the
   * end of the library. The cursor never moves backwards, the artist list
   * and the link are untouched, and playback stays coherent.
   */
  lemma {:induction false} PlayCurrentSongOutcome(s: DeviceState, m: Media, updateDisplay: bool)
    requires Walkable(s) && PlaybackCoherent(s) && s.link.bluetoothConnected
    requires 0 <= s.library.songIndex < |s.library.songs|
    ensures var r := AfterPlayCurrentSong(s, m, updateDisplay);
      (StartedTrack(r, m) || ReachedEnd(r)) && PlaybackCoherent(r) && AtOrAfter(s, r) &&
      r.link == s.link && r.library.artists == s.library.artists
    decreases |s.library.artists| - s.library.artistIndex,
              |s.library.albums| - s.library.albumIndex,
              |s.library.songs| - s.library.songIndex, 2
  {
    var L := s.library;
    var song := L.songs[L.songIndex];
    if song.path == "" {
      var t := Redrawn(s.(library := L.(currentTitle := "Error: No path")));
      AutoNextOutcome(t, m);
    } else if song.path !in m.openable {
      var t := Redrawn(s.(library := L.(currentTitle := "Error: Cannot open"),
                          audio := s.audio.(decoderPath := None)));
      AutoNextOutcome(t, m);
    }
  }

  /** What advancing promises: a later track, or the end of the library. */
  ghost predicate Advanced(s: DeviceState, r: DeviceState, m: Media) {
    (StartedTrack(r, m) || ReachedEnd(r)) && PlaybackCoherent(r) && AtOrAfter(s, r) &&
    (StartedTrack(r, m) ==> StrictlyAfter(s, r)) &&
    r.link == s.link && r.library.artists == s.library.artists
  }

  /**
   * Advancing, with the link up, either starts a later track or reaches the
   * end of the library; the cursor never moves backwards, and a started
   * track is strictly after the one the walk left.
   */
  lemma {:induction false} AutoNextOutcome(s: DeviceState, m: Media)
    requires Walkable(s) && PlaybackCoherent(s) && s.link.bluetoothConnected
    requires -1 <= s.library.songIndex
    ensures Advanced(s, AfterAutoNext(s, m), m)
    decreases |s.library.artists| - s.library.artistIndex,
              |s.library.albums| - s.library.albumIndex,
              |s.library.songs| - s.library.songIndex, 1
  {
    var L := s.library;
    if L.songIndex + 1 < |L.songs| {
      PlayCurrentSongOutcome(s.(library := L.(songIndex := L.songIndex + 1)), m, true);
    } else if L.albumIndex + 1 < |L.albums| {
      NextAlbumOutcome(s, m);
    } else if L.artistIndex + 1 < |L.artists| {
      NextArtistOutcome(s, m);
    }
  }

  lemma {:induction false} NextAlbumOutcome(s: DeviceState, m: Media)
    requires Walkable(s) && PlaybackCoherent(s) && s.link.bluetoothConnected
    requires s.library.albumIndex + 1 < |s.library.albums|
    ensures Advanced(s, AfterNextAlbum(s, m), m)
    decreases |s.library.artists| - s.library.artistIndex,
              |s.library.albums| - s.library.albumIndex,
              |s.library.songs| - s.library.songIndex, 0
  {
    var i := s.library.albumIndex + 1;
    var s2 := EnteredAlbum(s, m, i);
    if SongListLoads(m.catalog, s.library.currentArtist, s.library.albums[i]) {
      PlayCurrentSongOutcome(s2, m, true);
    } else {
      AutoNextOutcome(s2, m);
    }
  }

  lemma {:induction false} NextArtistOutcome(s: DeviceState, m: Media)
    requires Walkable(s) && PlaybackCoherent(s) && s.link.bluetoothConnected
    requires s.library.artistIndex + 1 < |s.library.artists|
    ensures Advanced(s, AfterNextArtist(s, m), m)
    decreases |s.library.artists| - s.library.artistIndex,
              |s.library.albums| - s.library.albumIndex,
              |s.library.songs| - s.library.songIndex, 0
  {
    var L := s.library;
    var artist := L.artists[L.artistIndex + 1];
    var s1 := s.(library := L.(artistIndex := L.artistIndex + 1, albumIndex := 0, songIndex := 0,
                               currentArtist := artist));
    var s2 := AfterBuildAlbumList(s1, m.catalog, artist);
    if AlbumListLoads(m.catalog, artist) {
      var album := s2.library.albums[0];
      var s3 := s2.(library := s2.library.(currentAlbum := album));
      var s4 := AfterBuildSongList(s3, m.catalog, artist, album);
      if SongListLoads(m.catalog, artist, album) {
        PlayCurrentSongOutcome(s4, m, true);
      }
    }
  }

  /**
   * A song under the cursor that has a path the player can open is played
   * where it is: its title shows, its file is open and playback is Playing,
   * with the library cursor and lists unchanged. Only the main menu, if it
   * is the screen shown, is rebuilt so that "Now Playing" becomes enabled.
   */
  lemma PlayableSongStartsInPlace(s: DeviceState, m: Media, updateDisplay: bool)
    requires Walkable(s) && s.link.bluetoothConnected
    requires 0 <= s.library.songIndex < |s.library.songs|
    requires var song := s.library.songs[s.library.songIndex];
      song.path != "" && song.path in m.openable
    ensures var r := AfterPlayCurrentSong(s, m, updateDisplay);
      var song := s.library.songs[s.library.songIndex];
      r.library == s.library.(currentTitle := song.title) &&
      r.audio == s.audio.(playerState := Playing, decoderPath := Some(song.path)) &&
      StartedTrack(r, m) && r.link == s.link && r.controls == s.controls &&
      r.screen.currentMenu == s.screen.currentMenu && r.screen.menuStack == s.screen.menuStack &&
      (s.screen.currentMenu == MainMenu ==>
         r.screen.currentMenuItems == MainMenuItems(Playing) && r.screen.menuIndex == 0) &&
      (updateDisplay ==> r.screen.displayNeedsUpdate)
  {
  }

  /**
   * A song without a path, or whose file the player cannot open, puts an
   * error in the title, asks for a redraw and hands over to autoNext (a file
   * that fails to open has already closed the previous one). Whatever track
   * that starts lies strictly after the song that failed.
   */
  lemma UnplayableSongAdvances(s: DeviceState, m: Media, updateDisplay: bool)
    requires Walkable(s) && s.link.bluetoothConnected
    requires 0 <= s.library.songIndex < |s.library.songs|
    ensures var r := AfterPlayCurrentSong(s, m, updateDisplay);
      var song := s.library.songs[s.library.songIndex];
      (song.path == "" ==>
         r == AfterAutoNext(Redrawn(s.(library := s.library.(currentTitle := "Error: No path"))), m)) &&
      (song.path != "" && song.path !in m.openable ==>
         r == AfterAutoNext(Redrawn(s.(library := s.library.(currentTitle := "Error: Cannot open"),
                                       audio := s.audio.(decoderPath := None))), m)) &&
      (PlaybackCoherent(s) && (song.path == "" || song.path !in m.openable) ==>
         (StartedTrack(r, m) ==> StrictlyAfter(s, r)))
  {
    var L := s.library;
    var song := L.songs[L.songIndex];
    if PlaybackCoherent(s) && song.path == "" {
      AutoNextOutcome(Redrawn(s.(library := L.(currentTitle := "Error: No path"))), m);
    } else if PlaybackCoherent(s) && song.path != "" && song.path !in m.openable {
      AutoNextOutcome(Redrawn(s.(library := L.(currentTitle := "Error: Cannot open"),
                                 audio := s.audio.(decoderPath := None))), m);
    }
  }

  /**
   * Past the last song of the artist's last album, when the next artist's
   * albums and its first album's songs load, the walk moves to that artist's
   * first album and first song, with both lists reloaded, and plays from there.
   */
  lemma ArtistCrossingPlaysNextArtist(s: DeviceState, m: Media)
    requires Walkable(s)
    requires s.library.songIndex + 1 >= |s.library.songs|
    requires s.library.albumIndex + 1 >= |s.library.albums|
    requires s.library.artistIndex + 1 < |s.library.artists|
    requires var artist := s.library.artists[s.library.artistIndex + 1];
      AlbumListLoads(m.catalog, artist) &&
      SongListLoads(m.catalog, artist, AlbumNamesByArtist(m.catalog, artist)[0])
    ensures var artist := s.library.artists[s.library.artistIndex + 1];
      var albums := AlbumNamesByArtist(m.catalog, artist);
      AfterAutoNext(s, m) ==
      AfterPlayCurrentSong(
        s.(library := s.library.(artistIndex := s.library.artistIndex + 1, albumIndex := 0, songIndex := 0,
                                 currentArtist := artist, currentAlbum := albums[0], albums := albums,
                                 songs := SongsByAlbum(m.catalog, artist, albums[0]))),
        m, true)
  {
  }

  // ---------------------------------------------------------------------------
  // The walk keeps the invariant
  // ---------------------------------------------------------------------------

  /**
   * Playing the current song keeps the invariant and the tracked link state,
   * whether or not the link is up; so do the walk's three other steps below.
   */
  lemma {:induction false} PlayCurrentSongKeepsInvariant(s: DeviceState, m: Media, updateDisplay: bool)
    requires Invariant(s)
    ensures var r := AfterPlayCurrentSong(s, m, updateDisplay);
      Invariant(r) && r.link.bluetoothConnected == s.link.bluetoothConnected
    decreases |s.library.artists| - s.library.artistIndex,
              |s.library.albums| - s.library.albumIndex,
              |s.library.songs| - s.library.songIndex, 2
  {
    var L := s.library;
    if s.link.bluetoothConnected && 0 <= L.songIndex < |L.songs| {
      var song := L.songs[L.songIndex];
      if song.path == "" {
        AutoNextKeepsInvariant(Redrawn(s.(library := L.(currentTitle := "Error: No path"))), m);
      } else if song.path !in m.openable {
        AutoNextKeepsInvariant(Redrawn(s.(library := L.(currentTitle := "Error: Cannot open"),
                                          audio := s.audio.(decoderPath := None))), m);
      }
    }
  }

  lemma {:induction false} AutoNextKeepsInvariant(s: DeviceState, m: Media)
    requires Invariant(s)
    ensures var r := AfterAutoNext(s, m);
      Invariant(r) && r.link.bluetoothConnected == s.link.bluetoothConnected
    decreases |s.library.artists| - s.library.artistIndex,
              |s.library.albums| - s.library.albumIndex,
              |s.library.songs| - s.library.songIndex, 1
  {
    var L := s.library;
    if L.songIndex + 1 < |L.songs| {
      PlayCurrentSongKeepsInvariant(s.(library := L.(songIndex := L.songIndex + 1)), m, true);
    } else if L.albumIndex + 1 < |L.albums| {
      NextAlbumKeepsInvariant(s, m);
    } else if L.artistIndex + 1 < |L.artists| {
      NextArtistKeepsInvariant(s, m);
    } else {
      NavigateToMenuFrame(AfterStopPlayback(s), NowPlaying);
    }
  }

  lemma {:induction false} NextAlbumKeepsInvariant(s: DeviceState, m: Media)
    requires Invariant(s) && s.library.albumIndex + 1 < |s.library.albums|
    ensures var r := AfterNextAlbum(s, m);
      Invariant(r) && r.link.bluetoothConnected == s.link.bluetoothConnected
    decreases |s.library.artists| - s.library.artistIndex,
              |s.library.albums| - s.library.albumIndex,
              |s.library.songs| - s.library.songIndex, 0
  {
    var i := s.library.albumIndex + 1;
    var s2 := EnteredAlbum(s, m, i);
    if SongListLoads(m.catalog, s.library.currentArtist, s.library.albums[i]) {
      PlayCurrentSongKeepsInvariant(s2, m, true);
    } else {
      AutoNextKeepsInvariant(s2, m);
    }
  }

  lemma {:induction false} NextArtistKeepsInvariant(s: DeviceState, m: Media)
    requires Invariant(s) && s.library.artistIndex + 1 < |s.library.artists|
    ensures var r := AfterNextArtist(s, m);
      Invariant(r) && r.link.bluetoothConnected == s.link.bluetoothConnected
    decreases |s.library.artists| - s.library.artistIndex,
              |s.library.albums| - s.library.albumIndex,
              |s.library.songs| - s.library.songIndex, 0
  {
    var L := s.library;
    var artist := L.artists[L.artistIndex + 1];
    var s1 := s.(library := L.(artistIndex := L.artistIndex + 1, albumIndex := 0, songIndex := 0,
                               currentArtist := artist));
    var s2 := AfterBuildAlbumList(s1, m.catalog, artist);
    if !AlbumListLoads(m.catalog, artist) {
      NavigateToMenuFrame(AfterStopPlayback(s2), NowPlaying);
    } else {
      var album := s2.library.albums[0];
      var s3 := s2.(library := s2.library.(currentAlbum := album));
      var s4 := AfterBuildSongList(s3, m.catalog, artist, album);
      if SongListLoads(m.catalog, artist, album) {
        PlayCurrentSongKeepsInvariant(s4, m, true);
      } else {
        NavigateToMenuFrame(AfterStopPlayback(s4), NowPlaying);
      }
    }
  }

  /** With the link down, playing only puts "BT Disconnected" in the title. */
  lemma PlayWhileDisconnected(s: DeviceState, m: Media, updateDisplay: bool)
    requires Walkable(s) && !s.link.bluetoothConnected
    ensures var r := AfterPlayCurrentSong(s, m, updateDisplay);
      r.library.currentTitle == "BT Disconnected" &&
      r.(library := s.library) == s && r.library.(currentTitle := s.library.currentTitle) == s.library
  {
  }

  /**
   * A following song in the same album that the player can open is played
   * by moving the song cursor by one and nothing else in the library.
   */
  lemma NextSongInAlbum(s: DeviceState, m: Media)
    requires Walkable(s) && s.link.bluetoothConnected
    requires 0 <= s.library.songIndex && s.library.songIndex + 1 < |s.library.songs|
    requires var next := s.library.songs[s.library.songIndex + 1];
      next.path != "" && next.path in m.openable
    ensures var r := AfterAutoNext(s, m);
      var next := s.library.songs[s.library.songIndex + 1];
      r.library == s.library.(songIndex := s.library.songIndex + 1, currentTitle := next.title) &&
      r.audio.playerState == Playing && r.audio.decoderPath == Some(next.path) &&
      r.link == s.link && r.screen.displayNeedsUpdate
  {
  }

  /**
   * Within an artist, a run of `k` albums whose song lists do not load is
   * skipped: the walk plays the first song of the next album that does load.
   */
  lemma {:induction false} SkipsUnloadableAlbums(s: DeviceState, m: Media, k: nat)
    requires Walkable(s)
    requires s.library.songIndex + 1 >= |s.library.songs|
    requires s.library.albumIndex + k + 1 < |s.library.albums|
    requires forall j :: s.library.albumIndex < j <= s.library.albumIndex + k ==>
               !SongListLoads(m.catalog, s.library.currentArtist, s.library.albums[j])
    requires SongListLoads(m.catalog, s.library.currentArtist, s.library.albums[s.library.albumIndex + k + 1])
    ensures AfterAutoNext(s, m) ==
            AfterPlayCurrentSong(EnteredAlbum(s, m, s.library.albumIndex + k + 1), m, true)
    decreases k
  {
    if k > 0 {
      var t := EnteredAlbum(s, m, s.library.albumIndex + 1);
      assert AfterAutoNext(s, m) == AfterAutoNext(t, m);
      SkipsUnloadableAlbums(t, m, k - 1);
      assert EnteredAlbum(t, m, t.library.albumIndex + (k - 1) + 1) ==
             EnteredAlbum(s, m, s.library.albumIndex + k + 1);
    }
  }

  /** At the last song of the last album of the last artist, the walk ends where it is. */
  lemma EndOfLibraryAtLastPosition(s: DeviceState, m: Media)
    requires Walkable(s) && PlaybackCoherent(s)
    requires s.library.songIndex + 1 >= |s.library.songs|
    requires s.library.albumIndex + 1 >= |s.library.albums|
    requires s.library.artistIndex + 1 >= |s.library.artists|
    ensures var r := AfterAutoNext(s, m);
      r == AfterEndOfLibrary(s) && ReachedEnd(r) && r.library == s.library &&
      r.screen.menuStack == (if s.screen.currentMenu == NowPlaying then s.screen.menuStack
                             else s.screen.menuStack + [MenuStackEntry(s.screen.currentMenu, s.screen.menuIndex)])
  {
  }

  /**
   * Crossing into the next artist does not skip that artist when its album
   * list, or its first album's song list, fails to load: the walk ends there,
   * with the cursor on the new artist's first album and song.
   */
  lemma ArtistCrossingEndsOnUnloadableArtist(s: DeviceState, m: Media)
    requires Walkable(s) && PlaybackCoherent(s)
    requires s.library.songIndex + 1 >= |s.library.songs|
    requires s.library.albumIndex + 1 >= |s.library.albums|
    requires s.library.artistIndex + 1 < |s.library.artists|
    requires var artist := s.library.artists[s.library.artistIndex + 1];
      !AlbumListLoads(m.catalog, artist) ||
      !SongListLoads(m.catalog, artist, AlbumNamesByArtist(m.catalog, artist)[0])
    ensures var r := AfterAutoNext(s, m);
      ReachedEnd(r) &&
      r.library.artistIndex == s.library.artistIndex + 1 &&
      r.library.albumIndex == 0 && r.library.songIndex == 0
  {
  }

  /**
   * startPlayback does nothing with the link down or while Playing.
   * Otherwise it sets Playing after playCurrentSong returns, whatever that
   * did: with the cursor off the song list nothing is opened, yet the state
   * is Playing.
   */
  lemma StartPlaybackSetsPlaying(s: DeviceState, m: Media)
    requires Walkable(s)
    ensures var r := AfterStartPlayback(s, m);
      (!s.link.bluetoothConnected || s.audio.playerState == Playing ==> r == s) &&
      (s.link.bluetoothConnected && s.audio.playerState != Playing ==> r.audio.playerState == Playing) &&
      (s.link.bluetoothConnected && s.audio.playerState != Playing &&
       !(0 <= s.library.songIndex < |s.library.songs|) ==>
         r == s.(audio := s.audio.(playerState := Playing)))
  {
  }

  /**
   * The feed step acts only while Playing with the link up. A throwing
   * decode step changes nothing; otherwise the decoded audio is appended to
   * the buffer as far as it fits, and a step that copied nothing ends the
   * track: the walk moves on to a strictly later track or to the end of the
   * library.
   */
  lemma AudioLoopStep(s: DeviceState, m: Media, step: CopyStep)
    requires Walkable(s)
    ensures var r := AfterAudioLoop(s, m, step);
      (!(s.audio.playerState == Playing && s.link.bluetoothConnected) || step == CopyFault ==> r == s) &&
      (s.audio.playerState == Playing && s.link.bluetoothConnected && step.Copied? && step.count > 0 ==>
         r == s.(audio := s.audio.(buffered := Enqueued(s.audio.buffered, step.decoded, BufferSize))) &&
         s.audio.buffered <= r.audio.buffered)
    ensures var r := AfterAudioLoop(s, m, step);
      s.audio.playerState == Playing && s.link.bluetoothConnected && step.Copied? && step.count == 0 ==>
        var s1 := s.(audio := s.audio.(buffered := Enqueued(s.audio.buffered, step.decoded, BufferSize)));
        r == AfterAutoNext(s1, m) &&
        (PlaybackCoherent(s) && -1 <= s.library.songIndex ==> Advanced(s1, r, m))
  {
    if s.audio.playerState == Playing && s.link.bluetoothConnected && step.Copied? && step.count == 0 {
      var s1 := s.(audio := s.audio.(buffered := Enqueued(s.audio.buffered, step.decoded, BufferSize)));
      if PlaybackCoherent(s) && -1 <= s.library.songIndex {
        AutoNextOutcome(s1, m);
      }
    }
  }

  /** Starting playback and the feed step keep the invariant. */
  lemma PlaybackKeepsInvariant(s: DeviceState, m: Media, step: CopyStep)
    requires Invariant(s)
    ensures Invariant(AfterStartPlayback(s, m))
    ensures Invariant(AfterAudioLoop(s, m, step))
  {
    PlayCurrentSongKeepsInvariant(s, m, true);
    if s.audio.playerState == Playing && s.link.bluetoothConnected && step.Copied? {
      var s1 := s.(audio := s.audio.(buffered := Enqueued(s.audio.buffered, step.decoded, BufferSize)));
      AutoNextKeepsInvariant(s1, m);
    }
  }

  // ---------------------------------------------------------------------------
  // The handlers on the device
  // ---------------------------------------------------------------------------

  method EndOfLibrary(d: Device)
    requires d.Valid()
    modifies d, d.buffer
    ensures d.Valid()
    ensures d.State() == AfterEndOfLibrary(old(d.State()))
  {
    StopPlayback(d);
    NavigateToMenu(d, NowPlaying);
    d.screen := d.screen.(displayNeedsUpdate := true);
  }

  method PlayCurrentSong(d: Device, m: Media, updateDisplay: bool)
    requires d.Valid() && Walkable(d.State())
    modifies d, d.buffer
    ensures d.Valid()
    ensures d.State() == AfterPlayCurrentSong(old(d.State()), m, updateDisplay)
    decreases |d.library.artists| - d.library.artistIndex,
              |d.library.albums| - d.library.albumIndex,
              |d.library.songs| - d.library.songIndex, 2
  {
    if !d.link.bluetoothConnected {
      d.library := d.library.(currentTitle := "BT Disconnected");
      return;
    }
    if d.library.songIndex < 0 || d.library.songIndex >= |d.library.songs| {
      return;
    }
    var song := d.library.songs[d.library.songIndex];
    if song.path == "" {
      d.library := d.library.(currentTitle := "Error: No path");
      d.screen := d.screen.(displayNeedsUpdate := true);
      AutoNext(d, m);
      return;
    }
    d.library := d.library.(currentTitle := song.title);
    if d.decoderPath.Some? {
      d.decoderPath := None;
    }
    if song.path !in m.openable {
      d.library := d.library.(currentTitle := "Error: Cannot open");
      d.screen := d.screen.(displayNeedsUpdate := true);
      AutoNext(d, m);
      return;
    }
    d.decoderPath := Some(song.path);
    d.playerState := Playing;
    if d.screen.currentMenu == MainMenu {
      BuildMainMenu(d);
    }
    if updateDisplay {
      d.screen := d.screen.(displayNeedsUpdate := true);
    }
  }

  method AutoNext(d: Device, m: Media)
    requires d.Valid() && Walkable(d.State())
    modifies d, d.buffer
    ensures d.Valid()
    ensures d.State() == AfterAutoNext(old(d.State()), m)
    decreases |d.library.artists| - d.library.artistIndex,
              |d.library.albums| - d.library.albumIndex,
              |d.library.songs| - d.library.songIndex, 1
  {
    if d.library.songIndex + 1 < |d.library.songs| {
      d.library := d.library.(songIndex := d.library.songIndex + 1);
      PlayCurrentSong(d, m, true);
    } else if d.library.albumIndex + 1 < |d.library.albums| {
      NextAlbum(d, m);
    } else if d.library.artistIndex + 1 < |d.library.artists| {
      NextArtist(d, m);
    } else {
      EndOfLibrary(d);
    }
  }

  method NextAlbum(d: Device, m: Media)
    requires d.Valid() && Walkable(d.State()) && d.library.albumIndex + 1 < |d.library.albums|
    modifies d, d.buffer
    ensures d.Valid()
    ensures d.State() == AfterNextAlbum(old(d.State()), m)
    decreases |d.library.artists| - d.library.artistIndex,
              |d.library.albums| - d.library.albumIndex,
              |d.library.songs| - d.library.songIndex, 0
  {
    d.library := d.library.(albumIndex := d.library.albumIndex + 1);
    d.library := d.library.(songIndex := 0);
    d.library := d.library.(currentAlbum := d.library.albums[d.library.albumIndex]);
    var ok := BuildSongList(d, m.catalog, d.library.currentArtist, d.library.currentAlbum);
    if ok {
      PlayCurrentSong(d, m, true);
    } else {
      AutoNext(d, m);
    }
  }

  method NextArtist(d: Device, m: Media)
    requires d.Valid() && Walkable(d.State()) && d.library.artistIndex + 1 < |d.library.artists|
    modifies d, d.buffer
    ensures d.Valid()
    ensures d.State() == AfterNextArtist(old(d.State()), m)
    decreases |d.library.artists| - d.library.artistIndex,
              |d.library.albums| - d.library.albumIndex,
              |d.library.songs| - d.library.songIndex, 0
  {
    d.library := d.library.(artistIndex := d.library.artistIndex + 1);
    d.library := d.library.(albumIndex := 0);
    d.library := d.library.(songIndex := 0);
    d.library := d.library.(currentArtist := d.library.artists[d.library.artistIndex]);
    var ok := BuildAlbumList(d, m.catalog, d.library.currentArtist);
    if ok {
      d.library := d.library.(currentAlbum := d.library.albums[0]);
      ok := BuildSongList(d, m.catalog, d.library.currentArtist, d.library.currentAlbum);
      if ok {
        PlayCurrentSong(d, m, true);
        return;
      }
    }
    EndOfLibrary(d);
  }

  method StartPlayback(d: Device, m: Media)
    requires d.Valid() && Walkable(d.State())
    modifies d, d.buffer
    ensures d.Valid()
    ensures d.State() == AfterStartPlayback(old(d.State()), m)
  {
    if !d.link.bluetoothConnected {
      return;
    }
    if d.playerState == Playing {
      return;
    }
    PlayCurrentSong(d, m, true);
    d.playerState := Playing;
  }

  method AudioLoop(d: Device, m: Media, step: CopyStep)
    requires d.Valid() && Walkable(d.State())
    modifies d, d.buffer
    ensures d.Valid()
    ensures d.State() == AfterAudioLoop(old(d.State()), m, step)
  {
    if d.playerState == Playing && d.link.bluetoothConnected {
      match step
      case CopyFault =>
        return;
      case Copied(count, decoded) =>
        var _ := d.buffer.Write(decoded);
        if count == 0 {
          AutoNext(d, m);
        }
    }
  }
}
