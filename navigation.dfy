/**
 * The button handlers of Navigation.cpp: the centre button selects what the
 * cursor is on (a menu item, play/pause, or an entry of the library
 * browser), the left button goes back. The library walk `autoNext` lives in
 * module Playback, next to `playCurrentSong`, which it calls.
 */
module Navigation {
  import opened Wrappers
  import opened State
  import opened Menus
  import opened Indexer
  import opened Audio
  import opened Playback

  /** Buttons by index, as the button driver numbers them. */
  const CenterButton: int := 0
  const LeftButton: int := 3

  const StatusPrefix: string := "Status:"

  /** Centre on one of the four menu screens: act on the item under the cursor. */
  function AfterSelectMenuItem(s: DeviceState): DeviceState
    requires IsMenuScreen(s.screen.currentMenu)
  {
    var S := s.screen;
    if !(0 <= S.menuIndex < |S.currentMenuItems|) then s
    else
      var item := S.currentMenuItems[S.menuIndex];
      if !item.enabled then s
      else if S.currentMenu == BluetoothMenu then
        var s1 := if item.text == "Reconnect" then AfterReconnectBluetooth(s)
                  else if item.text == "Disconnect" then AfterDisconnectBluetooth(s)
                  else s;
        if StatusPrefix <= item.text then s1
        else Redrawn(AfterNavigateToMenu(Redrawn(AfterBuildBluetoothMenu(s1)), item.action))
      else if S.currentMenu == SettingsMenu then s
      else Redrawn(AfterNavigateToMenu(s, item.action))
  }

  /** Centre on Now Playing: pause a running track, resume a paused one. */
  function AfterTogglePlayback(s: DeviceState): DeviceState {
    var s1 := if s.audio.playerState == Playing then AfterPausePlayback(s)
              else if s.audio.playerState == Paused then AfterResumePlayback(s)
              else s;
    Redrawn(s1)
  }

  /**
   * Centre on a library screen: open the artist's albums, open the album's
   * songs, or play the song. A cursor off its list, or a list that fails to
   * load, leaves the screen where it is.
   */
  function AfterBrowseSelect(s: DeviceState, m: Media): DeviceState
    requires Walkable(s)
  {
    var L := s.library;
    match s.screen.currentMenu
    case ArtistList =>
      if !(0 <= L.artistIndex < |L.artists|) then s
      else
        var artist := L.artists[L.artistIndex];
        var s1 := AfterBuildAlbumList(s.(library := L.(currentArtist := artist)), m.catalog, artist);
        if !AlbumListLoads(m.catalog, artist) then s1
        else
          var s2 := AfterNavigateToMenu(s1, AlbumList);
          s2.(library := s2.library.(albumIndex := 0))
    case AlbumList =>
      if !(0 <= L.albumIndex < |L.albums|) then s
      else
        var album := L.albums[L.albumIndex];
        var s1 := AfterBuildSongList(s.(library := L.(currentAlbum := album)), m.catalog, L.currentArtist, album);
        if !SongListLoads(m.catalog, L.currentArtist, album) then s1
        else
          var s2 := AfterNavigateToMenu(s1, SongList);
          s2.(library := s2.library.(songIndex := 0))
    case SongList =>
      if !(0 <= L.songIndex < |L.songs|) then s
      else AfterNavigateToMenu(AfterPlayCurrentSong(s, m, false), NowPlaying)
    case _ => s
  }

  function AfterHandleCenter(s: DeviceState, m: Media): DeviceState
    requires Walkable(s)
  {
    if IsMenuScreen(s.screen.currentMenu) then AfterSelectMenuItem(s)
    else if s.screen.currentMenu == NowPlaying then AfterTogglePlayback(s)
    else Redrawn(AfterBrowseSelect(s, m))
  }

  function AfterHandleLeft(s: DeviceState): DeviceState {
    Redrawn(AfterNavigateBack(s))
  }

  function AfterHandleButtonPress(s: DeviceState, m: Media, button: int): DeviceState
    requires Walkable(s)
  {
    if button == CenterButton then AfterHandleCenter(s, m)
    else if button == LeftButton then AfterHandleLeft(s)
    else s
  }

  // ---------------------------------------------------------------------------
  // Properties of the handlers
  // ---------------------------------------------------------------------------

  /** Only the centre and left buttons do anything. */
  lemma ButtonDispatch(s: DeviceState, m: Media, button: int)
    requires Walkable(s)
    ensures button != CenterButton && button != LeftButton ==> AfterHandleButtonPress(s, m, button) == s
    ensures button == LeftButton ==>
      AfterHandleButtonPress(s, m, button).screen.displayNeedsUpdate &&
      AfterHandleButtonPress(s, m, button).library == s.library &&
      AfterHandleButtonPress(s, m, button).audio == s.audio
  {
  }

  /**
   * On the main or music menu, an enabled item under the cursor opens the
   * screen it names, recording the menu left behind; a disabled item, or a
   * cursor off the list, does nothing.
   */
  lemma SelectOpensItem(s: DeviceState)
    requires s.screen.currentMenu == MainMenu || s.screen.currentMenu == MusicMenu
    ensures var r := AfterSelectMenuItem(s);
      var S := s.screen;
      (!(0 <= S.menuIndex < |S.currentMenuItems|) || !S.currentMenuItems[S.menuIndex].enabled ==> r == s) &&
      (0 <= S.menuIndex < |S.currentMenuItems| && S.currentMenuItems[S.menuIndex].enabled ==>
         var item := S.currentMenuItems[S.menuIndex];
         r.screen.currentMenu == item.action && r.screen.displayNeedsUpdate &&
         r.screen.menuStack ==
           (if item.action == S.currentMenu then S.menuStack
            else S.menuStack + [MenuStackEntry(S.currentMenu, S.menuIndex)]) &&
         r.audio == s.audio && r.library == s.library && r.link == s.link)
  {
  }

  /** "Now Playing" on the main menu is disabled while stopped, so selecting it does nothing. */
  lemma NowPlayingNeedsATrack(s: DeviceState)
    requires s.screen.currentMenu == MainMenu && s.audio.playerState == Stopped
    requires s.screen.currentMenuItems == MainMenuItems(s.audio.playerState) && s.screen.menuIndex == 1
    ensures AfterSelectMenuItem(s) == s
  {
  }

  /** The settings items are not implemented: selecting one changes nothing. */
  lemma SettingsSelectIsInert(s: DeviceState)
    requires s.screen.currentMenu == SettingsMenu
    ensures AfterSelectMenuItem(s) == s
  {
  }

  /**
   * On the Bluetooth menu the item under the cursor acts by its label,
   * whichever link state the list was built for (a connection report does
   * not rebuild it, so "Reconnect" can show while connected). "Reconnect"
   * and "Disconnect" issue their request exactly when the request's own
   * guard holds (no link tracked, a link tracked), "Disconnect" stopping
   * playback first; a status line, a disabled item or a cursor off the list
   * does nothing. After any other item the menu is rebuilt for the current
   * link state with the cursor at the top, and (every Bluetooth item leading
   * back to the Bluetooth menu) the back-stack is kept.
   */
  lemma BluetoothMenuSelect(s: DeviceState)
    requires s.screen.currentMenu == BluetoothMenu
    requires 0 <= s.screen.menuIndex < |s.screen.currentMenuItems|
    requires var item := s.screen.currentMenuItems[s.screen.menuIndex];
      item.enabled && !(StatusPrefix <= item.text)
    ensures var r := AfterSelectMenuItem(s);
      var item := s.screen.currentMenuItems[s.screen.menuIndex];
      var connected := s.link.bluetoothConnected;
      (item.text == "Reconnect" ==>
         r.link.linkCommands == s.link.linkCommands + (if connected then [] else [ReconnectLink]) &&
         r.audio == s.audio) &&
      (item.text == "Disconnect" ==>
         r.link.linkCommands == s.link.linkCommands + (if connected then [DisconnectLink] else []) &&
         (connected ==> r.audio.playerState == Stopped) && (!connected ==> r.audio == s.audio)) &&
      (item.text != "Reconnect" && item.text != "Disconnect" ==>
         r.link == s.link && r.audio == s.audio) &&
      r.link.bluetoothConnected == connected && r.library == s.library &&
      r.screen.displayNeedsUpdate &&
      (item.action == BluetoothMenu ==>
         r.screen.currentMenu == BluetoothMenu && r.screen.menuStack == s.screen.menuStack &&
         r.screen.currentMenuItems == BluetoothMenuItems(connected) && r.screen.menuIndex == 0)
  {
    var item := s.screen.currentMenuItems[s.screen.menuIndex];
    var s1 := if item.text == "Reconnect" then AfterReconnectBluetooth(s)
              else if item.text == "Disconnect" then AfterDisconnectBluetooth(s)
              else s;
    var t := Redrawn(AfterBuildBluetoothMenu(s1));
    assert AfterSelectMenuItem(s) == Redrawn(AfterNavigateToMenu(t, item.action));
    NavigateToMenuFrame(t, item.action);
  }

  /** The rest of the Bluetooth menu does nothing: a status line, a disabled item, a cursor off the list. */
  lemma BluetoothMenuInertItems(s: DeviceState)
    requires s.screen.currentMenu == BluetoothMenu
    requires var S := s.screen;
      !(0 <= S.menuIndex < |S.currentMenuItems|) || !S.currentMenuItems[S.menuIndex].enabled ||
      StatusPrefix <= S.currentMenuItems[S.menuIndex].text
    ensures AfterSelectMenuItem(s) == s
  {
    var S := s.screen;
    if 0 <= S.menuIndex < |S.currentMenuItems| {
      var text := S.currentMenuItems[S.menuIndex].text;
      if StatusPrefix <= text {
        assert text[0] == 'S';
        assert text != "Reconnect" && text != "Disconnect";
      }
    }
  }

  /** A "Reconnect" line left on screen after the link came up issues no request; the menu is rebuilt. */
  lemma StaleReconnectIsInert(s: DeviceState)
    requires s.screen.currentMenu == BluetoothMenu && s.link.bluetoothConnected
    requires s.screen.currentMenuItems == BluetoothMenuItems(false) && s.screen.menuIndex == 1
    ensures var r := AfterSelectMenuItem(s);
      r.link == s.link && r.audio == s.audio &&
      r.screen.currentMenuItems == BluetoothMenuItems(true) && r.screen.menuIndex == 0
  {
    assert !(StatusPrefix <= "Reconnect") by { assert "Reconnect"[0] != StatusPrefix[0]; }
    BluetoothMenuSelect(s);
  }

  /** On Now Playing, centre flips Playing and Paused (Paused with the link down becomes Stopped). */
  lemma ToggleFlipsPlayback(s: DeviceState)
    ensures var r := AfterTogglePlayback(s);
      r.screen.displayNeedsUpdate && r.library == s.library && r.link == s.link &&
      r.audio.buffered == s.audio.buffered &&
      (s.audio.playerState == Playing ==> r.audio.playerState == Paused) &&
      (s.audio.playerState == Paused && s.link.bluetoothConnected ==> r.audio.playerState == Playing) &&
      (s.audio.playerState == Paused && !s.link.bluetoothConnected ==> r.audio.playerState == Stopped) &&
      (s.audio.playerState == Stopped ==> r == Redrawn(s))
  {
  }

  /** Pressing centre twice on Now Playing, with the link up, only leaves a redraw pending. */
  lemma ToggleTwiceRestores(s: DeviceState, m: Media)
    requires Walkable(s) && s.screen.currentMenu == NowPlaying && s.link.bluetoothConnected
    requires s.audio.playerState != Stopped
    ensures AfterHandleCenter(AfterHandleCenter(s, m), m) == Redrawn(s)
  {
  }

  /**
   * Selecting an artist whose albums load opens the album list at its first
   * album, with that artist current and the artist list on the back-stack;
   * when they do not load, the screen stays on the artist list.
   */
  lemma SelectArtist(s: DeviceState, m: Media)
    requires Walkable(s) && s.screen.currentMenu == ArtistList
    requires 0 <= s.library.artistIndex < |s.library.artists|
    ensures var r := AfterHandleCenter(s, m);
      var artist := s.library.artists[s.library.artistIndex];
      r.library.currentArtist == artist && r.screen.displayNeedsUpdate &&
      r.library.artistIndex == s.library.artistIndex && r.audio == s.audio &&
      (AlbumListLoads(m.catalog, artist) ==>
         r.screen.currentMenu == AlbumList && r.library.albumIndex == 0 &&
         r.library.albums == AlbumNamesByArtist(m.catalog, artist) &&
         r.screen.menuStack == s.screen.menuStack + [MenuStackEntry(ArtistList, s.screen.menuIndex)]) &&
      (!AlbumListLoads(m.catalog, artist) ==>
         r.screen.currentMenu == ArtistList && r.library.albums == [] &&
         r.screen.menuStack == s.screen.menuStack)
  {
  }

  /**
   * Going back after opening an artist returns to the artist list, with the
   * menu cursor and back-stack as they were and the cursor still on that artist.
   */
  lemma SelectArtistThenBack(s: DeviceState, m: Media)
    requires Walkable(s) && s.screen.currentMenu == ArtistList
    requires 0 <= s.library.artistIndex < |s.library.artists|
    requires AlbumListLoads(m.catalog, s.library.artists[s.library.artistIndex])
    ensures var r := AfterHandleLeft(AfterHandleCenter(s, m));
      r.screen.currentMenu == ArtistList && r.screen.menuIndex == s.screen.menuIndex &&
      r.screen.menuStack == s.screen.menuStack &&
      r.library.artistIndex == s.library.artistIndex &&
      r.library.currentArtist == s.library.artists[s.library.artistIndex]
  {
    var t := AfterHandleCenter(s, m);
    NavigateBackPopsOne(t);
  }

  /**
   * Selecting an album whose songs load opens the song list at its first
   * song, with that album current and the album list on the back-stack.
   */
  lemma SelectAlbum(s: DeviceState, m: Media)
    requires Walkable(s) && s.screen.currentMenu == AlbumList
    requires 0 <= s.library.albumIndex < |s.library.albums|
    ensures var r := AfterHandleCenter(s, m);
      var album := s.library.albums[s.library.albumIndex];
      r.library.currentAlbum == album && r.screen.displayNeedsUpdate && r.audio == s.audio &&
      (SongListLoads(m.catalog, s.library.currentArtist, album) ==>
         r.screen.currentMenu == SongList && r.library.songIndex == 0 &&
         r.library.songs == SongsByAlbum(m.catalog, s.library.currentArtist, album) &&
         r.screen.menuStack == s.screen.menuStack + [MenuStackEntry(AlbumList, s.screen.menuIndex)]) &&
      (!SongListLoads(m.catalog, s.library.currentArtist, album) ==>
         r.screen.currentMenu == AlbumList && r.library.songs == [])
  {
  }

  /**
   * Selecting a song with the link up starts that song or a later one (or
   * reaches the end of the library), and always shows Now Playing.
   */
  lemma SelectSong(s: DeviceState, m: Media)
    requires Walkable(s) && PlaybackCoherent(s) && s.link.bluetoothConnected
    requires s.screen.currentMenu == SongList
    requires 0 <= s.library.songIndex < |s.library.songs|
    ensures var r := AfterHandleCenter(s, m);
      r.screen.currentMenu == NowPlaying && r.screen.displayNeedsUpdate &&
      (StartedTrack(r, m) || r.audio.playerState == Stopped) && AtOrAfter(s, r) && PlaybackCoherent(r)
    ensures var r := AfterHandleCenter(s, m);
      var song := s.library.songs[s.library.songIndex];
      song.path != "" && song.path in m.openable ==>
        r.library == s.library.(currentTitle := song.title) && r.audio.playerState == Playing &&
        r.audio.decoderPath == Some(song.path)
    ensures var r := AfterHandleCenter(s, m);
      var song := s.library.songs[s.library.songIndex];
      (song.path == "" || song.path !in m.openable) && StartedTrack(r, m) ==> StrictlyAfter(s, r)
  {
    PlayCurrentSongOutcome(s, m, false);
    var song := s.library.songs[s.library.songIndex];
    if song.path != "" && song.path in m.openable {
      PlayableSongStartsInPlace(s, m, false);
    } else {
      UnplayableSongAdvances(s, m, false);
    }
  }

  /** The centre button keeps playback coherent. */
  lemma HandleCenterKeepsCoherence(s: DeviceState, m: Media)
    requires Walkable(s) && PlaybackCoherent(s)
    ensures PlaybackCoherent(AfterHandleCenter(s, m))
  {
    if IsMenuScreen(s.screen.currentMenu) {
      SelectMenuItemKeepsCoherence(s);
    } else if s.screen.currentMenu != NowPlaying {
      BrowseSelectKeepsCoherence(s, m);
    }
  }

  lemma SelectMenuItemKeepsCoherence(s: DeviceState)
    requires IsMenuScreen(s.screen.currentMenu) && PlaybackCoherent(s)
    ensures PlaybackCoherent(AfterSelectMenuItem(s))
  {
    var S := s.screen;
    if 0 <= S.menuIndex < |S.currentMenuItems| && S.currentMenuItems[S.menuIndex].enabled {
      var item := S.currentMenuItems[S.menuIndex];
      if S.currentMenu == BluetoothMenu {
        var s1 := if item.text == "Reconnect" then AfterReconnectBluetooth(s)
                  else if item.text == "Disconnect" then AfterDisconnectBluetooth(s)
                  else s;
        assert PlaybackCoherent(s1);
        NavigateToMenuFrame(Redrawn(AfterBuildBluetoothMenu(s1)), item.action);
      } else if S.currentMenu != SettingsMenu {
        NavigateToMenuFrame(s, item.action);
      }
    }
  }

  lemma BrowseSelectKeepsCoherence(s: DeviceState, m: Media)
    requires Walkable(s) && PlaybackCoherent(s)
    ensures PlaybackCoherent(AfterBrowseSelect(s, m))
  {
    var L := s.library;
    if s.screen.currentMenu == SongList && 0 <= L.songIndex < |L.songs| && s.link.bluetoothConnected {
      PlayCurrentSongOutcome(s, m, false);
    }
  }

  /**
   * Every button press keeps the invariant: playback stays coherent and the
   * library cursor never goes below the first entry of a list.
   */
  lemma HandleButtonPressKeepsInvariant(s: DeviceState, m: Media, button: int)
    requires Invariant(s)
    ensures Invariant(AfterHandleButtonPress(s, m, button))
  {
    if button == CenterButton {
      HandleCenterKeepsInvariant(s, m);
    } else if button == LeftButton && s.screen.menuStack != [] {
      NavigateBackPopsOne(s);
    }
  }

  lemma HandleCenterKeepsInvariant(s: DeviceState, m: Media)
    requires Invariant(s)
    ensures Invariant(AfterHandleCenter(s, m))
  {
    HandleCenterKeepsCoherence(s, m);
    var L := s.library;
    if IsMenuScreen(s.screen.currentMenu) {
      SelectMenuItemKeepsLibrary(s);
    } else if s.screen.currentMenu == SongList && 0 <= L.songIndex < |L.songs| {
      PlayCurrentSongKeepsInvariant(s, m, false);
      NavigateToMenuFrame(AfterPlayCurrentSong(s, m, false), NowPlaying);
    } else if s.screen.currentMenu == ArtistList && 0 <= L.artistIndex < |L.artists| {
      var artist := L.artists[L.artistIndex];
      NavigateToMenuFrame(AfterBuildAlbumList(s.(library := L.(currentArtist := artist)), m.catalog, artist), AlbumList);
    } else if s.screen.currentMenu == AlbumList && 0 <= L.albumIndex < |L.albums| {
      var album := L.albums[L.albumIndex];
      NavigateToMenuFrame(AfterBuildSongList(s.(library := L.(currentAlbum := album)), m.catalog, L.currentArtist, album), SongList);
    }
  }

  /** Menu selections leave the library alone. */
  lemma SelectMenuItemKeepsLibrary(s: DeviceState)
    requires IsMenuScreen(s.screen.currentMenu)
    ensures AfterSelectMenuItem(s).library == s.library
  {
    var S := s.screen;
    if 0 <= S.menuIndex < |S.currentMenuItems| && S.currentMenuItems[S.menuIndex].enabled {
      var item := S.currentMenuItems[S.menuIndex];
      if S.currentMenu == BluetoothMenu {
        var s1 := if item.text == "Reconnect" then AfterReconnectBluetooth(s)
                  else if item.text == "Disconnect" then AfterDisconnectBluetooth(s)
                  else s;
        NavigateToMenuFrame(Redrawn(AfterBuildBluetoothMenu(s1)), item.action);
      } else if S.currentMenu != SettingsMenu {
        NavigateToMenuFrame(s, item.action);
      }
    }
  }

  // ---------------------------------------------------------------------------
  // The handlers on the device
  // ---------------------------------------------------------------------------

  method SelectMenuItem(d: Device)
    requires d.Valid() && IsMenuScreen(d.screen.currentMenu)
    modifies d, d.buffer
    ensures d.Valid()
    ensures d.State() == AfterSelectMenuItem(old(d.State()))
  {
    if !(0 <= d.screen.menuIndex < |d.screen.currentMenuItems|) {
      return;
    }
    var item := d.screen.currentMenuItems[d.screen.menuIndex];
    if !item.enabled {
      return;
    }
    if d.screen.currentMenu == BluetoothMenu {
      if item.text == "Reconnect" {
        ReconnectBluetooth(d);
      } else if item.text == "Disconnect" {
        DisconnectBluetooth(d);
      }
      if StatusPrefix <= item.text {
        return;
      }
      BuildBluetoothMenu(d);
      d.screen := d.screen.(displayNeedsUpdate := true);
    }
    if d.screen.currentMenu == SettingsMenu {
      return;
    }
    NavigateToMenu(d, item.action);
    d.screen := d.screen.(displayNeedsUpdate := true);
  }

  method TogglePlayback(d: Device)
    modifies d
    ensures d.State() == AfterTogglePlayback(old(d.State()))
  {
    if d.playerState == Playing {
      PausePlayback(d);
    } else if d.playerState == Paused {
      ResumePlayback(d);
    }
    d.screen := d.screen.(displayNeedsUpdate := true);
  }

  method BrowseSelect(d: Device, m: Media)
    requires d.Valid() && Walkable(d.State())
    modifies d, d.buffer
    ensures d.Valid()
    ensures d.State() == AfterBrowseSelect(old(d.State()), m)
  {
    if d.screen.currentMenu == ArtistList {
      if 0 <= d.library.artistIndex < |d.library.artists| {
        d.library := d.library.(currentArtist := d.library.artists[d.library.artistIndex]);
        var ok := BuildAlbumList(d, m.catalog, d.library.currentArtist);
        if ok {
          NavigateToMenu(d, AlbumList);
          d.library := d.library.(albumIndex := 0);
        }
      }
    } else if d.screen.currentMenu == AlbumList {
      if 0 <= d.library.albumIndex < |d.library.albums| {
        d.library := d.library.(currentAlbum := d.library.albums[d.library.albumIndex]);
        var ok := BuildSongList(d, m.catalog, d.library.currentArtist, d.library.currentAlbum);
        if ok {
          NavigateToMenu(d, SongList);
          d.library := d.library.(songIndex := 0);
        }
      }
    } else if d.screen.currentMenu == SongList {
      if 0 <= d.library.songIndex < |d.library.songs| {
        PlayCurrentSong(d, m, false);
        NavigateToMenu(d, NowPlaying);
      }
    }
  }

  method HandleCenter(d: Device, m: Media)
    requires d.Valid() && Walkable(d.State())
    modifies d, d.buffer
    ensures d.Valid()
    ensures d.State() == AfterHandleCenter(old(d.State()), m)
  {
    if IsMenuScreen(d.screen.currentMenu) {
      SelectMenuItem(d);
      return;
    }
    if d.screen.currentMenu == NowPlaying {
      TogglePlayback(d);
      return;
    }
    BrowseSelect(d, m);
    d.screen := d.screen.(displayNeedsUpdate := true);
  }

  method HandleLeft(d: Device)
    modifies d
    ensures d.State() == AfterHandleLeft(old(d.State()))
  {
    NavigateBack(d);
    d.screen := d.screen.(displayNeedsUpdate := true);
  }

  method HandleButtonPress(d: Device, m: Media, button: int)
    requires d.Valid() && Walkable(d.State())
    modifies d, d.buffer
    ensures d.Valid()
    ensures d.State() == AfterHandleButtonPress(old(d.State()), m, button)
  {
    if button == CenterButton {
      HandleCenter(d, m);
    } else if button == LeftButton {
      HandleLeft(d);
    }
  }
}
