/**
 * The menu system of state.cpp: the four menu builders, navigation to a
 * screen (pushing the screen left behind on the back-stack) and navigation
 * back (popping it).
 */
module Menus {
  import opened State

  function MainMenuItems(ps: PlayerState): seq<MenuItem> {
    [ MenuItem("Music", MusicMenu, true),
      MenuItem("Now Playing", NowPlaying, ps == Playing || ps == Paused),
      MenuItem("Settings", SettingsMenu, true),
      MenuItem("Bluetooth", BluetoothMenu, true) ]
  }

  function MusicMenuItems(): seq<MenuItem> {
    [ MenuItem("Artists", ArtistList, true),
      MenuItem("Albums", AlbumList, true),
      MenuItem("All Songs", SongList, true),
      MenuItem("Playlists", MusicMenu, true) ]
  }

  function SettingsMenuItems(): seq<MenuItem> {
    [ MenuItem("Shuffle: Off", SettingsMenu, true),
      MenuItem("Repeat: Off", SettingsMenu, true),
      MenuItem("About", SettingsMenu, true) ]
  }

  function BluetoothMenuItems(connected: bool): seq<MenuItem> {
    if connected then
      [ MenuItem("Status: Connected", BluetoothMenu, true),
        MenuItem("Disconnect", BluetoothMenu, true) ]
    else
      [ MenuItem("Status: Disconnected", BluetoothMenu, true),
        MenuItem("Reconnect", BluetoothMenu, true) ]
  }

  function AfterBuildMainMenu(s: DeviceState): DeviceState {
    s.(screen := s.screen.(currentMenuItems := MainMenuItems(s.audio.playerState), menuIndex := 0))
  }

  function AfterBuildMusicMenu(s: DeviceState): DeviceState {
    s.(screen := s.screen.(currentMenuItems := MusicMenuItems(), menuIndex := 0))
  }

  function AfterBuildSettingsMenu(s: DeviceState): DeviceState {
    s.(screen := s.screen.(currentMenuItems := SettingsMenuItems(), menuIndex := 0))
  }

  function AfterBuildBluetoothMenu(s: DeviceState): DeviceState {
    s.(screen := s.screen.(currentMenuItems := BluetoothMenuItems(s.link.bluetoothConnected),
                           menuIndex := 0))
  }

  /** The builder a menu screen is drawn with; other screens are left as they are. */
  function Rebuilt(s: DeviceState, menu: MenuType): DeviceState {
    match menu
    case MainMenu => AfterBuildMainMenu(s)
    case MusicMenu => AfterBuildMusicMenu(s)
    case SettingsMenu => AfterBuildSettingsMenu(s)
    case BluetoothMenu => AfterBuildBluetoothMenu(s)
    case _ => s
  }

  /** Entering `menu`: what navigateToMenu does after recording where it came from. */
  function Entered(s: DeviceState, menu: MenuType): DeviceState {
    var s1 := s.(screen := s.screen.(currentMenu := menu));
    match menu
    case ArtistList => s1.(screen := s1.screen.(menuIndex := s.library.artistIndex))
    case AlbumList => s1.(screen := s1.screen.(menuIndex := s.library.albumIndex))
    case SongList => s1.(screen := s1.screen.(menuIndex := s.library.songIndex))
    case NowPlaying => s1
    case _ => Rebuilt(s1, menu)
  }

  function AfterNavigateToMenu(s: DeviceState, menu: MenuType): DeviceState {
    var here := MenuStackEntry(s.screen.currentMenu, s.screen.menuIndex);
    var pushed := if s.screen.currentMenu != menu
                  then s.(screen := s.screen.(menuStack := s.screen.menuStack + [here]))
                  else s;
    Entered(pushed, menu)
  }

  function AfterNavigateBack(s: DeviceState): DeviceState {
    var stack := s.screen.menuStack;
    if stack == [] then
      AfterBuildMainMenu(s.(screen := s.screen.(currentMenu := MainMenu)))
    else
      var last := stack[|stack| - 1];
      Rebuilt(s.(screen := s.screen.(menuStack := stack[..|stack| - 1],
                                     currentMenu := last.menu, menuIndex := last.index)),
              last.menu)
  }

  // ---------------------------------------------------------------------------
  // Properties of the menu functions
  // ---------------------------------------------------------------------------

  /** The main menu always offers the same four entries; only "Now Playing" can be disabled. */
  lemma MainMenuShape(s: DeviceState)
    ensures var items := AfterBuildMainMenu(s).screen.currentMenuItems;
      |items| == 4 &&
      items[0].text == "Music" && items[1].text == "Now Playing" &&
      items[2].text == "Settings" && items[3].text == "Bluetooth" &&
      items[0].enabled && items[2].enabled && items[3].enabled &&
      (items[1].enabled <==> s.audio.playerState != Stopped)
  {
  }

  /** The Bluetooth menu shows the link status first and offers the opposite action second. */
  lemma BluetoothMenuShape(s: DeviceState)
    ensures var items := AfterBuildBluetoothMenu(s).screen.currentMenuItems;
      |items| == 2 &&
      (s.link.bluetoothConnected ==>
         items[0].text == "Status: Connected" && items[1].text == "Disconnect") &&
      (!s.link.bluetoothConnected ==>
         items[0].text == "Status: Disconnected" && items[1].text == "Reconnect") &&
      forall i :: 0 <= i < |items| ==> items[i].action == BluetoothMenu
  {
  }

  /**
   * Every builder puts its cursor on the first item, draws a non-empty list and
   * touches nothing but the item list and the cursor.
   */
  lemma RebuiltResetsCursor(s: DeviceState, menu: MenuType)
    requires IsMenuScreen(menu)
    ensures var r := Rebuilt(s, menu);
      r.screen.menuIndex == 0 && r.screen.currentMenuItems != [] &&
      r.screen.(currentMenuItems := s.screen.currentMenuItems, menuIndex := s.screen.menuIndex) == s.screen &&
      r.(screen := s.screen) == s
  {
  }

  /** Navigation pushes exactly one back-stack entry, and only when the screen changes. */
  lemma NavigateToMenuStack(s: DeviceState, menu: MenuType)
    ensures var r := AfterNavigateToMenu(s, menu);
      r.screen.currentMenu == menu &&
      (s.screen.currentMenu != menu ==>
         r.screen.menuStack == s.screen.menuStack + [MenuStackEntry(s.screen.currentMenu, s.screen.menuIndex)]) &&
      (s.screen.currentMenu == menu ==> r.screen.menuStack == s.screen.menuStack)
  {
  }

  /**
   * The cursor on the new screen: a menu screen starts on its first item, a
   * browser screen on the library cursor, and Now Playing keeps the old value.
   */
  lemma NavigateToMenuIndex(s: DeviceState, menu: MenuType)
    ensures var r := AfterNavigateToMenu(s, menu);
      (IsMenuScreen(menu) ==> r.screen.menuIndex == 0) &&
      (menu == ArtistList ==> r.screen.menuIndex == s.library.artistIndex) &&
      (menu == AlbumList ==> r.screen.menuIndex == s.library.albumIndex) &&
      (menu == SongList ==> r.screen.menuIndex == s.library.songIndex) &&
      (menu == NowPlaying ==> r.screen.menuIndex == s.screen.menuIndex)
  {
  }

  /** Navigation changes nothing outside the screen, and leaves the redraw flag alone. */
  lemma NavigateToMenuFrame(s: DeviceState, menu: MenuType)
    ensures var r := AfterNavigateToMenu(s, menu);
      r.(screen := s.screen) == s &&
      r.screen.displayNeedsUpdate == s.screen.displayNeedsUpdate
  {
  }

  /** Back from the top: the main menu, rebuilt, with the stack still empty. */
  lemma NavigateBackFromTop(s: DeviceState)
    requires s.screen.menuStack == []
    ensures var r := AfterNavigateBack(s);
      r.screen.currentMenu == MainMenu && r.screen.menuStack == [] && r.screen.menuIndex == 0 &&
      r.screen.currentMenuItems == MainMenuItems(s.audio.playerState)
  {
  }

  /**
   * Back pops exactly one entry off a non-empty stack and returns to its
   * screen; the saved cursor survives on browser and Now Playing screens,
   * while a menu screen is rebuilt and starts on its first item.
   */
  lemma NavigateBackPopsOne(s: DeviceState)
    requires s.screen.menuStack != []
    ensures var last := s.screen.menuStack[|s.screen.menuStack| - 1];
      var r := AfterNavigateBack(s);
      r.screen.menuStack == s.screen.menuStack[..|s.screen.menuStack| - 1] &&
      r.screen.currentMenu == last.menu &&
      r.screen.menuIndex == (if IsMenuScreen(last.menu) then 0 else last.index) &&
      r.(screen := s.screen) == s
  {
  }

  /**
   * Back is the inverse of a navigation that changed the screen: it pops the
   * entry that navigation pushed, returns to the screen left behind, and
   * restores its cursor on a browser or Now Playing screen (a menu screen is
   * rebuilt and starts on its first item again).
   */
  lemma NavigateBackUndoesNavigateTo(s: DeviceState, menu: MenuType)
    requires s.screen.currentMenu != menu
    ensures var r := AfterNavigateBack(AfterNavigateToMenu(s, menu));
      r.screen.currentMenu == s.screen.currentMenu && r.screen.menuStack == s.screen.menuStack &&
      r.screen.menuIndex == (if IsMenuScreen(s.screen.currentMenu) then 0 else s.screen.menuIndex) &&
      r.(screen := s.screen) == s
  {
    var t := AfterNavigateToMenu(s, menu);
    NavigateToMenuStack(s, menu);
    NavigateToMenuFrame(s, menu);
    assert t.screen.menuStack[..|t.screen.menuStack| - 1] == s.screen.menuStack;
    NavigateBackPopsOne(t);
  }

  // ---------------------------------------------------------------------------
  // The imperative builders and navigation on the device
  // ---------------------------------------------------------------------------

  method BuildMainMenu(d: Device)
    modifies d
    ensures d.State() == AfterBuildMainMenu(old(d.State()))
  {
    var items := [];
    items := items + [MenuItem("Music", MusicMenu, true)];
    items := items + [MenuItem("Now Playing", NowPlaying, d.playerState == Playing || d.playerState == Paused)];
    items := items + [MenuItem("Settings", SettingsMenu, true)];
    items := items + [MenuItem("Bluetooth", BluetoothMenu, true)];
    d.screen := d.screen.(currentMenuItems := items);
    d.screen := d.screen.(menuIndex := 0);
  }

  method BuildMusicMenu(d: Device)
    modifies d
    ensures d.State() == AfterBuildMusicMenu(old(d.State()))
  {
    var items := [];
    items := items + [MenuItem("Artists", ArtistList, true)];
    items := items + [MenuItem("Albums", AlbumList, true)];
    items := items + [MenuItem("All Songs", SongList, true)];
    items := items + [MenuItem("Playlists", MusicMenu, true)];
    d.screen := d.screen.(currentMenuItems := items);
    d.screen := d.screen.(menuIndex := 0);
  }

  method BuildSettingsMenu(d: Device)
    modifies d
    ensures d.State() == AfterBuildSettingsMenu(old(d.State()))
  {
    var items := [];
    items := items + [MenuItem("Shuffle: Off", SettingsMenu, true)];
    items := items + [MenuItem("Repeat: Off", SettingsMenu, true)];
    items := items + [MenuItem("About", SettingsMenu, true)];
    d.screen := d.screen.(currentMenuItems := items);
    d.screen := d.screen.(menuIndex := 0);
  }

  method BuildBluetoothMenu(d: Device)
    modifies d
    ensures d.State() == AfterBuildBluetoothMenu(old(d.State()))
  {
    var items := [];
    if d.link.bluetoothConnected {
      items := items + [MenuItem("Status: Connected", BluetoothMenu, true)];
      items := items + [MenuItem("Disconnect", BluetoothMenu, true)];
    } else {
      items := items + [MenuItem("Status: Disconnected", BluetoothMenu, true)];
      items := items + [MenuItem("Reconnect", BluetoothMenu, true)];
    }
    d.screen := d.screen.(currentMenuItems := items);
    d.screen := d.screen.(menuIndex := 0);
  }

  /** Runs the builder of a menu screen; other screens are left as they are. */
  method Rebuild(d: Device, menu: MenuType)
    modifies d
    ensures d.State() == Rebuilt(old(d.State()), menu)
  {
    match menu
    case MainMenu => BuildMainMenu(d);
    case MusicMenu => BuildMusicMenu(d);
    case SettingsMenu => BuildSettingsMenu(d);
    case BluetoothMenu => BuildBluetoothMenu(d);
    case _ =>
  }

  method NavigateToMenu(d: Device, menu: MenuType)
    modifies d
    ensures d.State() == AfterNavigateToMenu(old(d.State()), menu)
  {
    if d.screen.currentMenu != menu {
      d.screen := d.screen.(menuStack := d.screen.menuStack +
                                         [MenuStackEntry(d.screen.currentMenu, d.screen.menuIndex)]);
    }
    d.screen := d.screen.(currentMenu := menu);
    match menu
    case ArtistList => d.screen := d.screen.(menuIndex := d.library.artistIndex);
    case AlbumList => d.screen := d.screen.(menuIndex := d.library.albumIndex);
    case SongList => d.screen := d.screen.(menuIndex := d.library.songIndex);
    case NowPlaying =>
    case _ => Rebuild(d, menu);
  }

  method NavigateBack(d: Device)
    modifies d
    ensures d.State() == AfterNavigateBack(old(d.State()))
  {
    if d.screen.menuStack == [] {
      d.screen := d.screen.(currentMenu := MainMenu);
      BuildMainMenu(d);
      return;
    }
    var last := d.screen.menuStack[|d.screen.menuStack| - 1];
    d.screen := d.screen.(menuStack := d.screen.menuStack[..|d.screen.menuStack| - 1]);
    d.screen := d.screen.(currentMenu := last.menu);
    d.screen := d.screen.(menuIndex := last.index);
    Rebuild(d, d.screen.currentMenu);
  }
}
