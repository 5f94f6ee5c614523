/**
 * The firmware's global state (the globals declared in State.h and defined
 * in state.cpp, AudioManager.cpp and Display.cpp), bundled into one class.
 * `Device.State()` gives the whole state as a value, so that every handler
 * can be specified by a pure function from the old state to the new one.
 */
module State {
  import opened Wrappers
  import opened ByteQueues

  /** A reading of the millisecond clock: an unsigned 32-bit value that wraps. */
  type Millis = t: int | 0 <= t < 0x1_0000_0000

  /** `now - since` in unsigned 32-bit arithmetic, as the firmware computes elapsed time. */
  function Elapsed(now: Millis, since: Millis): (e: Millis)
    ensures since <= now ==> e == now - since
    ensures now < since ==> e == now - since + 0x1_0000_0000
  {
    (now - since) % 0x1_0000_0000
  }

  /**
   * Clamping as the firmware writes it: first raise to `lo`, then lower to
   * `hi` (so `hi` wins when the range is empty).
   */
  function Clamp(v: int, lo: int, hi: int): (r: int)
    ensures lo <= hi ==> lo <= r <= hi
    ensures lo <= v <= hi ==> r == v
  {
    var raised := if v < lo then lo else v;
    if raised > hi then hi else raised
  }

  datatype PlayerState = Stopped | Playing | Paused

  datatype MenuType =
    | MainMenu | MusicMenu | SettingsMenu | BluetoothMenu
    | ArtistList | AlbumList | SongList | NowPlaying

  /** The four screens whose content is a list of menu items. */
  predicate IsMenuScreen(m: MenuType) {
    m == MainMenu || m == MusicMenu || m == SettingsMenu || m == BluetoothMenu
  }

  datatype MenuItem = MenuItem(text: string, action: MenuType, enabled: bool)

  datatype MenuStackEntry = MenuStackEntry(menu: MenuType, index: int)

  datatype Song = Song(title: string, path: string, track: int, duration: int)

  /** Requests this code issues to the wireless-link stack. */
  datatype LinkCommand = DisconnectLink | ReconnectLink | StartLink(name: string)

  /** The name the link stack is started with, and the one recorded on connection. */
  const HeadphoneName: string := "JBL TUNE235NC TWS"

  /** The playback globals and the two foreign objects they drive. */
  datatype Audio = Audio(
    playerState: PlayerState,
    buffered: seq<byte>,            // the transport buffer's contents
    decoderPath: Option<string>)    // the file the audio player is running, if it is active

  /** The loaded library lists, the cursor into them and the now-playing texts. */
  datatype Library = Library(
    artists: seq<string>,
    albums: seq<string>,
    songs: seq<Song>,
    artistIndex: int,
    albumIndex: int,
    songIndex: int,
    currentArtist: string,
    currentAlbum: string,
    currentTitle: string)

  /** What the screen shows and the way back. */
  datatype Screen = Screen(
    currentMenu: MenuType,
    menuIndex: int,
    menuStack: seq<MenuStackEntry>,
    currentMenuItems: seq<MenuItem>,
    displayNeedsUpdate: bool)

  /** The wireless link as this code tracks it. */
  datatype Link = Link(
    bluetoothConnected: bool,
    lastDeviceName: string,
    lastWatchdogCheck: Millis,
    linkCommands: seq<LinkCommand>)  // requests issued to the link stack, oldest first

  /** Volume and backlight. */
  datatype Controls = Controls(
    currentVolume: int,
    volumeControlActive: bool,
    lastVolumeChange: Millis,
    screenBrightness: int)

  /** Every global the core reads or writes, as one value. */
  datatype DeviceState = DeviceState(
    audio: Audio, library: Library, screen: Screen, link: Link, controls: Controls)

  /** The state after the static initialisers have run. */
  function Boot(): DeviceState {
    DeviceState(
      Audio(Stopped, [], None),
      Library([], [], [], 0, 0, 0, "", "", ""),
      Screen(MainMenu, 0, [], [], false),
      Link(false, HeadphoneName, 0, []),
      Controls(50, false, 0, 255))
  }

  /**
   * The playback invariant every handler keeps: audio is only Playing or
   * Paused while the link is believed connected, and a Stopped player has
   * nothing left in the transport buffer.
   */
  ghost predicate PlaybackCoherent(s: DeviceState) {
    (s.audio.playerState != Stopped ==> s.link.bluetoothConnected) &&
    (s.audio.playerState == Stopped ==> s.audio.buffered == [])
  }

  /** The library cursor never goes below the first entry of a list. */
  ghost predicate CursorNonNegative(s: DeviceState) {
    0 <= s.library.artistIndex && 0 <= s.library.albumIndex && 0 <= s.library.songIndex
  }

  ghost predicate Invariant(s: DeviceState) {
    PlaybackCoherent(s) && CursorNonNegative(s)
  }

  lemma BootInvariant()
    ensures Invariant(Boot())
    ensures Boot().audio.playerState == Stopped && !Boot().link.bluetoothConnected
  {
  }

  /**
   * The globals themselves. The ones the handlers change together are kept
   * in the records above (so `screen.currentMenu` is the global
   * `currentMenu`); the player state, the player's file and the transport
   * buffer, which the real-time callback shares, are fields of their own.
   */
  class Device {
    var playerState: PlayerState
    var decoderPath: Option<string>
    const buffer: ByteQueue
    var library: Library
    var screen: Screen
    var link: Link
    var controls: Controls

    ghost predicate Valid()
      reads buffer
    {
      buffer.Valid() && buffer.capacity == BufferSize
    }

    /** The whole device as a value. */
    function State(): DeviceState
      reads this, buffer
    {
      DeviceState(Audio(playerState, buffer.data, decoderPath), library, screen, link, controls)
    }

    constructor ()
      ensures Valid() && fresh(buffer)
      ensures State() == Boot()
    {
      playerState, decoderPath := Stopped, None;
      buffer := new ByteQueue(BufferSize);
      library := Library([], [], [], 0, 0, 0, "", "", "");
      screen := Screen(MainMenu, 0, [], [], false);
      link := Link(false, HeadphoneName, 0, []);
      controls := Controls(50, false, 0, 255);
    }
  }
}
