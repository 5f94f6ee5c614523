/**
 * The computing parts of Display.cpp: the first visible row of a scrolling
 * list, the backlight setting, and the header title of each screen.
 */
module Display {
  import opened State

  const MaxBrightness: int := 255

  /**
   * calculateWindowStart: the first row shown of a list of `listSize` rows,
   * `maxDisplay` at a time, after the cursor moved from `lastIdx` (shown
   * with the window at `lastWinStart`) to `currentIndex`. The window stays
   * put while the cursor moves inside it, and follows the cursor by the
   * size of the move when it was on the edge row in the direction of travel.
   */
  function WindowStart(currentIndex: int, lastIdx: int, lastWinStart: int,
                       listSize: int, maxDisplay: int): (r: int)
    ensures listSize <= maxDisplay ==> r == 0
    ensures listSize > maxDisplay ==> 0 <= r <= listSize - maxDisplay
  {
    if listSize <= maxDisplay then 0
    else
      var cursorPos := Clamp(lastIdx - lastWinStart, 0, maxDisplay - 1);
      var delta := currentIndex - lastIdx;
      var moved :=
        if delta > 0 then (if cursorPos < maxDisplay - 1 then lastWinStart else lastWinStart + delta)
        else if delta < 0 then (if cursorPos > 0 then lastWinStart else lastWinStart + delta)
        else lastWinStart;
      Clamp(moved, 0, listSize - maxDisplay)
  }

  /** Without a move, the window keeps its place, clamped into the list. */
  lemma WindowStillWithoutMove(i: int, lastWinStart: int, listSize: int, maxDisplay: int)
    requires listSize > maxDisplay
    ensures WindowStart(i, i, lastWinStart, listSize, maxDisplay) ==
            Clamp(lastWinStart, 0, listSize - maxDisplay)
  {
  }

  /**
   * A move down keeps the window unless the cursor was on the last visible
   * row; then the window moves down by the size of the move. A move up is
   * the mirror image, at the top row.
   */
  lemma WindowFollowsEdge(currentIndex: int, lastIdx: int, lastWinStart: int, listSize: int, maxDisplay: int)
    requires listSize > maxDisplay && maxDisplay >= 1
    requires lastWinStart <= lastIdx < lastWinStart + maxDisplay
    ensures var r := WindowStart(currentIndex, lastIdx, lastWinStart, listSize, maxDisplay);
      var hi := listSize - maxDisplay;
      (currentIndex > lastIdx && lastIdx < lastWinStart + maxDisplay - 1 ==> r == Clamp(lastWinStart, 0, hi)) &&
      (currentIndex > lastIdx && lastIdx == lastWinStart + maxDisplay - 1 ==>
         r == Clamp(lastWinStart + (currentIndex - lastIdx), 0, hi)) &&
      (currentIndex < lastIdx && lastIdx > lastWinStart ==> r == Clamp(lastWinStart, 0, hi)) &&
      (currentIndex < lastIdx && lastIdx == lastWinStart ==>
         r == Clamp(lastWinStart - (lastIdx - currentIndex), 0, hi))
  {
  }

  /**
   * One step of the cursor inside the list keeps it visible: if the old
   * cursor was inside a window that fits the list, the new cursor is inside
   * the new window.
   */
  lemma CursorStaysVisible(currentIndex: int, lastIdx: int, lastWinStart: int, listSize: int, maxDisplay: int)
    requires listSize > maxDisplay >= 1
    requires 0 <= lastWinStart <= listSize - maxDisplay
    requires lastWinStart <= lastIdx < lastWinStart + maxDisplay
    requires 0 <= currentIndex < listSize
    requires currentIndex == lastIdx + 1 || currentIndex == lastIdx - 1 || currentIndex == lastIdx
    ensures var r := WindowStart(currentIndex, lastIdx, lastWinStart, listSize, maxDisplay);
      r <= currentIndex < r + maxDisplay
  {
  }

  /**
   * Each list remembers its last cursor and window, and nothing resets them
   * when the list is entered again. Leave an album list with the cursor on
   * album 8 in a window starting at 5, open another artist (which puts the
   * album cursor on 0), and the window stays at 5: the cursor is off screen
   * until it is moved up into the window.
   */
  lemma WindowKeptOnReentry()
    ensures var r := WindowStart(0, 8, 5, 20, 5);
      r == 5 && !(r <= 0 < r + 5)
  {
  }

  function AfterSetScreenBrightness(s: DeviceState, brightness: int): DeviceState {
    s.(controls := s.controls.(screenBrightness := Clamp(brightness, 0, MaxBrightness)))
  }

  /**
   * The stored brightness is the request clamped to 0..255; setting it to
   * what is stored changes nothing, and nothing but the brightness changes.
   */
  lemma BrightnessClamped(s: DeviceState, brightness: int)
    ensures var r := AfterSetScreenBrightness(s, brightness);
      0 <= r.controls.screenBrightness <= MaxBrightness &&
      (0 <= brightness <= MaxBrightness ==> r.controls.screenBrightness == brightness) &&
      (brightness < 0 ==> r.controls.screenBrightness == 0) &&
      (brightness > MaxBrightness ==> r.controls.screenBrightness == MaxBrightness) &&
      AfterSetScreenBrightness(r, r.controls.screenBrightness) == r &&
      r.(controls := s.controls) == s
  {
  }

  method SetScreenBrightness(d: Device, brightness: int)
    modifies d
    ensures d.State() == AfterSetScreenBrightness(old(d.State()), brightness)
  {
    var b := brightness;
    if b < 0 {
      b := 0;
    }
    if b > MaxBrightness {
      b := MaxBrightness;
    }
    d.controls := d.controls.(screenBrightness := b);
  }

  /** The title updateHeader draws for each screen. */
  function HeaderText(menu: MenuType): (r: string)
    ensures r != "" && r != "ROUGE MP3"
  {
    match menu
    case MainMenu => "Main Menu"
    case MusicMenu => "Music"
    case SettingsMenu => "Settings"
    case BluetoothMenu => "Bluetooth"
    case ArtistList => "Artists"
    case AlbumList => "Albums"
    case SongList => "Songs"
    case NowPlaying => "Now Playing"
  }

  /**
   * Every screen has its own title, so the title tells the screen; the
   * fallback "ROUGE MP3" is never shown, as the switch covers every screen.
   */
  lemma HeaderTextDistinct(a: MenuType, b: MenuType)
    ensures HeaderText(a) == HeaderText(b) <==> a == b
    ensures HeaderText(a) != "ROUGE MP3" && HeaderText(a) != ""
  {
  }
}
