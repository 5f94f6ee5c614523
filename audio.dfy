/**
 * The playback and link handlers of AudioManager.cpp that do not touch the
 * library: the real-time pull callback, the link-state callback, the
 * connection watchdog, pause/resume/stop and the three link requests.
 * The link stack and the audio player are foreign: a query of the link
 * stack is a parameter, and a request to it is appended to
 * `linkCommands`.
 */
module Audio {
  import opened Wrappers
  import opened ByteQueues
  import opened State
  import opened Menus

  /** How often the watchdog compares the tracked link state with the real one, in ms. */
  const WatchdogInterval: nat := 500

  // ---------------------------------------------------------------------------
  // The pull callback
  // ---------------------------------------------------------------------------

  /**
   * Whether a pull hands out audio: only while the link is up, playback is
   * Playing, and the caller supplied a destination and asked for bytes.
   */
  predicate FeedsAudio(s: DeviceState, dataPresent: bool, bytes: int) {
    s.link.bluetoothConnected && s.audio.playerState == Playing && dataPresent && bytes > 0
  }

  /** The bytes one pull of up to `bytes` bytes hands to the link stack. */
  function SoundData(s: DeviceState, dataPresent: bool, bytes: int): seq<byte> {
    if FeedsAudio(s, dataPresent, bytes) then Pulled(s.audio.buffered, bytes) else []
  }

  function AfterGetSoundData(s: DeviceState, dataPresent: bool, bytes: int): DeviceState {
    var out := SoundData(s, dataPresent, bytes);
    s.(audio := s.audio.(buffered := s.audio.buffered[|out|..]))
  }

  /**
   * Silence (no bytes) unless the link is up and playback is Playing, so a
   * Paused or Stopped player never drains the buffer. What is handed out is
   * the oldest buffered audio, at most `bytes` of it, and stays buffered no
   * longer: handed-out bytes followed by the rest are the old contents.
   */
  lemma SoundDataIsSilenceUnlessPlaying(s: DeviceState, dataPresent: bool, bytes: int)
    ensures var out := SoundData(s, dataPresent, bytes);
      var r := AfterGetSoundData(s, dataPresent, bytes);
      (out != [] ==> s.link.bluetoothConnected && s.audio.playerState == Playing &&
                     dataPresent && bytes > 0) &&
      (!FeedsAudio(s, dataPresent, bytes) ==> out == [] && r == s) &&
      |out| <= (if bytes < 0 then 0 else bytes) &&
      out + r.audio.buffered == s.audio.buffered &&
      (FeedsAudio(s, dataPresent, bytes) && |s.audio.buffered| >= bytes ==> |out| == bytes)
  {
  }

  /** The callback registered with the link stack; `dataPresent` is false for a null destination. */
  method GetSoundData(d: Device, dataPresent: bool, bytes: int) returns (out: seq<byte>)
    requires d.Valid()
    modifies d.buffer
    ensures d.Valid()
    ensures out == SoundData(old(d.State()), dataPresent, bytes)
    ensures d.State() == AfterGetSoundData(old(d.State()), dataPresent, bytes)
  {
    if !d.link.bluetoothConnected || d.playerState != Playing || !dataPresent || bytes <= 0 {
      return [];
    }
    out := d.buffer.ReadArray(bytes);
  }

  // ---------------------------------------------------------------------------
  // Playback controls
  // ---------------------------------------------------------------------------

  function AfterStopPlayback(s: DeviceState): DeviceState {
    if s.audio.playerState == Stopped then s
    else s.(audio := Audio(Stopped, [], None))
  }

  function AfterPausePlayback(s: DeviceState): DeviceState {
    if s.audio.playerState != Playing then s
    else s.(audio := s.audio.(playerState := Paused))
  }

  function AfterResumePlayback(s: DeviceState): DeviceState {
    if s.audio.playerState != Paused then s
    else if !s.link.bluetoothConnected then s.(audio := s.audio.(playerState := Stopped))
    else s.(audio := s.audio.(playerState := Playing))
  }

  /**
   * Stop is idempotent. From Playing or Paused it ends in Stopped with the
   * decoder stopped and the buffer empty; from Stopped it changes nothing.
   */
  lemma StopPlaybackIdempotent(s: DeviceState)
    ensures var r := AfterStopPlayback(s);
      AfterStopPlayback(r) == r &&
      r.audio.playerState == Stopped &&
      (s.audio.playerState != Stopped ==> r.audio.buffered == [] && r.audio.decoderPath == None) &&
      (s.audio.playerState == Stopped ==> r == s) &&
      r.(audio := s.audio) == s
  {
  }

  /** Pause only maps Playing to Paused; resume only acts from Paused. */
  lemma PauseResumeTransitions(s: DeviceState)
    ensures var p := AfterPausePlayback(s);
      (s.audio.playerState == Playing ==> p == s.(audio := s.audio.(playerState := Paused))) &&
      (s.audio.playerState != Playing ==> p == s)
    ensures var q := AfterResumePlayback(s);
      (s.audio.playerState != Paused ==> q == s) &&
      (s.audio.playerState == Paused && s.link.bluetoothConnected ==> q.audio.playerState == Playing) &&
      (s.audio.playerState == Paused && !s.link.bluetoothConnected ==> q.audio.playerState == Stopped) &&
      q.audio.buffered == s.audio.buffered && q.(audio := s.audio) == s
  {
  }

  /** Resume undoes pause while the link stays up. */
  lemma ResumeUndoesPause(s: DeviceState)
    requires s.audio.playerState == Playing && s.link.bluetoothConnected
    ensures AfterResumePlayback(AfterPausePlayback(s)) == s
  {
  }

  /**
   * The Paused-and-disconnected branch of resume, which would leave a
   * Stopped player with audio still buffered, is unreachable from a
   * coherent state: a Paused player implies the link is up.
   */
  lemma ResumeNeverStrandsAudio(s: DeviceState)
    requires PlaybackCoherent(s)
    ensures PlaybackCoherent(AfterResumePlayback(s))
    ensures PlaybackCoherent(AfterPausePlayback(s)) && PlaybackCoherent(AfterStopPlayback(s))
  {
  }

  method StopPlayback(d: Device)
    requires d.Valid()
    modifies d, d.buffer
    ensures d.Valid()
    ensures d.State() == AfterStopPlayback(old(d.State()))
  {
    if d.playerState == Stopped {
      return;
    }
    d.playerState := Stopped;
    d.decoderPath := None;
    d.buffer.Reset();
  }

  method PausePlayback(d: Device)
    modifies d
    ensures d.State() == AfterPausePlayback(old(d.State()))
  {
    if d.playerState != Playing {
      return;
    }
    d.playerState := Paused;
  }

  method ResumePlayback(d: Device)
    modifies d
    ensures d.State() == AfterResumePlayback(old(d.State()))
  {
    if d.playerState != Paused {
      return;
    }
    if !d.link.bluetoothConnected {
      d.playerState := Stopped;
      return;
    }
    d.playerState := Playing;
  }

  // ---------------------------------------------------------------------------
  // The link-state callback and the watchdog
  // ---------------------------------------------------------------------------

  /** The link states the link stack reports. */
  datatype LinkEvent = Disconnected | Connecting | Connected | Disconnecting

  function AfterConnectionStateChanged(s: DeviceState, e: LinkEvent): DeviceState {
    match e
    case Disconnected =>
      var s1 := s.(link := s.link.(bluetoothConnected := false));
      if s.audio.playerState == Stopped then s1
      else
        var s2 := s1.(audio := s1.audio.(playerState := Stopped, buffered := []),
                      link := s1.link.(linkCommands := s1.link.linkCommands + [DisconnectLink]),
                      screen := s1.screen.(currentMenu := MainMenu));
        var s3 := AfterBuildMainMenu(s2);
        s3.(screen := s3.screen.(displayNeedsUpdate := true))
    case Connected =>
      s.(link := s.link.(bluetoothConnected := true, lastDeviceName := HeadphoneName))
    case _ => s
  }

  /**
   * A disconnection always clears the tracked link state. Interrupted
   * playback becomes Stopped with the buffer emptied, a disconnect request
   * is sent, and the screen returns to a freshly built main menu (the
   * back-stack is kept); with playback already Stopped nothing else moves.
   */
  lemma DisconnectedEvent(s: DeviceState)
    ensures var r := AfterConnectionStateChanged(s, Disconnected);
      !r.link.bluetoothConnected &&
      r.library == s.library && r.controls == s.controls &&
      r.link.lastDeviceName == s.link.lastDeviceName &&
      (s.audio.playerState == Stopped ==>
         r == s.(link := s.link.(bluetoothConnected := false))) &&
      (s.audio.playerState != Stopped ==>
         r.audio == s.audio.(playerState := Stopped, buffered := []) &&
         r.link.linkCommands == s.link.linkCommands + [DisconnectLink] &&
         r.screen == s.screen.(currentMenu := MainMenu, menuIndex := 0,
                               currentMenuItems := MainMenuItems(Stopped),
                               displayNeedsUpdate := true))
  {
  }

  /** A connection sets the tracked state and the remembered device name; other reports change nothing. */
  lemma OtherLinkEvents(s: DeviceState, e: LinkEvent)
    requires e != Disconnected
    ensures var r := AfterConnectionStateChanged(s, e);
      (e == Connected ==> r == s.(link := s.link.(bluetoothConnected := true,
                                                 lastDeviceName := HeadphoneName))) &&
      (e != Connected ==> r == s)
  {
  }

  /** Every link report keeps the playback invariant. */
  lemma LinkEventsKeepInvariant(s: DeviceState, e: LinkEvent)
    requires Invariant(s)
    ensures Invariant(AfterConnectionStateChanged(s, e))
  {
  }

  method ConnectionStateChanged(d: Device, e: LinkEvent)
    requires d.Valid()
    modifies d, d.buffer
    ensures d.Valid()
    ensures d.State() == AfterConnectionStateChanged(old(d.State()), e)
  {
    match e
    case Disconnected =>
      d.link := d.link.(bluetoothConnected := false);
      if d.playerState != Stopped {
        d.playerState := Stopped;
        d.buffer.Reset();
        d.link := d.link.(linkCommands := d.link.linkCommands + [DisconnectLink]);
        d.screen := d.screen.(currentMenu := MainMenu);
        BuildMainMenu(d);
        d.screen := d.screen.(displayNeedsUpdate := true);
      }
    case Connected =>
      d.link := d.link.(bluetoothConnected := true);
      d.link := d.link.(lastDeviceName := HeadphoneName);
    case _ =>
  }

  /**
   * The watchdog at time `now`, given what the link stack says about the
   * connection: at most once per interval it records the time and, when the
   * stack reports no connection while one is tracked, handles a disconnection.
   */
  function AfterConnectionWatchdog(s: DeviceState, now: Millis, actuallyConnected: bool): DeviceState {
    if Elapsed(now, s.link.lastWatchdogCheck) < WatchdogInterval then s
    else
      var s1 := s.(link := s.link.(lastWatchdogCheck := now));
      if actuallyConnected != s1.link.bluetoothConnected && !actuallyConnected && s1.link.bluetoothConnected
      then AfterConnectionStateChanged(s1, Disconnected)
      else s1
  }

  /**
   * Within the interval the watchdog does nothing. After it, it synthesises
   * a disconnection exactly when the stack reports none while one is
   * tracked; the opposite mismatch only records the time.
   */
  lemma WatchdogBehaviour(s: DeviceState, now: Millis, actuallyConnected: bool)
    ensures var r := AfterConnectionWatchdog(s, now, actuallyConnected);
      var stamped := s.(link := s.link.(lastWatchdogCheck := now));
      (Elapsed(now, s.link.lastWatchdogCheck) < WatchdogInterval ==> r == s) &&
      (Elapsed(now, s.link.lastWatchdogCheck) >= WatchdogInterval ==>
         r.link.lastWatchdogCheck == now &&
         (!actuallyConnected && s.link.bluetoothConnected ==>
            r == AfterConnectionStateChanged(stamped, Disconnected) && !r.link.bluetoothConnected) &&
         (actuallyConnected || !s.link.bluetoothConnected ==> r == stamped))
  {
  }

  /** The watchdog and the pull callback keep the invariant. */
  lemma CallbacksKeepInvariant(s: DeviceState, now: Millis, actuallyConnected: bool,
                               dataPresent: bool, bytes: int)
    requires Invariant(s)
    ensures Invariant(AfterConnectionWatchdog(s, now, actuallyConnected))
    ensures Invariant(AfterGetSoundData(s, dataPresent, bytes))
  {
    if Elapsed(now, s.link.lastWatchdogCheck) >= WatchdogInterval {
      LinkEventsKeepInvariant(s.(link := s.link.(lastWatchdogCheck := now)), Disconnected);
    }
  }

  method CheckConnectionWatchdog(d: Device, now: Millis, actuallyConnected: bool)
    requires d.Valid()
    modifies d, d.buffer
    ensures d.Valid()
    ensures d.State() == AfterConnectionWatchdog(old(d.State()), now, actuallyConnected)
  {
    if Elapsed(now, d.link.lastWatchdogCheck) < WatchdogInterval {
      return;
    }
    d.link := d.link.(lastWatchdogCheck := now);
    if actuallyConnected != d.link.bluetoothConnected {
      if !actuallyConnected && d.link.bluetoothConnected {
        ConnectionStateChanged(d, Disconnected);
      }
    }
  }

  // ---------------------------------------------------------------------------
  // Link requests
  // ---------------------------------------------------------------------------

  function AfterReconnectBluetooth(s: DeviceState): DeviceState {
    if s.link.bluetoothConnected then s
    else s.(link := s.link.(linkCommands := s.link.linkCommands + [ReconnectLink]))
  }

  function AfterDisconnectBluetooth(s: DeviceState): DeviceState {
    if !s.link.bluetoothConnected then s
    else
      var s1 := if s.audio.playerState != Stopped then AfterStopPlayback(s) else s;
      s1.(link := s1.link.(linkCommands := s1.link.linkCommands + [DisconnectLink]))
  }

  function AfterChangeBluetoothDevice(s: DeviceState, name: string): DeviceState {
    var s1 := if s.link.bluetoothConnected then AfterDisconnectBluetooth(s) else s;
    s1.(link := s1.link.(lastDeviceName := name,
                         linkCommands := s1.link.linkCommands + [StartLink(name)]))
  }

  /**
   * Reconnect asks the stack to reconnect only when no link is tracked.
   * Disconnect acts only on a tracked link: it stops playback first and then
   * asks the stack to disconnect. The tracked state itself waits for the
   * stack's report in both cases.
   */
  lemma LinkRequests(s: DeviceState)
    ensures var r := AfterReconnectBluetooth(s);
      (s.link.bluetoothConnected ==> r == s) &&
      (!s.link.bluetoothConnected ==> r.link.linkCommands == s.link.linkCommands + [ReconnectLink] &&
                                      r.(link := s.link) == s)
    ensures var r := AfterDisconnectBluetooth(s);
      (!s.link.bluetoothConnected ==> r == s) &&
      (s.link.bluetoothConnected ==>
         r.link.linkCommands == s.link.linkCommands + [DisconnectLink] &&
         r.link.bluetoothConnected && r.audio.playerState == Stopped &&
         (s.audio.playerState != Stopped ==> r.audio.buffered == []) &&
         r.screen == s.screen && r.library == s.library)
  {
  }

  /**
   * Changing device disconnects a tracked link (stopping playback), then
   * remembers the new name and starts the stack towards it.
   */
  lemma ChangeDeviceRequests(s: DeviceState, name: string)
    ensures var r := AfterChangeBluetoothDevice(s, name);
      r.link.lastDeviceName == name &&
      (s.link.bluetoothConnected ==>
         r.link.linkCommands == s.link.linkCommands + [DisconnectLink, StartLink(name)] &&
         r.audio.playerState == Stopped) &&
      (!s.link.bluetoothConnected ==>
         r.link.linkCommands == s.link.linkCommands + [StartLink(name)] && r.audio == s.audio) &&
      r.screen == s.screen && r.library == s.library
  {
  }

  /** The link requests keep the playback invariant. */
  lemma LinkRequestsKeepInvariant(s: DeviceState, name: string)
    requires Invariant(s)
    ensures Invariant(AfterReconnectBluetooth(s))
    ensures Invariant(AfterDisconnectBluetooth(s))
    ensures Invariant(AfterChangeBluetoothDevice(s, name))
  {
  }

  method ReconnectBluetooth(d: Device)
    modifies d
    ensures d.State() == AfterReconnectBluetooth(old(d.State()))
  {
    if d.link.bluetoothConnected {
      return;
    }
    d.link := d.link.(linkCommands := d.link.linkCommands + [ReconnectLink]);
  }

  method DisconnectBluetooth(d: Device)
    requires d.Valid()
    modifies d, d.buffer
    ensures d.Valid()
    ensures d.State() == AfterDisconnectBluetooth(old(d.State()))
  {
    if !d.link.bluetoothConnected {
      return;
    }
    if d.playerState != Stopped {
      StopPlayback(d);
    }
    d.link := d.link.(linkCommands := d.link.linkCommands + [DisconnectLink]);
  }

  method ChangeBluetoothDevice(d: Device, name: string)
    requires d.Valid()
    modifies d, d.buffer
    ensures d.Valid()
    ensures d.State() == AfterChangeBluetoothDevice(old(d.State()), name)
  {
    if d.link.bluetoothConnected {
      DisconnectBluetooth(d);
    }
    d.link := d.link.(lastDeviceName := name);
    d.link := d.link.(linkCommands := d.link.linkCommands + [StartLink(name)]);
  }
}
