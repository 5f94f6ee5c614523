# Rouge MP3 player: a verified model of its control logic

This project models the control logic of the Rouge ESP32 MP3 player firmware in Dafny, together with the pure helpers of its desktop indexer (`music_indexer.py`). The firmware streams decoded MP3 audio to Bluetooth headphones. The user browses an artist → album → song library with a rotary encoder and buttons.

The globals in `include/State.h` are bundled into one `Device` class (module `State`). Its fields are the ones the handlers change:
- the player state, and the file the decoder has open;
- the 128 KiB transport buffer, a `ByteQueue`;
- the library cursor and lists;
- the screen, meaning the current menu, cursor, back-stack, items and redraw flag;
- the link state;
- the volume and brightness controls.

`Device.State()` returns all of this as one `DeviceState` value. Each handler is a method whose postcondition ties the new state to a pure function of the old one (`AfterStopPlayback`, `AfterAutoNext`, …). The lemmas prove what the firmware promises about those functions.

The foreign parts are inputs:
- **Music database.** A `Catalog` value holds what its three queries return.
- **Audio player.** `Media.openable` holds the paths it can open. A `CopyStep` is the outcome of one decode step.
- **Link stack.** Its connection report is a boolean parameter. Requests to it are appended to `linkCommands`.
- **Clock.** `millis()` is a `Millis` parameter, and unsigned 32-bit wrap-around is written out in `Elapsed`.

Modules:
- `ByteQueues`: the transport buffer, a bounded single-producer single-consumer byte FIFO.
- `State`: the global state, the boot state and the playback invariant.
- `Menus`: the menu builders and the back-stack (`src/state.cpp`).
- `Indexer`: the list loaders (`src/Indexer.cpp`).
- `Audio`: the pull callback, pause/resume/stop, the link callback, the watchdog and the link requests (`src/AudioManager.cpp`).
- `Playback`: `playCurrentSong`, `startPlayback` and `audioLoop` (`src/AudioManager.cpp`), together with the library walk `autoNext` (`src/Navigation.cpp`). The two functions call each other. Termination is proved by the measure (artists left, albums left, songs left).
- `Navigation`: the button handlers (`src/Navigation.cpp`).
- `Encoder`: the rotary-encoder step filter (`src/EncoderModule.cpp`), a class with the five-slot direction ring as an array.
- `Display`: the scroll window, the brightness clamp and the header titles (`src/Display.cpp`).
- `Preferences`: the `RougePreferences` class over the flash key-value store (`src/Preferences.cpp`).
- `MusicIndexer`: the text sanitiser, the file filters, the track-number parse and the stored path (`music_indexer.py`).

## Behaviour worth knowing

- **Crossing into the next artist.** `autoNext` skips albums of the current artist whose songs do not load (`Playback.SkipsUnloadableAlbums`). It does not skip an artist. When the next artist's album list, or its first album's song list, fails to load, the walk ends the library there. Playback stops, with the cursor on the new artist's first album and song (`Playback.ArtistCrossingEndsOnUnloadableArtist`). The `autoNext()` calls in the empty-list branches (`src/Navigation.cpp:208-221`) are never reached, because a loader reports success only for a non-empty list.
- **`startPlayback` sets Playing unconditionally.** It does so even when `playCurrentSong` opened nothing because the cursor was off the song list.
- **The watchdog compares two booleans.** It compares the tracked `bluetoothConnected` flag with the stack's report. It reacts only to "tracked connected, actually not". Nothing in `loop()` calls it, but it is modelled as written.
- **Stop from Stopped.** `stopPlayback` from Stopped does not touch the buffer. The invariant `PlaybackCoherent` shows that the buffer is already empty then.
- **Out-of-date Bluetooth menu.** A connection report does not rebuild the Bluetooth menu, so "Reconnect" can be on screen while connected. Selecting it issues nothing, and the menu is then rebuilt (`Navigation.StaleReconnectIsInert`).
- **List windows are not reset.** Each list screen remembers its last cursor and window start. Nothing resets them when a list is entered again with its cursor at 0. The cursor can then be drawn outside the visible window (`Display.WindowKeptOnReentry`).

## Model

| member | source | states |
|---|---|---|
| ByteQueues.Enqueued | src/AudioManager.cpp:18-23 | a write keeps the old contents as a prefix, appends only a prefix of the new bytes, never exceeds the capacity, and adds something whenever there is room and data |
| ByteQueues.Pulled | src/AudioManager.cpp:46-48 | a read hands out a prefix of the buffered bytes: `max` of them, or all when fewer are buffered |
| ByteQueues.ByteQueue.constructor | src/AudioManager.cpp:18-22 | the buffer starts empty with the requested capacity |
| ByteQueues.ByteQueue.Write | src/AudioManager.cpp:18-23 | copies min(len, free room) bytes in order; everything read so far is a prefix of everything written, the rest still buffered |
| ByteQueues.ByteQueue.ReadArray | src/AudioManager.cpp:46-48 | hands out the oldest bytes, and handed-out bytes followed by the rest are the old contents |
| ByteQueues.ByteQueue.Reset | src/AudioManager.cpp:197 | drops every buffered byte |
| State.Elapsed | src/AudioManager.cpp:123 | `now - since` in unsigned 32-bit arithmetic: the plain difference, or the difference plus 2^32 after the clock wrapped |
| State.Clamp | src/EncoderModule.cpp:179-180 | raise to lo then lower to hi: inside [lo, hi] when the range is not empty, unchanged when already inside |
| State.BootInvariant | src/state.cpp:25-36 | the boot state is stopped, disconnected, with an empty buffer and non-negative cursors, so it satisfies the invariant |
| State.Device.constructor | src/state.cpp:6-36 | the globals start as their initialisers say |
| Menus.MainMenuShape | src/state.cpp:45-52 | the main menu is exactly Music, Now Playing, Settings, Bluetooth, with Now Playing enabled iff playback is not Stopped |
| Menus.BluetoothMenuShape | src/state.cpp:71-83 | connected: [Status: Connected, Disconnect]; disconnected: [Status: Disconnected, Reconnect]; every action is the Bluetooth menu |
| Menus.RebuiltResetsCursor | src/state.cpp:45-83 | every builder leaves a non-empty list with the cursor at 0 and changes nothing else |
| Menus.NavigateToMenuStack | src/state.cpp:85-92 | navigation pushes (old menu, old cursor) exactly when the target differs from the current menu; same-menu navigation keeps the stack |
| Menus.NavigateToMenuIndex | src/state.cpp:93-123 | the new cursor is 0 on a menu screen, the artist/album/song index on the matching browser screen, and unchanged on Now Playing |
| Menus.NavigateToMenuFrame | src/state.cpp:85-123 | navigation changes only the screen, and not the redraw flag |
| Menus.NavigateBackFromTop | src/state.cpp:125-132 | back on an empty stack goes to a rebuilt main menu and the stack stays empty |
| Menus.NavigateBackPopsOne | src/state.cpp:134-161 | back on a non-empty stack pops exactly one entry, returns to its menu, and restores its cursor except on a rebuilt menu screen |
| Menus.NavigateBackUndoesNavigateTo | src/state.cpp:85-161 | back after a screen-changing navigation returns to the old screen and stack (and cursor, unless a menu screen was rebuilt) |
| Menus.BuildMainMenu | src/state.cpp:45-52 | the main-menu builder on the device has the effect the spec function gives |
| Menus.BuildMusicMenu | src/state.cpp:54-61 | the music-menu builder's effect on the device |
| Menus.BuildSettingsMenu | src/state.cpp:63-69 | the settings-menu builder's effect on the device |
| Menus.BuildBluetoothMenu | src/state.cpp:71-83 | the Bluetooth-menu builder's effect on the device |
| Menus.Rebuild | src/state.cpp:144-160 | the rebuild on return dispatches to the builder of the menu screen |
| Menus.NavigateToMenu | src/state.cpp:85-123 | push, switch and set the cursor as specified |
| Menus.NavigateBack | src/state.cpp:125-161 | pop or go to the main menu as specified |
| Indexer.ArtistListResult | src/Indexer.cpp:39-52 | the artist list becomes the catalog's, and success means it is non-empty; nothing else changes |
| Indexer.AlbumListResult | src/Indexer.cpp:54-72 | an empty artist name fails with the list cleared; otherwise the list is the catalog's, and success iff it is non-empty |
| Indexer.SongListResult | src/Indexer.cpp:74-92 | an empty artist or album name fails with the list cleared; success iff the catalog's list is non-empty, and then the list equals it |
| Indexer.BuildArtistList | src/Indexer.cpp:39-52 | the loader's effect, and it returns whether the list loaded |
| Indexer.BuildAlbumList | src/Indexer.cpp:54-72 | clear-then-fill effect, and it returns whether the list loaded |
| Indexer.BuildSongList | src/Indexer.cpp:74-92 | clear-then-fill effect, and it returns whether the list loaded |
| Audio.SoundDataIsSilenceUnlessPlaying | src/AudioManager.cpp:40-49 | a pull yields bytes only when connected, Playing, given a destination and asked for bytes (so Paused is silent); it hands out at most `bytes` of the oldest audio and removes exactly those |
| Audio.GetSoundData | src/AudioManager.cpp:40-49 | the callback returns the specified bytes and drains exactly them from the buffer |
| Audio.StopPlaybackIdempotent | src/AudioManager.cpp:189-199 | stop ends in Stopped; from Playing/Paused the buffer is emptied and the decoder closed; from Stopped nothing changes; stopping twice is stopping once |
| Audio.PauseResumeTransitions | src/AudioManager.cpp:162-187 | pause maps only Playing to Paused; resume acts only from Paused, to Playing when connected and to Stopped otherwise |
| Audio.ResumeUndoesPause | src/AudioManager.cpp:162-187 | with the link up, resume after pause restores the state exactly |
| Audio.ResumeNeverStrandsAudio | src/AudioManager.cpp:173-187 | pause, resume and stop keep the playback invariant (the disconnected-Paused branch cannot strand buffered audio) |
| Audio.StopPlayback | src/AudioManager.cpp:189-199 | stop on the device, buffer reset included |
| Audio.PausePlayback | src/AudioManager.cpp:162-171 | pause on the device |
| Audio.ResumePlayback | src/AudioManager.cpp:173-187 | resume on the device |
| Audio.DisconnectedEvent | src/AudioManager.cpp:55-77 | a disconnection always clears the tracked link; interrupted playback becomes Stopped with an empty buffer, a disconnect request and a rebuilt main menu; from Stopped only the flag changes |
| Audio.OtherLinkEvents | src/AudioManager.cpp:78-98 | Connected sets the flag and the remembered device name; Connecting/Disconnecting change nothing |
| Audio.LinkEventsKeepInvariant | src/AudioManager.cpp:55-98 | every link report keeps the invariant |
| Audio.ConnectionStateChanged | src/AudioManager.cpp:55-98 | the callback on the device |
| Audio.WatchdogBehaviour | src/AudioManager.cpp:122-142 | within 500 ms nothing changes; after it the time is recorded and a disconnection is synthesised exactly when the stack reports none while one is tracked |
| Audio.CheckConnectionWatchdog | src/AudioManager.cpp:122-142 | the watchdog on the device |
| Audio.LinkRequests | src/AudioManager.cpp:205-235 | reconnect is requested only when disconnected; disconnect only when connected, after stopping playback; the tracked flag waits for the stack's report |
| Audio.ChangeDeviceRequests | src/AudioManager.cpp:237-252 | changing device disconnects a live link (stopping playback), remembers the name and starts the stack towards it |
| Audio.LinkRequestsKeepInvariant | src/AudioManager.cpp:205-252 | the link requests keep the invariant |
| Audio.CallbacksKeepInvariant | src/AudioManager.cpp:40-142 | the watchdog and the pull callback keep the invariant |
| Audio.ReconnectBluetooth | src/AudioManager.cpp:205-219 | reconnect on the device |
| Audio.DisconnectBluetooth | src/AudioManager.cpp:221-235 | disconnect on the device |
| Audio.ChangeBluetoothDevice | src/AudioManager.cpp:237-252 | device change on the device |
| Playback.PlayCurrentSongOutcome | src/AudioManager.cpp:312-366 | with the link up and the cursor on a song, playing either starts a track whose file is open and whose title shows, or reaches the end of the library; the cursor never moves back and playback stays coherent |
| Playback.AutoNextOutcome | src/Navigation.cpp:136-232 | advancing starts a track strictly after the current one or reaches the end of the library, never moving the cursor back |
| Playback.NextAlbumOutcome | src/Navigation.cpp:150-181 | moving to the next album of the artist ends in a later track or the end of the library |
| Playback.NextArtistOutcome | src/Navigation.cpp:184-231 | moving to the next artist ends in a later track or the end of the library |
| Playback.PlayWhileDisconnected | src/AudioManager.cpp:316-320 | with the link down, playing only sets the title "BT Disconnected" |
| Playback.NextSongInAlbum | src/Navigation.cpp:141-147 | a following playable song in the album is played by incrementing the song index only, and it is then Playing with that file open |
| Playback.SkipsUnloadableAlbums | src/Navigation.cpp:150-181 | any run of albums whose songs do not load is skipped: the walk plays the first song of the next album that loads |
| Playback.EndOfLibraryAtLastPosition | src/Navigation.cpp:226-231 | at the very last song the walk stops playback, shows Now Playing and leaves the library cursor in place |
| Playback.ArtistCrossingEndsOnUnloadableArtist | src/Navigation.cpp:184-231 | crossing into an artist whose albums, or whose first album's songs, do not load ends the library there, with the cursor on that artist's first album and song |
| Playback.StartPlaybackSetsPlaying | src/AudioManager.cpp:147-160 | rejected without change when disconnected or Playing; otherwise Playing afterwards, even when the cursor is off the list and nothing was opened |
| Playback.AudioLoopStep | src/AudioManager.cpp:289-310 | the feed runs only while Playing and connected; a throwing step changes nothing; decoded audio is appended as far as it fits; a step that copied nothing ends the track: autoNext runs on the fed state and starts a strictly later track or ends the library |
| Playback.PlaybackKeepsInvariant | src/AudioManager.cpp:147-310 | start and the feed step (including the advance after a zero-byte copy) keep the invariant: coherent playback and non-negative cursors |
| Playback.PlayableSongStartsInPlace | src/AudioManager.cpp:327-366 | a song under the cursor with a path the player opens is played in place: its title shows, its file is open, Playing, the library cursor and lists unchanged, the main menu rebuilt if shown |
| Playback.UnplayableSongAdvances | src/AudioManager.cpp:327-352 | an empty path sets "Error: No path", a file that does not open sets "Error: Cannot open" with the old file closed; both redraw and continue as autoNext, and any track started is strictly after the failed song |
| Playback.ArtistCrossingPlaysNextArtist | src/Navigation.cpp:184-207 | past the artist's last song, when the next artist's albums and first album's songs load, the walk plays from that artist's first album and song with both lists reloaded |
| Playback.PlayCurrentSongKeepsInvariant | src/AudioManager.cpp:312-366 | playing the current song, link up or down, keeps the invariant and the tracked link state |
| Playback.AutoNextKeepsInvariant | src/Navigation.cpp:136-232 | the walk keeps the invariant and the tracked link state |
| Playback.NextAlbumKeepsInvariant | src/Navigation.cpp:150-181 | the album step keeps the invariant |
| Playback.NextArtistKeepsInvariant | src/Navigation.cpp:184-231 | the artist step keeps the invariant |
| Playback.EndOfLibrary | src/Navigation.cpp:226-231 | end of library on the device |
| Playback.PlayCurrentSong | src/AudioManager.cpp:312-366 | playCurrentSong on the device, with its calls back into autoNext |
| Playback.AutoNext | src/Navigation.cpp:136-232 | autoNext on the device |
| Playback.NextAlbum | src/Navigation.cpp:150-181 | the next-album branch on the device |
| Playback.NextArtist | src/Navigation.cpp:184-224 | the next-artist branch on the device |
| Playback.StartPlayback | src/AudioManager.cpp:147-160 | startPlayback on the device |
| Playback.AudioLoop | src/AudioManager.cpp:289-310 | one feed step on the device |
| Navigation.ButtonDispatch | src/Navigation.cpp:7-21 | button 0 is centre, 3 is left (back, redraw, library and audio untouched), any other index changes nothing |
| Navigation.SelectOpensItem | src/Navigation.cpp:26-72 | on the main/music menu an enabled item under the cursor opens its screen and records the menu left; a disabled item or a cursor off the list does nothing |
| Navigation.NowPlayingNeedsATrack | src/Navigation.cpp:29-35 | "Now Playing" selected while stopped is disabled and does nothing |
| Navigation.SettingsSelectIsInert | src/Navigation.cpp:61-65 | selecting a settings item never changes anything |
| Navigation.BluetoothMenuSelect | src/Navigation.cpp:40-58 | by the label under the cursor, whatever link state the list was built for: "Reconnect" requests a reconnect exactly when no link is tracked, "Disconnect" stops playback and requests a disconnect exactly when one is; then the menu is rebuilt for the current link state, cursor at the top, stack kept |
| Navigation.BluetoothMenuInertItems | src/Navigation.cpp:29-53 | a status line, a disabled item or a cursor off the list changes nothing |
| Navigation.StaleReconnectIsInert | src/Navigation.cpp:40-58 | "Reconnect" left on screen while connected issues nothing; the menu is rebuilt to offer "Disconnect" |
| Navigation.ToggleFlipsPlayback | src/Navigation.cpp:75-83 | on Now Playing centre maps Playing to Paused and Paused to Playing (Stopped if disconnected); Stopped only redraws |
| Navigation.ToggleTwiceRestores | src/Navigation.cpp:75-83 | two centre presses on Now Playing with the link up restore the state, leaving a redraw pending |
| Navigation.SelectArtist | src/Navigation.cpp:86-100 | an artist whose albums load opens the album list at album 0 with the artist list pushed; otherwise the screen stays and the album list is empty |
| Navigation.SelectArtistThenBack | src/Navigation.cpp:86-134 | back after opening an artist returns to the artist list with its cursor and stack as before |
| Navigation.SelectAlbum | src/Navigation.cpp:101-115 | an album whose songs load opens the song list at song 0 with the album list pushed; otherwise the screen stays |
| Navigation.SelectSong | src/Navigation.cpp:116-124 | selecting a song shows Now Playing; a playable song is the one that starts, in place; an unplayable one leads to a strictly later track or to the end of the library |
| Navigation.HandleCenterKeepsCoherence | src/Navigation.cpp:23-127 | the centre button keeps playback coherent |
| Navigation.SelectMenuItemKeepsCoherence | src/Navigation.cpp:26-72 | menu selections keep playback coherent |
| Navigation.BrowseSelectKeepsCoherence | src/Navigation.cpp:86-124 | browser selections keep playback coherent |
| Navigation.HandleButtonPressKeepsInvariant | src/Navigation.cpp:7-21 | every button press keeps the invariant, cursors included |
| Navigation.HandleCenterKeepsInvariant | src/Navigation.cpp:23-127 | the centre button keeps the invariant: browser selections reset cursors to 0 and the walk keeps them non-negative |
| Navigation.SelectMenuItemKeepsLibrary | src/Navigation.cpp:26-72 | menu selections leave the library untouched |
| Navigation.SelectMenuItem | src/Navigation.cpp:26-72 | menu selection on the device |
| Navigation.TogglePlayback | src/Navigation.cpp:75-83 | play/pause on the device |
| Navigation.BrowseSelect | src/Navigation.cpp:86-124 | browser selection on the device |
| Navigation.HandleCenter | src/Navigation.cpp:23-127 | handleCenter on the device |
| Navigation.HandleLeft | src/Navigation.cpp:129-134 | handleLeft on the device |
| Navigation.HandleButtonPress | src/Navigation.cpp:7-21 | handleButtonPress on the device |
| Encoder.EmptyRingSumsToZero | src/EncoderModule.cpp:60-72 | a cleared ring sums to 0 and votes for no direction |
| Encoder.SumCounts | src/EncoderModule.cpp:60-72 | over directions the ring's sum is ups minus downs |
| Encoder.DominantIsMajority | src/EncoderModule.cpp:60-72 | the vote is 1 (-1) iff ups exceed downs (downs exceed ups) by at least 3, so then at least three slots agree and at most one opposes |
| Encoder.UpdateKeepsWellFormed | src/EncoderModule.cpp:103-107 | every poll keeps a five-slot ring of directions with its index in 0..4 |
| Encoder.UpdateKeepsInvariant | src/EncoderModule.cpp:78-313 | every poll, whatever it scrolls or adjusts, keeps the invariant: coherent playback and non-negative cursors |
| Encoder.JumpIsUndone | src/EncoderModule.cpp:87-92 | a move of more than 3 counts puts the counter back to the last valid position and changes nothing else |
| Encoder.ThrottledMoveWaits | src/EncoderModule.cpp:95-98 | a move within 90 ms of the last accepted update changes nothing |
| Encoder.PendingMovesAddUpToAJump | src/EncoderModule.cpp:84-98 | a throttled move stays pending, so two 2-count turns add up and are undone as a jump |
| Encoder.MoveEntersRing | src/EncoderModule.cpp:100-107 | an accepted move writes its unit direction at the ring index, advances the index mod 5 and stamps the time |
| Encoder.OppositeStepRejected | src/EncoderModule.cpp:117-157 | once the ring votes, a step against it is rejected whatever the run count; an accepted step always equals the counter's direction |
| Encoder.ScrollMovesCursor | src/EncoderModule.cpp:195-282 | on each menu screen and on the artist, album and song lists, the cursor shown moves by the step, or stays at the end of the list; a redraw is flagged exactly when it moved, and a step that does not move it changes nothing |
| Encoder.ScrollStaysInList | src/EncoderModule.cpp:195-282 | scrolling keeps the cursor of a non-empty list (menu, artist, album or song) inside it, even from an out-of-range start, and moves only the one shown |
| Encoder.VolumeMode | src/EncoderModule.cpp:169-188 | on Now Playing the first two ticks only count; from the third the volume becomes volume + 2×step, or 0 below the range, or 100 above it, and no list cursor moves |
| Encoder.StepElsewhereEndsVolumeMode | src/EncoderModule.cpp:189-192 | any step outside Now Playing resets the tick count and ends volume mode |
| Encoder.IdleClears | src/EncoderModule.cpp:287-312 | with no movement, more than 500 ms idle clears ring, index, run and direction; volume mode ends 2 s after the last change |
| Encoder.Encoder.constructor | src/EncoderModule.cpp:42-57 | initEncoder: last and last-valid positions are the counter, the ring empty |
| Encoder.Turn | src/EncoderModule.cpp:36-39 | the interrupt moves only the counter |
| Encoder.GetDominantDirection | src/EncoderModule.cpp:60-72 | the loop over the array computes the vote of the ring |
| Encoder.CountOpposite | src/EncoderModule.cpp:117-157 | the loop counts the slots opposing the vote |
| Encoder.Filter | src/EncoderModule.cpp:84-160 | the filter on the object matches the spec function |
| Encoder.Record | src/EncoderModule.cpp:100-114 | recording a move on the object |
| Encoder.Vote | src/EncoderModule.cpp:117-160 | the vote on the object |
| Encoder.Scroll | src/EncoderModule.cpp:195-282 | cursor movement on the device |
| Encoder.ApplyStep | src/EncoderModule.cpp:166-192 | an accepted step applied to the device |
| Encoder.ClearHistory | src/EncoderModule.cpp:304-311 | the loop zeroes all five slots |
| Encoder.Idle | src/EncoderModule.cpp:287-312 | the idle branch on the object and device |
| Encoder.UpdateEncoder | src/EncoderModule.cpp:78-313 | updateEncoder on the object and device |
| Display.WindowStart | src/Display.cpp:273-305 | 0 when the list fits; otherwise within [0, listSize − maxDisplay] |
| Display.WindowStillWithoutMove | src/Display.cpp:282-302 | without a move the window is the old start clamped into range |
| Display.WindowFollowsEdge | src/Display.cpp:285-297 | a move keeps the window unless the cursor was on the edge row in the direction of travel; then it shifts by the move |
| Display.CursorStaysVisible | src/Display.cpp:273-305 | after a one-step move inside the list the cursor is inside the new window |
| Display.WindowKeptOnReentry | src/Display.cpp:273-305 | with the remembered cursor 8 and window 5, a re-entered list at cursor 0 keeps the window at 5, leaving the cursor off screen |
| Display.BrightnessClamped | src/Display.cpp:108-117 | the stored brightness is the request clamped to 0..255, nothing else changes, and re-setting it is a no-op |
| Display.SetScreenBrightness | src/Display.cpp:108-117 | the setter on the device |
| Display.HeaderText | src/Display.cpp:320-330 | every screen's title is non-empty and is never the fallback "ROUGE MP3" |
| Display.HeaderTextDistinct | src/Display.cpp:320-330 | every screen has its own non-empty title, so the fallback title is never shown |
| Preferences.BeginOutcome | src/Preferences.cpp:11-39 | open: immediate success, no change; closed: success iff init (after an erase when asked) and open succeed, contents lost only on erase |
| Preferences.EndIdempotent | src/Preferences.cpp:41-48 | end closes and zeroes the handle; a second end changes nothing |
| Preferences.SaveVolumeClamps | src/Preferences.cpp:50-74 | closed or failing write: no change; otherwise the clamp to 0..100 is stored |
| Preferences.LoadVolumeDefaults | src/Preferences.cpp:76-99 | the result is in 0..100 and is 50 when closed, missing or on error |
| Preferences.VolumeRoundTrip | src/Preferences.cpp:50-99 | save then load gives the clamped value |
| Preferences.VolumeSurvivesReopen | src/Preferences.cpp:11-99 | a saved volume survives end and a clean begin |
| Preferences.BrightnessRoundTrip | src/Preferences.cpp:102-131 | brightness is stored unclamped and loads back exactly; the volume is untouched |
| Preferences.LoadBrightnessDefaults | src/Preferences.cpp:114-131 | 255 when closed, on error, or missing; when missing, 255 is also written |
| Preferences.ClosedStoreIsInert | src/Preferences.cpp:50-112 | closed, both saves are no-ops |
| Preferences.RougePreferences.constructor | src/Preferences.cpp:5 | the object starts closed with handle 0 |
| Preferences.RougePreferences.Begin | src/Preferences.cpp:11-39 | begin on the object |
| Preferences.RougePreferences.End | src/Preferences.cpp:41-48 | end on the object |
| Preferences.RougePreferences.SaveVolume | src/Preferences.cpp:50-74 | saveVolume on the object |
| Preferences.RougePreferences.LoadVolume | src/Preferences.cpp:76-99 | loadVolume returns the specified value |
| Preferences.RougePreferences.SaveBrightness | src/Preferences.cpp:102-112 | saveBrightness on the object |
| Preferences.RougePreferences.LoadBrightness | src/Preferences.cpp:114-131 | loadBrightness on the object |
| MusicIndexer.ApplyReplacements | music_indexer.py:39-54 | the sequential replace loop equals replacing every character at once by its table entry |
| MusicIndexer.ReplaceStep | music_indexer.py:53-54 | one round of the loop extends the simultaneous map by one table entry (no replacement text contains a replaced character) |
| MusicIndexer.PunctuationReplaced | music_indexer.py:39-46 | en/em dash → '-', curly single quotes → ''', curly double quotes → '"', ellipsis → '...' |
| MusicIndexer.SpacingReplaced | music_indexer.py:47-51 | NBSP, tab, LF and CR → ' ' |
| MusicIndexer.PrintableKept | music_indexer.py:39-54 | printable ASCII passes the replacements unchanged |
| MusicIndexer.Printable | music_indexer.py:56-57 | same length, every character in 32..126, printable kept, others become a space |
| MusicIndexer.TrimLeft | music_indexer.py:62-63 | the result is a suffix with no leading whitespace, and the input itself when it had none |
| MusicIndexer.TrimRight | music_indexer.py:62-63 | the result is a prefix with no trailing whitespace, and the input itself when it had none |
| MusicIndexer.CollapseShape | music_indexer.py:59-60 | collapsing keeps printability, leaves no two spaces together and keeps the first character |
| MusicIndexer.CollapseUnspaced | music_indexer.py:59-60 | collapsing changes only spacing |
| MusicIndexer.CollapseIdentity | music_indexer.py:59-60 | text without double spaces is unchanged |
| MusicIndexer.StripShape | music_indexer.py:62-63 | strip leaves no space at either end and keeps the other properties |
| MusicIndexer.StripIdentity | music_indexer.py:62-63 | text without outer spaces is unchanged |
| MusicIndexer.CleanedShape | music_indexer.py:23-65 | the output is printable ASCII with no outer or double spaces, and keeps every non-space character of the filtered text in order |
| MusicIndexer.Cleaned | music_indexer.py:39-65 | the cleaning steps yield printable ASCII with no outer and no double spaces |
| MusicIndexer.CleanedIdempotent | music_indexer.py:39-65 | cleaning a cleaned text changes nothing |
| MusicIndexer.Sanitized | music_indexer.py:23-65 | None stays None and "" stays ""; any other text comes back printable with no outer or double spaces |
| MusicIndexer.SanitizedIdempotent | music_indexer.py:23-65 | when accent stripping leaves printable ASCII alone, sanitising a sanitised text changes nothing |
| MusicIndexer.SanitizedCases | music_indexer.py:28-29 | None and "" are returned unchanged; anything else comes back cleaned |
| MusicIndexer.SanitizeText | music_indexer.py:23-65 | sanitize_text with its replacement loop computes the specified result |
| MusicIndexer.ShouldSkipFile | music_indexer.py:145-167 | a file is skipped exactly when its name starts with '.' |
| MusicIndexer.IsMp3 | music_indexer.py:250-251 | an mp3 name has at least four characters, '.' fourth from the end and '3' last |
| MusicIndexer.IsMp3Letters | music_indexer.py:250-251 | the mp3 test is: the last four characters are '.', m/M, p/P, '3' |
| MusicIndexer.Collected | music_indexer.py:237-251 | a collected file is an mp3 whose name is not hidden; a hidden name is never collected |
| MusicIndexer.CollectedFiles | music_indexer.py:237-251 | a collected file is an mp3 whose name and directories are not hidden; a hidden name is never collected |
| MusicIndexer.Split | music_indexer.py:188 | str.split('/') gives at least one piece |
| MusicIndexer.SplitJoin | music_indexer.py:270-273 | splitting a joined path gives back its components |
| MusicIndexer.StoredPath | music_indexer.py:270-273 | the stored path starts with "Music/" |
| MusicIndexer.StoredPathShape | music_indexer.py:270-273 | the stored path starts with "Music/" and the rest splits back into the relative path |
| MusicIndexer.Decimal | music_indexer.py:188 | the rendering of a number is a non-empty digit string |
| MusicIndexer.DigitsParse | music_indexer.py:188 | int() reads a digit string as its value |
| MusicIndexer.DecimalParses | music_indexer.py:188 | int() reads the digits of n back as n |
| MusicIndexer.TrackNumberRoundTrip | music_indexer.py:184-190 | "n" and "n/total" both read as track n |
| MusicIndexer.SignedDecimalParses | music_indexer.py:188 | int() reads "-n" as -n and "+n" as n |
| MusicIndexer.SignedTrackNumberRoundTrip | music_indexer.py:184-190 | a signed tag, alone or over a total ("-3", "+3/12"), reads back as its signed value |
| MusicIndexer.ParseInt | music_indexer.py:188 | int() succeeds exactly when the stripped text, less one optional sign, is one or more digits; the value is the digits' value, negated after a leading minus |
| MusicIndexer.TrackNumber | music_indexer.py:184-190 | a tag whose first '/'-field int() rejects reads as 0; otherwise it reads as that field's value |
| MusicIndexer.UnparsableFieldReadsZero | music_indexer.py:184-190 | a tag whose first field is not a signed number reads as track 0, whatever follows the '/' |
| MusicIndexer.TrailingLetterReadsZero | music_indexer.py:184-190 | digits followed by a letter ("3a", "3a/12") read as track 0 |
| MusicIndexer.DoubledSignReadsZero | music_indexer.py:184-190 | a doubled sign ("--3", "++3") reads as track 0 |
| MusicIndexer.MissingTagReadsZero | music_indexer.py:185 | a missing tag defaults to "0" and reads as track 0 |
| MusicIndexer.SlashFirstReadsZero | music_indexer.py:184-190 | a tag starting with '/' has an empty first field and reads as track 0 |
| MusicIndexer.TrackNumberFallback | music_indexer.py:184-190 | a missing tag, an empty one or one starting with '/' reads as 0 |

## Left out

- The Bluetooth/A2DP stack, the audio player, the MP3 decoder and the SD source are foreign. Their answers are inputs: the connection report, the openable paths, one decode step, and the requests recorded in `linkCommands`. The `delay()` calls, the settle wait in device change, and logging are timing or output only.
- The real-time pull callback and the feeding loop run on different tasks. The model runs every handler to completion, one at a time. The `ByteQueue` ghost history (`written == delivered + data`) states the single-producer single-consumer contract but does not model interleaving.
- `setVolume` on the link stack, haptic feedback and `ledcWrite` for the backlight are hardware calls. The model keeps only the value stored in the globals.
- The database (`src/Database.cpp`) is the `Catalog` input. Its orderings (artists by name without case, albums by year and name, songs by track) are assumed and not modelled.
- `autoPrevious`, `handleTop`, `handleBottom`, `handleRight`, `processADCButton` and `loadIndex` are declared without a definition, so they are not part of this model.
- Rendering, `displayTask`, the list redraw helpers, the spinner, the battery, the haptics driver, button debouncing and `main.cpp` are user interface, hardware or boot wiring.
- Audio.CheckConnectionWatchdog: `millis()` is read once as `now`. The source reads it again when it records the check time (`src/AudioManager.cpp:123` and `126`).
- Navigation.SelectMenuItem: the source keeps a reference to the selected item and reads its action after the Bluetooth menu is rebuilt. The model reads the action before the rebuild. Every Bluetooth menu item leads to the Bluetooth menu, so the two agree.
- Encoder.UpdateEncoder: `millis()` is read once per call as `now`, while the source reads it separately in the volume and idle branches. Taking the display lock is the `gotLock` input.
- Preferences.RougePreferences.Begin: the result of the flash erase is assumed to be success. The result of `nvs_commit` is ignored, as the source ignores it.
- Playback.PlayCurrentSong: requires the artist and album indices to be at least -1. The source would index a vector at a negative position otherwise. Every handler keeps the indices non-negative: `Playback.PlaybackKeepsInvariant`, `Playback.AutoNextKeepsInvariant`, `Navigation.HandleButtonPressKeepsInvariant`, `Encoder.UpdateKeepsInvariant`, `Audio.LinkEventsKeepInvariant`, `Audio.LinkRequestsKeepInvariant` and `Audio.CallbacksKeepInvariant`, starting from `State.BootInvariant`.
- MusicIndexer.SanitizeText: the Unicode decomposition and combining-mark removal are the `stripAccents` input. Regex `\s` and `strip()` are modelled for ASCII whitespace, which are the only whitespace characters left after the printable filter.
- MusicIndexer.TrackNumber: `int()` is modelled for ASCII digits with an optional sign and surrounding ASCII whitespace. Underscores, non-ASCII digits and Unicode spaces are not modelled. Nor are the separators U+001C to U+001F, which `str.strip()` and `int()` treat as whitespace: `int("\x1c3")` is 3, while `ParseInt` fails on it.
- MusicIndexer.IsMp3: lower-casing is modelled for ASCII letters only. No other character lower-cases to '.', 'm', 'p' or '3'.
- `os.walk` and `os.path.relpath`: the model joins path components with '/', as on a POSIX host; on Windows `relpath` would use a backslash. The mutagen tag reading, the sqlite inserts and the counters of `scan_music_folder` are I/O. The year parse (`int(year[:4])`, falling back to `None`) is a pure parse, but it is not modelled because it only feeds the albums table. Directory pruning is modelled as the condition that no directory on the path is hidden (`Collected`).
- `screenBrightness` starts at 255, a value taken from the `Preferences` default. Its initialiser is not in the source files.
