/**
 * The rotary encoder's step filter (EncoderModule.cpp). Each poll compares
 * the encoder's counter with the last position seen. A move larger than
 * the jump threshold is undone; a move within the update interval waits;
 * otherwise its direction enters a five-slot ring, and a majority vote
 * over the ring may reject it as a glitch. An accepted step moves the cursor
 * of the current screen, or the volume on Now Playing. With no movement,
 * the volume mode times out and a long pause clears the ring.
 */
module Encoder {
  import opened State

  const HistoryLength: int := 5
  const UpdateInterval: int := 90         // ENCODER_UPDATE_INTERVAL, in ms
  const JumpThreshold: int := 3           // ENCODER_JUMP_THRESHOLD, in counts
  const ButtonSuppressTime: int := 300    // BUTTON_SUPPRESS_TIME, in ms
  const IdleReset: int := 500             // the pause that clears the ring, in ms
  const VolumeTimeout: int := 2000        // VOLUME_TIMEOUT, in ms
  const VolumeActivationTicks: int := 3   // VOLUME_ACTIVATION_TICKS
  const MajorityVotes: int := 3

  function Abs(x: int): int {
    if x < 0 then -x else x
  }

  // ---------------------------------------------------------------------------
  // The direction ring and its vote
  // ---------------------------------------------------------------------------

  /** Sum of the ring's entries, taken from the front as the firmware's loop does. */
  function Sum(h: seq<int>): int {
    if h == [] then 0 else Sum(h[..|h| - 1]) + h[|h| - 1]
  }

  /** How many entries of the ring equal `v`. */
  function Count(h: seq<int>, v: int): nat {
    if h == [] then 0 else Count(h[..|h| - 1], v) + (if h[|h| - 1] == v then 1 else 0)
  }

  /** Every entry is a direction: -1, 0 (empty) or 1. */
  predicate Directions(h: seq<int>) {
    forall i :: 0 <= i < |h| ==> -1 <= h[i] <= 1
  }

  /** getDominantDirection's vote: 1 or -1 on a sum of at least 3 either way, else 0. */
  function Dominant(h: seq<int>): int {
    if Sum(h) >= MajorityVotes then 1
    else if Sum(h) <= -MajorityVotes then -1
    else 0
  }

  /** A cleared ring sums to nothing, so it votes for no direction. */
  lemma {:induction false} EmptyRingSumsToZero(h: seq<int>)
    requires forall i :: 0 <= i < |h| ==> h[i] == 0
    ensures Sum(h) == 0 && Dominant(h) == 0
  {
    if h != [] {
      EmptyRingSumsToZero(h[..|h| - 1]);
    }
  }

  /** Over directions, the sum is the number of ups minus the number of downs. */
  lemma {:induction false} SumCounts(h: seq<int>)
    requires Directions(h)
    ensures Sum(h) == Count(h, 1) - Count(h, -1)
    ensures Count(h, 1) + Count(h, -1) <= |h|
  {
    if h != [] {
      SumCounts(h[..|h| - 1]);
    }
  }

  /**
   * A vote for a direction means at least three of the five slots hold it
   * and at most one holds the opposite one; no vote means neither holds.
   */
  lemma DominantIsMajority(h: seq<int>)
    requires |h| == HistoryLength && Directions(h)
    ensures Dominant(h) == 1 <==> Count(h, 1) - Count(h, -1) >= 3
    ensures Dominant(h) == -1 <==> Count(h, -1) - Count(h, 1) >= 3
    ensures Dominant(h) == 1 ==> Count(h, 1) >= 3 && Count(h, -1) <= 1
    ensures Dominant(h) == -1 ==> Count(h, -1) >= 3 && Count(h, 1) <= 1
  {
    SumCounts(h);
  }

  // ---------------------------------------------------------------------------
  // The filter's state and one poll of it
  // ---------------------------------------------------------------------------

  /** The encoder's counter and the filter's statics. */
  datatype EncoderState = EncoderState(
    position: int,                  // the encoder library's counter
    lastPos: int,
    lastValidPos: int,
    lastEncoderUpdate: Millis,
    lastEncoderMovement: Millis,
    lastScrollDirection: int,
    history: seq<int>,              // directionHistory
    historyIndex: int,
    consecutiveSameDirection: int,
    volumeModeTicks: int)

  predicate WellFormed(e: EncoderState) {
    |e.history| == HistoryLength && Directions(e.history) && 0 <= e.historyIndex < HistoryLength
  }

  /** The state after initEncoder, with the counter at `start`. */
  function InitialEncoder(start: int): EncoderState {
    EncoderState(start, start, start, 0, 0, 0, [0, 0, 0, 0, 0], 0, 0, 0)
  }

  /** What a poll made of a change of the counter. */
  datatype Motion = NoMotion | Jumped | Throttled | Rejected | Accepted(step: int)

  /** The filter part of updateEncoder, up to the point where the step is applied. */
  function AfterFilter(e: EncoderState, now: Millis): (EncoderState, Motion)
    requires WellFormed(e)
  {
    var newPos := e.position;
    if newPos == e.lastPos then (e, NoMotion)
    else
      var delta := newPos - e.lastPos;
      if Abs(delta) > JumpThreshold then
        (e.(position := e.lastValidPos, lastPos := e.lastValidPos), Jumped)
      else if Elapsed(now, e.lastEncoderUpdate) < UpdateInterval then
        (e, Throttled)
      else
        var step := if delta > 0 then 1 else -1;
        Voted(Recorded(e, now, step), step, newPos)
  }

  /** A move past the jump and throttle tests: its direction enters the ring at `now`. */
  function Recorded(e: EncoderState, now: Millis, step: int): EncoderState
    requires WellFormed(e)
  {
    e.(lastEncoderUpdate := now, lastEncoderMovement := now,
       history := e.history[e.historyIndex := step],
       historyIndex := (e.historyIndex + 1) % HistoryLength,
       consecutiveSameDirection :=
         if step == e.lastScrollDirection then e.consecutiveSameDirection + 1 else 1)
  }

  /**
   * The vote over the ring: a step against the ring's direction is rejected
   * after three steps in a row, or when at most one slot goes its way;
   * otherwise the ring's direction, if it has one, replaces the step.
   * Either way the position is taken as the last one seen.
   */
  function Voted(e: EncoderState, step: int, newPos: int): (EncoderState, Motion) {
    var dominant := Dominant(e.history);
    var settled := e.(lastPos := newPos, lastValidPos := newPos);
    if dominant != 0 && step != dominant &&
       (e.consecutiveSameDirection >= 3 || Count(e.history, -dominant) <= 1) then
      (settled, Rejected)
    else if dominant != 0 then
      (settled.(lastScrollDirection := dominant), Accepted(dominant))
    else
      (settled.(lastScrollDirection := step), Accepted(step))
  }

  /** A moved index: by `step`, then clamped into a list of `size` entries. */
  function Clamped(v: int, size: int): int {
    if v < 0 then 0 else if v >= size then size - 1 else v
  }

  function RedrawnIf(s: DeviceState, changed: bool): DeviceState {
    if changed then s.(screen := s.screen.(displayNeedsUpdate := true)) else s
  }

  /** An accepted step outside Now Playing: move the cursor of the screen shown. */
  function AfterScroll(s: DeviceState, step: int): DeviceState {
    var S, L := s.screen, s.library;
    if IsMenuScreen(S.currentMenu) then
      var i := Clamped(S.menuIndex + step, |S.currentMenuItems|);
      RedrawnIf(s.(screen := S.(menuIndex := i)), i != S.menuIndex)
    else if S.currentMenu == ArtistList && L.artists != [] then
      var i := Clamped(L.artistIndex + step, |L.artists|);
      RedrawnIf(s.(library := L.(artistIndex := i)), i != L.artistIndex)
    else if S.currentMenu == AlbumList && L.albums != [] then
      var i := Clamped(L.albumIndex + step, |L.albums|);
      RedrawnIf(s.(library := L.(albumIndex := i)), i != L.albumIndex)
    else if S.currentMenu == SongList && L.songs != [] then
      var i := Clamped(L.songIndex + step, |L.songs|);
      RedrawnIf(s.(library := L.(songIndex := i)), i != L.songIndex)
    else s
  }

  /** An accepted step, with the display lock taken. */
  function AfterApplyStep(e: EncoderState, s: DeviceState, step: int, now: Millis): (EncoderState, DeviceState) {
    if s.screen.currentMenu == NowPlaying then
      var ticks := e.volumeModeTicks + 1;
      if ticks >= VolumeActivationTicks then
        (e.(volumeModeTicks := ticks),
         s.(controls := s.controls.(volumeControlActive := true,
                                    currentVolume := Clamp(s.controls.currentVolume + step * 2, 0, 100),
                                    lastVolumeChange := now),
            screen := s.screen.(displayNeedsUpdate := true)))
      else
        (e.(volumeModeTicks := ticks), s)
    else
      (e.(volumeModeTicks := 0),
       AfterScroll(s.(controls := s.controls.(volumeControlActive := false)), step))
  }

  /** A poll without movement: end the volume mode after its timeout, clear the ring after a pause. */
  function AfterIdle(e: EncoderState, s: DeviceState, now: Millis): (EncoderState, DeviceState) {
    var paused := Elapsed(now, e.lastEncoderUpdate) > IdleReset;
    var e1 := if s.controls.volumeControlActive then
                if Elapsed(now, s.controls.lastVolumeChange) > VolumeTimeout then e.(volumeModeTicks := 0) else e
              else if paused then e.(volumeModeTicks := 0) else e;
    var s1 := if s.controls.volumeControlActive && Elapsed(now, s.controls.lastVolumeChange) > VolumeTimeout
              then s.(controls := s.controls.(volumeControlActive := false),
                      screen := s.screen.(displayNeedsUpdate := true))
              else s;
    if paused then
      (e1.(history := [0, 0, 0, 0, 0], historyIndex := 0, consecutiveSameDirection := 0, lastScrollDirection := 0), s1)
    else (e1, s1)
  }

  /**
   * One call of updateEncoder at time `now`. `gotLock` is whether the
   * display lock was taken within its timeout; without it the step is lost.
   */
  function AfterUpdateEncoder(e: EncoderState, s: DeviceState, now: Millis, gotLock: bool): (EncoderState, DeviceState)
    requires WellFormed(e)
  {
    if e.position == e.lastPos then AfterIdle(e, s, now)
    else
      var (e1, motion) := AfterFilter(e, now);
      if motion.Accepted? && gotLock then AfterApplyStep(e1, s, motion.step, now) else (e1, s)
  }

  /** isEncoderScrolling: a movement was taken in within the last 300 ms. */
  predicate IsScrolling(e: EncoderState, now: Millis) {
    Elapsed(now, e.lastEncoderMovement) < ButtonSuppressTime
  }

  // ---------------------------------------------------------------------------
  // Properties of the filter
  // ---------------------------------------------------------------------------

  /** Every poll keeps the ring a five-slot ring of directions with its index in range. */
  lemma UpdateKeepsWellFormed(e: EncoderState, s: DeviceState, now: Millis, gotLock: bool)
    requires WellFormed(e)
    ensures WellFormed(AfterFilter(e, now).0)
    ensures WellFormed(AfterUpdateEncoder(e, s, now, gotLock).0)
  {
  }

  /** A move of more than three counts is undone: the counter goes back to the last valid position. */
  lemma JumpIsUndone(e: EncoderState, s: DeviceState, now: Millis, gotLock: bool)
    requires WellFormed(e) && Abs(e.position - e.lastPos) > JumpThreshold
    ensures var (r, t) := AfterUpdateEncoder(e, s, now, gotLock);
      r == e.(position := e.lastValidPos, lastPos := e.lastValidPos) && t == s &&
      AfterFilter(e, now).1 == Jumped
  {
  }

  /** A move within 90 ms of the last one taken in changes nothing, and stays pending. */
  lemma ThrottledMoveWaits(e: EncoderState, s: DeviceState, now: Millis, gotLock: bool)
    requires WellFormed(e) && e.position != e.lastPos && Abs(e.position - e.lastPos) <= JumpThreshold
    requires Elapsed(now, e.lastEncoderUpdate) < UpdateInterval
    ensures AfterUpdateEncoder(e, s, now, gotLock) == (e, s)
  {
  }

  /**
   * A throttled move stays pending and adds up with what follows: two
   * turns of two counts inside one interval are undone together as a jump.
   */
  lemma PendingMovesAddUpToAJump(e: EncoderState, s: DeviceState, t1: Millis, t2: Millis)
    requires WellFormed(e) && e.lastPos == e.lastValidPos
    requires Elapsed(t1, e.lastEncoderUpdate) < UpdateInterval
    ensures var e1 := e.(position := e.lastPos + 2);
      var (r1, s1) := AfterUpdateEncoder(e1, s, t1, true);
      var (r2, s2) := AfterUpdateEncoder(r1.(position := r1.position + 2), s1, t2, true);
      r2.position == e.lastPos && s2 == s
  {
  }

  /**
   * A move taken in writes its unit direction at the ring's index and moves
   * the index on by one, modulo five; it also marks the time of the move.
   */
  lemma MoveEntersRing(e: EncoderState, now: Millis)
    requires WellFormed(e) && e.position != e.lastPos && Abs(e.position - e.lastPos) <= JumpThreshold
    requires Elapsed(now, e.lastEncoderUpdate) >= UpdateInterval
    ensures var r := AfterFilter(e, now).0;
      var step := if e.position > e.lastPos then 1 else -1;
      r.history == e.history[e.historyIndex := step] &&
      r.historyIndex == (e.historyIndex + 1) % HistoryLength &&
      r.lastPos == e.position && r.lastValidPos == e.position &&
      r.lastEncoderUpdate == now && IsScrolling(r, now)
  {
  }

  /**
   * Once the ring votes for a direction, a step against it is always
   * rejected: at most one slot can then hold the opposite direction, so the
   * glitch test passes whether or not three steps in a row preceded it. An
   * accepted step therefore always goes the way the counter moved.
   */
  lemma OppositeStepRejected(e: EncoderState, now: Millis)
    requires WellFormed(e) && e.position != e.lastPos && Abs(e.position - e.lastPos) <= JumpThreshold
    requires Elapsed(now, e.lastEncoderUpdate) >= UpdateInterval
    ensures var (r, motion) := AfterFilter(e, now);
      var step := if e.position > e.lastPos then 1 else -1;
      (Dominant(r.history) != 0 && Dominant(r.history) != step <==> motion == Rejected) &&
      (motion != Rejected ==> motion == Accepted(step) && r.lastScrollDirection == step)
    ensures forall c :: AfterFilter(e.(consecutiveSameDirection := c), now).1 == AfterFilter(e, now).1
  {
    var step := if e.position > e.lastPos then 1 else -1;
    var h := e.history[e.historyIndex := step];
    assert Directions(h);
    DominantIsMajority(h);
    var dominant := Dominant(h);
    if dominant != 0 && step != dominant {
      assert step == -dominant;
      assert Count(h, -dominant) <= 1;
    }
  }

  /**
   * A cursor `i` on a list of `size` entries moved to `j` by a step of one:
   * by the step when that stays in the list, otherwise not at all.
   */
  predicate SteppedWithin(i: int, j: int, step: int, size: int) {
    (0 <= i + step < size ==> j == i + step) && (!(0 <= i + step < size) ==> j == i)
  }

  /**
   * On every list screen, an accepted step moves the cursor of the list
   * shown by it, clamped to the list, and asks for a redraw exactly when the
   * cursor moved; a step that does not move the cursor changes nothing.
   */
  lemma ScrollMovesCursor(s: DeviceState, step: int)
    requires step == 1 || step == -1
    ensures var r := AfterScroll(s, step);
      var S, L := s.screen, s.library;
      (IsMenuScreen(S.currentMenu) && 0 <= S.menuIndex < |S.currentMenuItems| ==>
         SteppedWithin(S.menuIndex, r.screen.menuIndex, step, |S.currentMenuItems|) &&
         (r.screen.menuIndex != S.menuIndex ==> r == s.(screen := S.(menuIndex := r.screen.menuIndex,
                                                                       displayNeedsUpdate := true))) &&
         (r.screen.menuIndex == S.menuIndex ==> r == s)) &&
      (S.currentMenu == ArtistList && 0 <= L.artistIndex < |L.artists| ==>
         SteppedWithin(L.artistIndex, r.library.artistIndex, step, |L.artists|) &&
         (r.library.artistIndex != L.artistIndex ==>
            r == s.(library := L.(artistIndex := r.library.artistIndex), screen := S.(displayNeedsUpdate := true))) &&
         (r.library.artistIndex == L.artistIndex ==> r == s)) &&
      (S.currentMenu == AlbumList && 0 <= L.albumIndex < |L.albums| ==>
         SteppedWithin(L.albumIndex, r.library.albumIndex, step, |L.albums|) &&
         (r.library.albumIndex != L.albumIndex ==>
            r == s.(library := L.(albumIndex := r.library.albumIndex), screen := S.(displayNeedsUpdate := true))) &&
         (r.library.albumIndex == L.albumIndex ==> r == s)) &&
      (S.currentMenu == SongList && 0 <= L.songIndex < |L.songs| ==>
         SteppedWithin(L.songIndex, r.library.songIndex, step, |L.songs|) &&
         (r.library.songIndex != L.songIndex ==>
            r == s.(library := L.(songIndex := r.library.songIndex), screen := S.(displayNeedsUpdate := true))) &&
         (r.library.songIndex == L.songIndex ==> r == s))
  {
  }

  /** Scrolling keeps every cursor of a non-empty list inside it, and moves only the one on screen. */
  lemma ScrollStaysInList(s: DeviceState, step: int)
    requires step == 1 || step == -1
    ensures var r := AfterScroll(s, step);
      (IsMenuScreen(s.screen.currentMenu) && s.screen.currentMenuItems != [] ==>
         0 <= r.screen.menuIndex < |s.screen.currentMenuItems| && r.library == s.library) &&
      (s.screen.currentMenu == ArtistList && s.library.artists != [] ==>
         0 <= r.library.artistIndex < |s.library.artists| &&
         r.library == s.library.(artistIndex := r.library.artistIndex)) &&
      (s.screen.currentMenu == AlbumList && s.library.albums != [] ==>
         0 <= r.library.albumIndex < |s.library.albums| &&
         r.library == s.library.(albumIndex := r.library.albumIndex)) &&
      (s.screen.currentMenu == SongList && s.library.songs != [] ==>
         0 <= r.library.songIndex < |s.library.songs| &&
         r.library == s.library.(songIndex := r.library.songIndex)) &&
      r.audio == s.audio && r.link == s.link && r.controls == s.controls &&
      r.screen.currentMenu == s.screen.currentMenu
  {
  }

  /**
   * On Now Playing the first two ticks only count; from the third on, the
   * volume moves by twice the step, clamped to 0..100, and no list cursor moves.
   */
  lemma VolumeMode(e: EncoderState, s: DeviceState, step: int, now: Millis)
    requires s.screen.currentMenu == NowPlaying
    ensures var (r, t) := AfterApplyStep(e, s, step, now);
      r.volumeModeTicks == e.volumeModeTicks + 1 && t.library == s.library &&
      t.screen.menuIndex == s.screen.menuIndex &&
      (e.volumeModeTicks + 1 < VolumeActivationTicks ==> t == s) &&
      (e.volumeModeTicks + 1 >= VolumeActivationTicks ==>
         t.controls.volumeControlActive && 0 <= t.controls.currentVolume <= 100 &&
         (var v := s.controls.currentVolume + step * 2;
          t.controls.currentVolume == (if v < 0 then 0 else if v > 100 then 100 else v)) &&
         t.controls.lastVolumeChange == now && t.screen.displayNeedsUpdate)
  {
  }

  /** Any step taken in outside Now Playing ends the volume mode. */
  lemma StepElsewhereEndsVolumeMode(e: EncoderState, s: DeviceState, step: int, now: Millis)
    requires s.screen.currentMenu != NowPlaying
    ensures var (r, t) := AfterApplyStep(e, s, step, now);
      r.volumeModeTicks == 0 && !t.controls.volumeControlActive &&
      t.controls.currentVolume == s.controls.currentVolume
  {
  }

  /**
   * Without movement, a pause of more than 500 ms since the last update
   * clears the ring, its index, the run count and the scroll direction;
   * the volume mode ends 2 s after the last volume change.
   */
  lemma IdleClears(e: EncoderState, s: DeviceState, now: Millis, gotLock: bool)
    requires WellFormed(e) && e.position == e.lastPos
    ensures var (r, t) := AfterUpdateEncoder(e, s, now, gotLock);
      (Elapsed(now, e.lastEncoderUpdate) > IdleReset ==>
         r.history == [0, 0, 0, 0, 0] && r.historyIndex == 0 &&
         r.consecutiveSameDirection == 0 && r.lastScrollDirection == 0 &&
         Dominant(r.history) == 0) &&
      (Elapsed(now, e.lastEncoderUpdate) <= IdleReset ==> r.history == e.history) &&
      (s.controls.volumeControlActive && Elapsed(now, s.controls.lastVolumeChange) > VolumeTimeout ==>
         !t.controls.volumeControlActive && r.volumeModeTicks == 0 && t.screen.displayNeedsUpdate) &&
      t.library == s.library && t.audio == s.audio && r.position == e.position
  {
    EmptyRingSumsToZero([0, 0, 0, 0, 0]);
  }

  /**
   * Every poll keeps the device invariant: the encoder moves cursors only
   * within non-empty lists and never touches playback or the link.
   */
  lemma UpdateKeepsInvariant(e: EncoderState, s: DeviceState, now: Millis, gotLock: bool)
    requires WellFormed(e) && Invariant(s)
    ensures Invariant(AfterUpdateEncoder(e, s, now, gotLock).1)
  {
    if e.position != e.lastPos {
      var (e1, motion) := AfterFilter(e, now);
      if motion.Accepted? && gotLock && s.screen.currentMenu != NowPlaying {
        var t := s.(controls := s.controls.(volumeControlActive := false));
        assert AfterUpdateEncoder(e, s, now, gotLock).1 == AfterScroll(t, motion.step);
      }
    }
  }

  // ---------------------------------------------------------------------------
  // The encoder object
  // ---------------------------------------------------------------------------

  /** The encoder's counter and the filter's statics, with the ring as an array. */
  class Encoder {
    var position: int
    var lastPos: int
    var lastValidPos: int
    var lastEncoderUpdate: Millis
    var lastEncoderMovement: Millis
    var lastScrollDirection: int
    const directionHistory: array<int>
    var historyIndex: int
    var consecutiveSameDirection: int
    var volumeModeTicks: int

    ghost predicate Valid()
      reads this, directionHistory
    {
      WellFormed(Snapshot())
    }

    function Snapshot(): EncoderState
      reads this, directionHistory
    {
      EncoderState(position, lastPos, lastValidPos, lastEncoderUpdate, lastEncoderMovement,
                   lastScrollDirection, directionHistory[..], historyIndex,
                   consecutiveSameDirection, volumeModeTicks)
    }

    /** initEncoder, with the counter reading `start`. */
    constructor (start: int)
      ensures Valid() && fresh(directionHistory)
      ensures Snapshot() == InitialEncoder(start)
    {
      position := start;
      lastPos := start;
      lastValidPos := start;
      lastEncoderUpdate := 0;
      lastEncoderMovement := 0;
      lastScrollDirection := 0;
      directionHistory := new int[5](_ => 0);
      historyIndex := 0;
      consecutiveSameDirection := 0;
      volumeModeTicks := 0;
      new;
      assert directionHistory[..] == [0, 0, 0, 0, 0];
    }
  }

  /** The interrupt handler: the encoder library moves its counter by `counts`. */
  method Turn(e: Encoder, counts: int)
    modifies e
    ensures e.position == old(e.position) + counts
    ensures e.Snapshot() == old(e.Snapshot()).(position := e.position)
  {
    e.position := e.position + counts;
  }

  method GetDominantDirection(e: Encoder) returns (dominant: int)
    requires e.directionHistory.Length == HistoryLength
    ensures dominant == Dominant(e.directionHistory[..])
  {
    var sum := 0;
    var i := 0;
    while i < HistoryLength
      invariant 0 <= i <= HistoryLength
      invariant sum == Sum(e.directionHistory[..i])
    {
      assert e.directionHistory[..i + 1][..i] == e.directionHistory[..i];
      sum := sum + e.directionHistory[i];
      i := i + 1;
    }
    assert e.directionHistory[..i] == e.directionHistory[..];
    if sum >= MajorityVotes {
      return 1;
    }
    if sum <= -MajorityVotes {
      return -1;
    }
    return 0;
  }

  method CountOpposite(e: Encoder, dominant: int) returns (n: nat)
    requires e.directionHistory.Length == HistoryLength
    ensures n == Count(e.directionHistory[..], -dominant)
  {
    n := 0;
    var i := 0;
    while i < HistoryLength
      invariant 0 <= i <= HistoryLength
      invariant n == Count(e.directionHistory[..i], -dominant)
    {
      assert e.directionHistory[..i + 1][..i] == e.directionHistory[..i];
      if e.directionHistory[i] == -dominant {
        n := n + 1;
      }
      i := i + 1;
    }
    assert e.directionHistory[..i] == e.directionHistory[..];
  }

  method Filter(e: Encoder, now: Millis) returns (motion: Motion)
    requires e.Valid()
    modifies e, e.directionHistory
    ensures e.Valid()
    ensures (e.Snapshot(), motion) == AfterFilter(old(e.Snapshot()), now)
  {
    var newPos := e.position;
    if newPos == e.lastPos {
      return NoMotion;
    }
    var delta := newPos - e.lastPos;
    if Abs(delta) > JumpThreshold {
      e.position := e.lastValidPos;
      e.lastPos := e.lastValidPos;
      return Jumped;
    }
    if Elapsed(now, e.lastEncoderUpdate) < UpdateInterval {
      return Throttled;
    }
    var step := if delta > 0 then 1 else -1;
    Record(e, now, step);
    motion := Vote(e, step, newPos);
  }

  method Record(e: Encoder, now: Millis, step: int)
    requires e.Valid() && (step == 1 || step == -1)
    modifies e, e.directionHistory
    ensures e.Valid()
    ensures e.Snapshot() == Recorded(old(e.Snapshot()), now, step)
  {
    e.lastEncoderUpdate := now;
    e.lastEncoderMovement := now;
    e.directionHistory[e.historyIndex] := step;
    e.historyIndex := (e.historyIndex + 1) % HistoryLength;
    if step == e.lastScrollDirection {
      e.consecutiveSameDirection := e.consecutiveSameDirection + 1;
    } else {
      e.consecutiveSameDirection := 1;
    }
  }

  method Vote(e: Encoder, step: int, newPos: int) returns (motion: Motion)
    requires e.Valid()
    modifies e
    ensures e.Valid()
    ensures (e.Snapshot(), motion) == Voted(old(e.Snapshot()), step, newPos)
  {
    var dominant := GetDominantDirection(e);
    var step := step;
    if dominant != 0 {
      if e.consecutiveSameDirection >= 3 {
        if step != dominant {
          e.lastPos := newPos;
          e.lastValidPos := newPos;
          return Rejected;
        }
      } else if step != dominant {
        var opposite := CountOpposite(e, dominant);
        if opposite <= 1 {
          e.lastPos := newPos;
          e.lastValidPos := newPos;
          return Rejected;
        }
      }
      step := dominant;
      e.lastScrollDirection := dominant;
    } else {
      e.lastScrollDirection := step;
    }
    e.lastPos := newPos;
    e.lastValidPos := newPos;
    return Accepted(step);
  }

  method Scroll(d: Device, step: int)
    modifies d
    ensures d.State() == AfterScroll(old(d.State()), step)
  {
    if IsMenuScreen(d.screen.currentMenu) {
      var old_ := d.screen.menuIndex;
      d.screen := d.screen.(menuIndex := Clamped(d.screen.menuIndex + step, |d.screen.currentMenuItems|));
      if old_ != d.screen.menuIndex {
        d.screen := d.screen.(displayNeedsUpdate := true);
      }
    } else if d.screen.currentMenu == ArtistList && d.library.artists != [] {
      var old_ := d.library.artistIndex;
      d.library := d.library.(artistIndex := Clamped(d.library.artistIndex + step, |d.library.artists|));
      if old_ != d.library.artistIndex {
        d.screen := d.screen.(displayNeedsUpdate := true);
      }
    } else if d.screen.currentMenu == AlbumList && d.library.albums != [] {
      var old_ := d.library.albumIndex;
      d.library := d.library.(albumIndex := Clamped(d.library.albumIndex + step, |d.library.albums|));
      if old_ != d.library.albumIndex {
        d.screen := d.screen.(displayNeedsUpdate := true);
      }
    } else if d.screen.currentMenu == SongList && d.library.songs != [] {
      var old_ := d.library.songIndex;
      d.library := d.library.(songIndex := Clamped(d.library.songIndex + step, |d.library.songs|));
      if old_ != d.library.songIndex {
        d.screen := d.screen.(displayNeedsUpdate := true);
      }
    }
  }

  method ApplyStep(e: Encoder, d: Device, step: int, now: Millis)
    modifies e, d
    ensures (e.Snapshot(), d.State()) == AfterApplyStep(old(e.Snapshot()), old(d.State()), step, now)
  {
    if d.screen.currentMenu == NowPlaying {
      e.volumeModeTicks := e.volumeModeTicks + 1;
      if e.volumeModeTicks >= VolumeActivationTicks {
        d.controls := d.controls.(volumeControlActive := true);
        d.controls := d.controls.(currentVolume := Clamp(d.controls.currentVolume + step * 2, 0, 100));
        d.controls := d.controls.(lastVolumeChange := now);
        d.screen := d.screen.(displayNeedsUpdate := true);
      }
      return;
    }
    e.volumeModeTicks := 0;
    d.controls := d.controls.(volumeControlActive := false);
    Scroll(d, step);
  }

  method ClearHistory(e: Encoder)
    requires e.directionHistory.Length == HistoryLength
    modifies e.directionHistory
    ensures e.directionHistory[..] == [0, 0, 0, 0, 0]
  {
    var i := 0;
    while i < HistoryLength
      invariant 0 <= i <= HistoryLength
      invariant forall k :: 0 <= k < i ==> e.directionHistory[k] == 0
    {
      e.directionHistory[i] := 0;
      i := i + 1;
    }
  }

  method Idle(e: Encoder, d: Device, now: Millis)
    requires e.Valid()
    modifies e, e.directionHistory, d
    ensures e.Valid()
    ensures (e.Snapshot(), d.State()) == AfterIdle(old(e.Snapshot()), old(d.State()), now)
  {
    if d.controls.volumeControlActive {
      if Elapsed(now, d.controls.lastVolumeChange) > VolumeTimeout {
        d.controls := d.controls.(volumeControlActive := false);
        e.volumeModeTicks := 0;
        d.screen := d.screen.(displayNeedsUpdate := true);
      }
    } else if Elapsed(now, e.lastEncoderUpdate) > IdleReset {
      e.volumeModeTicks := 0;
    }
    if Elapsed(now, e.lastEncoderUpdate) > IdleReset {
      ClearHistory(e);
      e.historyIndex := 0;
      e.consecutiveSameDirection := 0;
      e.lastScrollDirection := 0;
    }
  }

  method UpdateEncoder(e: Encoder, d: Device, now: Millis, gotLock: bool)
    requires e.Valid()
    modifies e, e.directionHistory, d
    ensures e.Valid()
    ensures (e.Snapshot(), d.State()) == AfterUpdateEncoder(old(e.Snapshot()), old(d.State()), now, gotLock)
  {
    if e.position == e.lastPos {
      Idle(e, d, now);
      return;
    }
    var motion := Filter(e, now);
    if motion.Accepted? && gotLock {
      ApplyStep(e, d, motion.step, now);
    }
  }
}
