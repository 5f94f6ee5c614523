/**
 * RougePreferences (Preferences.cpp): volume and brightness kept in the
 * flash key-value store under the namespace "rouge". The store itself is
 * foreign; its contents are modelled as a map from key to 32-bit value, and
 * the result code of each store call is an input.
 */
module Preferences {
  import opened State

  type Int32 = x: int | -0x8000_0000 <= x < 0x8000_0000

  const Namespace: string := "rouge"
  const VolumeKey: string := "volume"
  const BrightnessKey: string := "brightness"
  const DefaultVolume: Int32 := 50
  const DefaultBrightness: Int32 := 255

  /** The result codes of the store's calls that the code tells apart. */
  datatype NvsResult = EspOk | NoFreePages | NewVersionFound | OtherError

  /** The object's fields and the contents of its namespace in flash. */
  datatype Prefs = Prefs(isOpen: bool, nvsHandle: int, store: map<string, Int32>)

  /**
   * begin: a no-op success when already open. Otherwise initialise the
   * store, erasing it (and initialising again) when it reports it is full or
   * of a newer format, then open the namespace, which yields `handle`.
   */
  function AfterBegin(p: Prefs, initResult: NvsResult, reinitResult: NvsResult,
                      openResult: NvsResult, handle: int): (Prefs, bool)
  {
    if p.isOpen then (p, true)
    else
      var erased := initResult == NoFreePages || initResult == NewVersionFound;
      var p1 := if erased then p.(store := map[]) else p;
      var err := if erased then reinitResult else initResult;
      if err != EspOk then (p1, false)
      else if openResult != EspOk then (p1, false)
      else (p1.(isOpen := true, nvsHandle := handle), true)
  }

  function AfterEnd(p: Prefs): Prefs {
    if p.isOpen then p.(isOpen := false, nvsHandle := 0) else p
  }

  /** saveVolume: store the volume clamped to 0..100, if open and the write succeeds. */
  function AfterSaveVolume(p: Prefs, volume: Int32, setResult: NvsResult): Prefs {
    if !p.isOpen then p
    else
      var v: Int32 := Clamp(volume, 0, 100);
      if setResult != EspOk then p
      else p.(store := p.store[VolumeKey := v])
  }

  /** loadVolume; `readFault` is whether the read reports an error other than a missing key. */
  function LoadedVolume(p: Prefs, readFault: bool): int {
    if !p.isOpen then DefaultVolume
    else if VolumeKey !in p.store then DefaultVolume
    else if readFault then DefaultVolume
    else Clamp(p.store[VolumeKey], 0, 100)
  }

  /** saveBrightness: store the value as given, if open and the write succeeds. */
  function AfterSaveBrightness(p: Prefs, brightness: Int32, setResult: NvsResult): Prefs {
    if !p.isOpen then p
    else if setResult != EspOk then p
    else p.(store := p.store[BrightnessKey := brightness])
  }

  /**
   * loadBrightness: full brightness when closed, on a read error, or when no
   * value is stored (then full brightness is also saved, with `setResult`
   * the outcome of that write); otherwise the stored value as it is.
   */
  function AfterLoadBrightness(p: Prefs, readFault: bool, setResult: NvsResult): (Prefs, int) {
    if !p.isOpen then (p, DefaultBrightness)
    else if BrightnessKey !in p.store then (AfterSaveBrightness(p, DefaultBrightness, setResult), DefaultBrightness)
    else if readFault then (p, DefaultBrightness)
    else (p, p.store[BrightnessKey])
  }

  // ---------------------------------------------------------------------------
  // Properties of the store
  // ---------------------------------------------------------------------------

  /**
   * begin on an open store succeeds without touching anything. Otherwise it
   * succeeds exactly when initialisation and opening both do, and only then
   * is the store open; the contents are lost only when initialisation asked
   * for an erase.
   */
  lemma BeginOutcome(p: Prefs, initResult: NvsResult, reinitResult: NvsResult, openResult: NvsResult, handle: int)
    ensures var (r, ok) := AfterBegin(p, initResult, reinitResult, openResult, handle);
      (p.isOpen ==> r == p && ok) &&
      (!p.isOpen ==>
         var erased := initResult == NoFreePages || initResult == NewVersionFound;
         (ok <==> (if erased then reinitResult else initResult) == EspOk && openResult == EspOk) &&
         r.isOpen == ok && (ok ==> r.nvsHandle == handle) &&
         (erased ==> r.store == map[]) && (!erased ==> r.store == p.store))
  {
  }

  /** end closes an open store and forgets its handle; a second end does nothing. */
  lemma EndIdempotent(p: Prefs)
    ensures var r := AfterEnd(p);
      !r.isOpen && r.store == p.store && AfterEnd(r) == r &&
      (p.isOpen ==> r.nvsHandle == 0) && (!p.isOpen ==> r == p)
  {
  }

  /** Saving the volume on a closed store, or with a failing write, changes nothing; otherwise it stores the clamp. */
  lemma SaveVolumeClamps(p: Prefs, volume: Int32, setResult: NvsResult)
    ensures var r := AfterSaveVolume(p, volume, setResult);
      (!p.isOpen || setResult != EspOk ==> r == p) &&
      (p.isOpen && setResult == EspOk ==>
         r.store == p.store[VolumeKey := Clamp(volume, 0, 100)] && 0 <= r.store[VolumeKey] <= 100 &&
         r.isOpen == p.isOpen && r.nvsHandle == p.nvsHandle)
  {
  }

  /** The loaded volume is always in 0..100, and is 50 when closed, when nothing is stored, or on an error. */
  lemma LoadVolumeDefaults(p: Prefs, readFault: bool)
    ensures 0 <= LoadedVolume(p, readFault) <= 100
    ensures !p.isOpen || VolumeKey !in p.store || readFault ==> LoadedVolume(p, readFault) == DefaultVolume
  {
  }

  /** A volume saved with a successful write loads back clamped to 0..100. */
  lemma VolumeRoundTrip(p: Prefs, volume: Int32)
    requires p.isOpen
    ensures LoadedVolume(AfterSaveVolume(p, volume, EspOk), false) == Clamp(volume, 0, 100)
    ensures 0 <= volume <= 100 ==> LoadedVolume(AfterSaveVolume(p, volume, EspOk), false) == volume
  {
  }

  /** A saved volume survives closing and reopening the store, unless initialisation erases it. */
  lemma VolumeSurvivesReopen(p: Prefs, volume: Int32, handle: int)
    requires p.isOpen
    ensures var q := AfterSaveVolume(p, volume, EspOk);
      var (r, ok) := AfterBegin(AfterEnd(q), EspOk, EspOk, EspOk, handle);
      ok && LoadedVolume(r, false) == Clamp(volume, 0, 100)
  {
  }

  /**
   * Brightness is stored unclamped, so what loads back is exactly what was
   * saved, in or out of 0..255; saving the brightness leaves the volume alone.
   */
  lemma BrightnessRoundTrip(p: Prefs, brightness: Int32, readFault: bool, setResult: NvsResult)
    requires p.isOpen
    ensures var q := AfterSaveBrightness(p, brightness, EspOk);
      AfterLoadBrightness(q, false, setResult) == (q, brightness) &&
      LoadedVolume(q, readFault) == LoadedVolume(p, readFault)
  {
  }

  /**
   * loadBrightness gives 255 when closed, on a read error, or when nothing
   * is stored; in the last case it also saves 255 (if that write succeeds),
   * and otherwise it changes nothing.
   */
  lemma LoadBrightnessDefaults(p: Prefs, readFault: bool, setResult: NvsResult)
    ensures var (r, b) := AfterLoadBrightness(p, readFault, setResult);
      (!p.isOpen || readFault || BrightnessKey !in p.store ==> b == DefaultBrightness) &&
      (p.isOpen && BrightnessKey !in p.store && setResult == EspOk ==>
         r.store == p.store[BrightnessKey := DefaultBrightness]) &&
      (!(p.isOpen && BrightnessKey !in p.store && setResult == EspOk) ==> r == p)
  {
  }

  /** Closed, every save is a no-op. */
  lemma ClosedStoreIsInert(p: Prefs, v: Int32, setResult: NvsResult)
    requires !p.isOpen
    ensures AfterSaveVolume(p, v, setResult) == p && AfterSaveBrightness(p, v, setResult) == p
  {
  }

  // ---------------------------------------------------------------------------
  // The object
  // ---------------------------------------------------------------------------

  class RougePreferences {
    var isOpen: bool
    var nvsHandle: int
    var store: map<string, Int32>   // the namespace's contents in flash

    function State(): Prefs
      reads this
    {
      Prefs(isOpen, nvsHandle, store)
    }

    /** The object starts closed; the flash holds `stored` from earlier runs. */
    constructor (stored: map<string, Int32>)
      ensures State() == Prefs(false, 0, stored)
    {
      isOpen := false;
      nvsHandle := 0;
      store := stored;
    }

    method Begin(initResult: NvsResult, reinitResult: NvsResult, openResult: NvsResult, handle: int)
      returns (ok: bool)
      modifies this
      ensures (State(), ok) == AfterBegin(old(State()), initResult, reinitResult, openResult, handle)
    {
      if isOpen {
        return true;
      }
      var err := initResult;
      if err == NoFreePages || err == NewVersionFound {
        store := map[];
        err := reinitResult;
      }
      if err != EspOk {
        return false;
      }
      if openResult != EspOk {
        return false;
      }
      nvsHandle := handle;
      isOpen := true;
      return true;
    }

    method End()
      modifies this
      ensures State() == AfterEnd(old(State()))
    {
      if isOpen {
        isOpen := false;
        nvsHandle := 0;
      }
    }

    method SaveVolume(volume: Int32, setResult: NvsResult)
      modifies this
      ensures State() == AfterSaveVolume(old(State()), volume, setResult)
    {
      if !isOpen {
        return;
      }
      var v := volume;
      if v < 0 {
        v := 0;
      }
      if v > 100 {
        v := 100;
      }
      if setResult != EspOk {
        return;
      }
      store := store[VolumeKey := v];
    }

    method LoadVolume(readFault: bool) returns (volume: int)
      ensures volume == LoadedVolume(State(), readFault)
    {
      if !isOpen {
        return DefaultVolume;
      }
      if VolumeKey !in store {
        return DefaultVolume;
      } else if readFault {
        return DefaultVolume;
      }
      volume := store[VolumeKey];
      if volume < 0 {
        volume := 0;
      }
      if volume > 100 {
        volume := 100;
      }
    }

    method SaveBrightness(brightness: Int32, setResult: NvsResult)
      modifies this
      ensures State() == AfterSaveBrightness(old(State()), brightness, setResult)
    {
      if !isOpen {
        return;
      }
      if setResult != EspOk {
        return;
      }
      store := store[BrightnessKey := brightness];
    }

    method LoadBrightness(readFault: bool, setResult: NvsResult) returns (brightness: int)
      modifies this
      ensures (State(), brightness) == AfterLoadBrightness(old(State()), readFault, setResult)
    {
      if !isOpen {
        return DefaultBrightness;
      }
      if BrightnessKey !in store {
        SaveBrightness(DefaultBrightness, setResult);
        return DefaultBrightness;
      }
      if readFault {
        return DefaultBrightness;
      }
      return store[BrightnessKey];
    }
  }
}
