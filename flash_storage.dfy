/** The settings record store of main/flash_storage.cpp: one in-memory
    `TelescopeSettings` record behind an "initialised" flag, per-field
    access by key name, reset to defaults, and the additive byte checksum.
    The block-device functions of this configuration are stubs that fail. */
module FlashStorage {
  import opened Common

  /** "TELE" in ASCII. */
  const SettingsMagic: uint32 := 0x54454C45

  const DefaultTolerance: real := 2.0

  /** The record of main/flash_storage.h: twelve 4-byte fields, 48 bytes. */
  datatype TelescopeSettings = TelescopeSettings(
    magic: uint32,
    parkPitch: Float,
    parkRoll: Float,
    tolerance: Float,
    calAxOffset: Float,
    calAyOffset: Float,
    calAzOffset: Float,
    calGxOffset: Float,
    calGyOffset: Float,
    calGzOffset: Float,
    calTimestamp: uint32,
    checksum: uint32)

  /** A record whose every byte is zero: the value of the static record
      before `initFlashStorage` runs. */
  const ZeroSettings: TelescopeSettings :=
    TelescopeSettings(0, Finite(0.0), Finite(0.0), Finite(0.0),
                      Finite(0.0), Finite(0.0), Finite(0.0),
                      Finite(0.0), Finite(0.0), Finite(0.0), 0, 0)

  /** The default values written by `initFlashStorage` and
      `clearAllFlashSettings`, with the given checksum field. */
  function Defaults(checksum: uint32): (s: TelescopeSettings)
    ensures s.magic == SettingsMagic && s.checksum == checksum
    ensures s.tolerance == Finite(DefaultTolerance) && s.calTimestamp == 0
    ensures forall k: Key :: k != Tolerance ==> ReadField(s, k) == Finite(0.0)
  {
    TelescopeSettings(SettingsMagic, Finite(0.0), Finite(0.0), Finite(DefaultTolerance),
                      Finite(0.0), Finite(0.0), Finite(0.0),
                      Finite(0.0), Finite(0.0), Finite(0.0), 0, checksum)
  }

  // ---------------------------------------------------------------------
  // Keys

  /** The preference keys the store recognises. */
  datatype Key =
    | ParkPitch | ParkRoll | Tolerance
    | CalAxOffset | CalAyOffset | CalAzOffset
    | CalGxOffset | CalGyOffset | CalGzOffset
    | CalTimestamp

  function KeyName(k: Key): string
  {
    match k
    case ParkPitch => "parkPitch"
    case ParkRoll => "parkRoll"
    case Tolerance => "tolerance"
    case CalAxOffset => "cal_ax_offset"
    case CalAyOffset => "cal_ay_offset"
    case CalAzOffset => "cal_az_offset"
    case CalGxOffset => "cal_gx_offset"
    case CalGyOffset => "cal_gy_offset"
    case CalGzOffset => "cal_gz_offset"
    case CalTimestamp => "cal_timestamp"
  }

  /** The key a name denotes, if any: exactly the names `KeyName` gives. */
  function ParseKey(name: string): (r: Option<Key>)
    ensures r.Some? ==> KeyName(r.value) == name
    ensures r.None? ==> forall k: Key :: KeyName(k) != name
  {
    if name == "parkPitch" then Some(ParkPitch)
    else if name == "parkRoll" then Some(ParkRoll)
    else if name == "tolerance" then Some(Tolerance)
    else if name == "cal_ax_offset" then Some(CalAxOffset)
    else if name == "cal_ay_offset" then Some(CalAyOffset)
    else if name == "cal_az_offset" then Some(CalAzOffset)
    else if name == "cal_gx_offset" then Some(CalGxOffset)
    else if name == "cal_gy_offset" then Some(CalGyOffset)
    else if name == "cal_gz_offset" then Some(CalGzOffset)
    else if name == "cal_timestamp" then Some(CalTimestamp)
    else None
  }

  lemma ParseKeyName(k: Key)
    ensures ParseKey(KeyName(k)) == Some(k)
  {
  }

  // ---------------------------------------------------------------------
  // Field access

  /** C++'s `(uint32_t)` cast of a float: truncation toward zero for values
      in range. Out-of-range and not-a-number values are undefined
      behaviour in C++; the model maps them to 0. */
  function TruncateToUint32(f: Float): (r: uint32)
    ensures f.Finite? && 0.0 <= f.value < Uint32Modulus as real ==>
              r as real <= f.value < r as real + 1.0
  {
    if f.Finite? && 0.0 <= f.value < Uint32Modulus as real then f.value.Floor else 0
  }

  /** The value `loadFloatFromFlash` reads for a key; the timestamp is
      widened to float. */
  function ReadField(s: TelescopeSettings, k: Key): Float
  {
    match k
    case ParkPitch => s.parkPitch
    case ParkRoll => s.parkRoll
    case Tolerance => s.tolerance
    case CalAxOffset => s.calAxOffset
    case CalAyOffset => s.calAyOffset
    case CalAzOffset => s.calAzOffset
    case CalGxOffset => s.calGxOffset
    case CalGyOffset => s.calGyOffset
    case CalGzOffset => s.calGzOffset
    case CalTimestamp => Finite(s.calTimestamp as real)
  }

  /** The record `saveFloatToFlash` leaves after writing one key: that key
      reads back the value (truncated for the timestamp), every other key,
      the magic and the checksum are as before. */
  function WriteField(s: TelescopeSettings, k: Key, v: Float): (r: TelescopeSettings)
    ensures k != CalTimestamp ==> ReadField(r, k) == v
    ensures k == CalTimestamp ==> r.calTimestamp == TruncateToUint32(v)
    ensures forall k': Key :: k' != k ==> ReadField(r, k') == ReadField(s, k')
    ensures r.magic == s.magic && r.checksum == s.checksum
  {
    match k
    case ParkPitch => s.(parkPitch := v)
    case ParkRoll => s.(parkRoll := v)
    case Tolerance => s.(tolerance := v)
    case CalAxOffset => s.(calAxOffset := v)
    case CalAyOffset => s.(calAyOffset := v)
    case CalAzOffset => s.(calAzOffset := v)
    case CalGxOffset => s.(calGxOffset := v)
    case CalGyOffset => s.(calGyOffset := v)
    case CalGzOffset => s.(calGzOffset := v)
    case CalTimestamp => s.(calTimestamp := TruncateToUint32(v))
  }

  /** Writing a key and reading it back gives the written value for every
      float-typed key, and an integral in-range timestamp survives too. */
  lemma WriteThenRead(s: TelescopeSettings, k: Key, v: Float)
    requires k == CalTimestamp ==> v.Finite? && 0.0 <= v.value < Uint32Modulus as real && v.value == v.value.Floor as real
    ensures ReadField(WriteField(s, k, v), k) == v
  {
  }

  /** Writing the value a key already holds changes nothing. */
  lemma WriteSameValue(s: TelescopeSettings, k: Key)
    ensures WriteField(s, k, ReadField(s, k)) == s
  {
    if k == CalTimestamp {
      assert TruncateToUint32(Finite(s.calTimestamp as real)) == s.calTimestamp;
    }
  }

  /** The record the reset leaves: defaults everywhere but the checksum. */
  function Cleared(s: TelescopeSettings): (r: TelescopeSettings)
    ensures r == Defaults(s.checksum)
  {
    s.(magic := SettingsMagic, parkPitch := Finite(0.0), parkRoll := Finite(0.0),
       tolerance := Finite(DefaultTolerance),
       calAxOffset := Finite(0.0), calAyOffset := Finite(0.0), calAzOffset := Finite(0.0),
       calGxOffset := Finite(0.0), calGyOffset := Finite(0.0), calGzOffset := Finite(0.0),
       calTimestamp := 0)
  }

  lemma ClearedIdempotent(s: TelescopeSettings)
    ensures Cleared(Cleared(s)) == Cleared(s)
  {
  }

  /** Resetting after a write gives the same record as resetting straight
      away: a write never reaches the checksum field. */
  lemma ClearedForgetsWrite(s: TelescopeSettings, k: Key, v: Float)
    ensures Cleared(WriteField(s, k, v)) == Cleared(s)
  {
  }

  // ---------------------------------------------------------------------
  // Checksum

  /** Size of the record and of the part the checksum covers, in bytes. */
  const RecordSize: nat := 48
  const ChecksummedSize: nat := 44

  /** The four bytes of a 32-bit word in memory (the target is little-endian). */
  function WordBytes(w: uint32): (b: seq<byte>)
    ensures |b| == 4
  {
    [w % 0x100, (w / 0x100) % 0x100, (w / 0x1_0000) % 0x100, w / 0x100_0000]
  }

  /** The record as it lies in memory. `bits` gives the IEEE-754 bit pattern
      of each float; the encoding itself is not modelled. */
  function Image(s: TelescopeSettings, bits: Float -> uint32): (img: seq<byte>)
    ensures |img| == RecordSize
    ensures img[ChecksummedSize..] == WordBytes(s.checksum)
  {
    WordBytes(s.magic) + WordBytes(bits(s.parkPitch)) + WordBytes(bits(s.parkRoll))
    + WordBytes(bits(s.tolerance)) + WordBytes(bits(s.calAxOffset))
    + WordBytes(bits(s.calAyOffset)) + WordBytes(bits(s.calAzOffset))
    + WordBytes(bits(s.calGxOffset)) + WordBytes(bits(s.calGyOffset))
    + WordBytes(bits(s.calGzOffset)) + WordBytes(s.calTimestamp)
    + WordBytes(s.checksum)
  }

  /** The unbounded sum of a byte sequence, adding from the front. */
  function ByteSum(b: seq<byte>): int
  {
    if |b| == 0 then 0 else ByteSum(b[..|b| - 1]) + b[|b| - 1]
  }

  /** The checksum of a record image: the sum of its first 44 bytes with
      32-bit wrap-around. */
  function ImageChecksum(img: seq<byte>): uint32
    requires |img| == RecordSize
  {
    ByteSum(img[..ChecksummedSize]) % Uint32Modulus
  }

  /** `calculateChecksum`: the record is read through a byte pointer, and
      the accumulator loop runs over the bytes before the checksum field. */
  method CalculateChecksum(settings: TelescopeSettings, bits: Float -> uint32)
    returns (checksum: uint32)
    ensures checksum == ImageChecksum(Image(settings, bits))
  {
    checksum := SumBytes(Image(settings, bits));
  }

  /** The loop of `calculateChecksum` over the record's bytes. */
  method SumBytes(data: seq<byte>) returns (checksum: uint32)
    requires |data| == RecordSize
    ensures checksum == ImageChecksum(data)
  {
    checksum := 0;
    var i := 0;
    while i < ChecksummedSize
      invariant 0 <= i <= ChecksummedSize
      invariant checksum == ByteSum(data[..i]) % Uint32Modulus
    {
      assert data[..i + 1][..i] == data[..i];
      AddMod(ByteSum(data[..i]), data[i]);
      checksum := (checksum + data[i]) % Uint32Modulus;
      i := i + 1;
    }
    assert data[..ChecksummedSize] == data[..i];
  }

  /** Reducing the accumulator before each addition gives the same
      remainder as reducing the whole sum once. */
  lemma AddMod(a: int, b: int)
    ensures (a % Uint32Modulus + b) % Uint32Modulus == (a + b) % Uint32Modulus
  {
    var m := Uint32Modulus;
    var q := a / m;
    assert a == m * q + a % m;
    assert a + b == m * q + (a % m + b);
    ModShift(a % m + b, q);
  }

  lemma ModShift(r: int, q: int)
    ensures (Uint32Modulus * q + r) % Uint32Modulus == r % Uint32Modulus
  {
  }

  lemma {:induction false} ByteSumBounds(b: seq<byte>)
    ensures 0 <= ByteSum(b) <= 255 * |b|
  {
    if |b| > 0 {
      ByteSumBounds(b[..|b| - 1]);
    }
  }

  /** At most 44 bytes of value 255 are added, so the sum stays at or below
      11220 and the 32-bit wrap-around never happens for this record. */
  lemma ChecksumNeverWraps(img: seq<byte>)
    requires |img| == RecordSize
    ensures ImageChecksum(img) == ByteSum(img[..ChecksummedSize]) <= 11220
  {
    ByteSumBounds(img[..ChecksummedSize]);
  }

  /** The checksum field does not take part in the checksum. */
  lemma ChecksumExcludesChecksumField(s: TelescopeSettings, c: uint32, bits: Float -> uint32)
    ensures ImageChecksum(Image(s.(checksum := c), bits)) == ImageChecksum(Image(s, bits))
  {
    var s' := s.(checksum := c);
    assert Image(s', bits)[..ChecksummedSize] == Image(s, bits)[..ChecksummedSize];
  }

  /** Changing one byte at position `j` changes the unbounded sum by exactly
      the difference of the two bytes. */
  lemma {:induction false} ByteSumUpdate(b: seq<byte>, j: nat, x: byte)
    requires j < |b|
    ensures ByteSum(b[j := x]) == ByteSum(b) - b[j] + x
  {
    var b' := b[j := x];
    if j == |b| - 1 {
      assert b'[..|b'| - 1] == b[..|b| - 1];
    } else {
      assert b'[..|b'| - 1] == b[..|b| - 1][j := x];
      ByteSumUpdate(b[..|b| - 1], j, x);
    }
  }

  /** A corruption of any single byte before the checksum field (in
      particular any single-bit flip) changes the checksum. */
  lemma SingleByteCorruptionDetected(img: seq<byte>, j: nat, x: byte)
    requires |img| == RecordSize && j < ChecksummedSize && x != img[j]
    ensures ImageChecksum(img[j := x]) != ImageChecksum(img)
  {
    var img' := img[j := x];
    assert img'[..ChecksummedSize] == img[..ChecksummedSize][j := x];
    ByteSumUpdate(img[..ChecksummedSize], j, x);
    ChecksumNeverWraps(img);
    ChecksumNeverWraps(img');
  }

  /** The weakness the design accepts: exchanging two bytes before the
      checksum field goes unnoticed. */
  lemma ByteSwapUndetected(img: seq<byte>, i: nat, j: nat)
    requires |img| == RecordSize && i < ChecksummedSize && j < ChecksummedSize
    ensures ImageChecksum(img[i := img[j]][j := img[i]]) == ImageChecksum(img)
  {
    var pre := img[..ChecksummedSize];
    assert img[i := img[j]][j := img[i]][..ChecksummedSize] == pre[i := pre[j]][j := pre[i]];
    ByteSumUpdate(pre, i, pre[j]);
    ByteSumUpdate(pre[i := pre[j]], j, pre[i]);
  }

  // ---------------------------------------------------------------------
  // The store

  /** `isFlashStorageAvailable`: this configuration has no durable storage. */
  function IsFlashStorageAvailable(): (r: bool)
    ensures !r
  {
    false
  }

  /** `saveSettingsToFlash`: a stub that always fails. */
  method SaveSettingsToFlash(settings: TelescopeSettings) returns (ok: bool)
    ensures !ok
  {
    ok := false;
  }

  /** `loadSettingsFromFlash`: a stub that always fails and leaves the
      caller's record as it was. */
  method LoadSettingsFromFlash(settings: TelescopeSettings)
    returns (ok: bool, loaded: TelescopeSettings)
    ensures !ok && loaded == settings
  {
    ok := false;
    loaded := settings;
  }

  /** `eraseSettingsFlash`: a stub that always fails. */
  method EraseSettingsFlash() returns (ok: bool)
    ensures !ok
  {
    ok := false;
  }

  /** The static `currentSettings` record and `flashStorageInitialized` flag. */
  class Store {
    var currentSettings: TelescopeSettings
    var flashStorageInitialized: bool

    /** Program start: static storage is zero-filled. */
    constructor ()
      ensures currentSettings == ZeroSettings && !flashStorageInitialized
    {
      currentSettings := ZeroSettings;
      flashStorageInitialized := false;
    }

    /** `initFlashStorage`: seeds the defaults (checksum 0), marks the store
        initialised and reports that there is no persistent storage. */
    method InitFlashStorage() returns (persistent: bool)
      modifies this
      ensures currentSettings == Defaults(0) && flashStorageInitialized
      ensures !persistent
    {
      currentSettings := currentSettings.(magic := SettingsMagic);
      currentSettings := currentSettings.(parkPitch := Finite(0.0));
      currentSettings := currentSettings.(parkRoll := Finite(0.0));
      currentSettings := currentSettings.(tolerance := Finite(DefaultTolerance));
      currentSettings := currentSettings.(calAxOffset := Finite(0.0));
      currentSettings := currentSettings.(calAyOffset := Finite(0.0));
      currentSettings := currentSettings.(calAzOffset := Finite(0.0));
      currentSettings := currentSettings.(calGxOffset := Finite(0.0));
      currentSettings := currentSettings.(calGyOffset := Finite(0.0));
      currentSettings := currentSettings.(calGzOffset := Finite(0.0));
      currentSettings := currentSettings.(calTimestamp := 0);
      currentSettings := currentSettings.(checksum := 0);
      flashStorageInitialized := true;
      persistent := false;
    }

    /** `saveFloatToFlash`: before initialisation nothing happens; a known
        key updates exactly its field; an unknown key is rejected. */
    method SaveFloatToFlash(key: string, value: Float) returns (ok: bool)
      modifies this
      ensures ok <==> old(flashStorageInitialized) && ParseKey(key).Some?
      ensures currentSettings ==
                (if ok then WriteField(old(currentSettings), ParseKey(key).value, value)
                 else old(currentSettings))
      ensures flashStorageInitialized == old(flashStorageInitialized)
    {
      if !flashStorageInitialized {
        return false;
      }
      if key == "parkPitch" {
        currentSettings := currentSettings.(parkPitch := value);
      } else if key == "parkRoll" {
        currentSettings := currentSettings.(parkRoll := value);
      } else if key == "tolerance" {
        currentSettings := currentSettings.(tolerance := value);
      } else if key == "cal_ax_offset" {
        currentSettings := currentSettings.(calAxOffset := value);
      } else if key == "cal_ay_offset" {
        currentSettings := currentSettings.(calAyOffset := value);
      } else if key == "cal_az_offset" {
        currentSettings := currentSettings.(calAzOffset := value);
      } else if key == "cal_gx_offset" {
        currentSettings := currentSettings.(calGxOffset := value);
      } else if key == "cal_gy_offset" {
        currentSettings := currentSettings.(calGyOffset := value);
      } else if key == "cal_gz_offset" {
        currentSettings := currentSettings.(calGzOffset := value);
      } else if key == "cal_timestamp" {
        currentSettings := currentSettings.(calTimestamp := TruncateToUint32(value));
      } else {
        return false;
      }
      ok := true;
    }

    /** `loadFloatFromFlash`: the stored field for a known key once
        initialised, the caller's default otherwise. */
    method LoadFloatFromFlash(key: string, defaultValue: Float) returns (value: Float)
      ensures value == (if flashStorageInitialized && ParseKey(key).Some?
                        then ReadField(currentSettings, ParseKey(key).value)
                        else defaultValue)
    {
      if !flashStorageInitialized {
        return defaultValue;
      }
      value := defaultValue;
      if key == "parkPitch" {
        value := currentSettings.parkPitch;
      } else if key == "parkRoll" {
        value := currentSettings.parkRoll;
      } else if key == "tolerance" {
        value := currentSettings.tolerance;
      } else if key == "cal_ax_offset" {
        value := currentSettings.calAxOffset;
      } else if key == "cal_ay_offset" {
        value := currentSettings.calAyOffset;
      } else if key == "cal_az_offset" {
        value := currentSettings.calAzOffset;
      } else if key == "cal_gx_offset" {
        value := currentSettings.calGxOffset;
      } else if key == "cal_gy_offset" {
        value := currentSettings.calGyOffset;
      } else if key == "cal_gz_offset" {
        value := currentSettings.calGzOffset;
      } else if key == "cal_timestamp" {
        value := Finite(currentSettings.calTimestamp as real);
      } else {
        return defaultValue;
      }
    }

    /** `clearAllFlashSettings`: refused before initialisation; otherwise
        every field but the checksum goes back to its default. */
    method ClearAllFlashSettings() returns (ok: bool)
      modifies this
      ensures ok == old(flashStorageInitialized)
      ensures currentSettings == (if ok then Cleared(old(currentSettings)) else old(currentSettings))
      ensures flashStorageInitialized == old(flashStorageInitialized)
    {
      if !flashStorageInitialized {
        return false;
      }
      currentSettings := currentSettings.(magic := SettingsMagic);
      currentSettings := currentSettings.(parkPitch := Finite(0.0));
      currentSettings := currentSettings.(parkRoll := Finite(0.0));
      currentSettings := currentSettings.(tolerance := Finite(DefaultTolerance));
      currentSettings := currentSettings.(calAxOffset := Finite(0.0));
      currentSettings := currentSettings.(calAyOffset := Finite(0.0));
      currentSettings := currentSettings.(calAzOffset := Finite(0.0));
      currentSettings := currentSettings.(calGxOffset := Finite(0.0));
      currentSettings := currentSettings.(calGyOffset := Finite(0.0));
      currentSettings := currentSettings.(calGzOffset := Finite(0.0));
      currentSettings := currentSettings.(calTimestamp := 0);
      ok := true;
    }
  }

  /** A client run of the store: after initialisation a saved float reads
      back, an unknown key changes nothing, and clearing twice is clearing
      once. */
  method StoreScenario(v: Float) returns (loaded: Float, unknownSaved: bool)
    ensures loaded == v && !unknownSaved
  {
    var store := new Store();
    var _ := store.InitFlashStorage();
    var ok := store.SaveFloatToFlash("parkRoll", v);
    var before := store.currentSettings;
    unknownSaved := store.SaveFloatToFlash("parkYaw", v);
    assert store.currentSettings == before;
    loaded := store.LoadFloatFromFlash("parkRoll", Finite(-1.0));
    var c1 := store.ClearAllFlashSettings();
    var once := store.currentSettings;
    var c2 := store.ClearAllFlashSettings();
    assert store.currentSettings == once;
  }
}
