/** main/helpers.cpp: the park decision, position validation, the
    preference facade over the settings store, and the JSON text builders. */
module Helpers {
  import opened Common
  import opened ArduinoString
  import FlashStorage

  // ---------------------------------------------------------------------
  // Position validation and the park decision

  /** A pitch/roll pair as `readPosition` produces it. */
  datatype Angles = Angles(pitch: Float, roll: Float)

  /** `isValidPosition`: neither angle is not-a-number, pitch lies in
      [-90, 90] and roll in [-180, 180]. */
  predicate IsValidPosition(pitch: Float, roll: Float)
  {
    !IsNaN(pitch) && !IsNaN(roll)
    && -90.0 <= pitch.value <= 90.0
    && -180.0 <= roll.value <= 180.0
  }

  /** `calculatePositionDifference`: the distance between two angles. */
  function CalculatePositionDifference(current: real, target: real): (d: real)
    ensures d >= 0.0
    ensures d == 0.0 <==> current == target
    ensures current - d <= target <= current + d
    ensures d == current - target || d == target - current
  {
    Abs(current - target)
  }

  lemma PositionDifferenceSymmetric(a: real, b: real)
    ensures CalculatePositionDifference(a, b) == CalculatePositionDifference(b, a)
  {
  }

  /** The park band: each axis separately within the tolerance, both bounds
      included. */
  predicate WithinParkBand(pitch: real, roll: real, parkPitch: real, parkRoll: real, tolerance: real)
  {
    parkPitch - tolerance <= pitch <= parkPitch + tolerance
    && parkRoll - tolerance <= roll <= parkRoll + tolerance
  }

  /** The decision `updatePositionAndParkStatus` takes after a good read. */
  function ParkDecision(pitch: real, roll: real, parkPitch: real, parkRoll: real, tolerance: real): (parked: bool)
    ensures parked <==> WithinParkBand(pitch, roll, parkPitch, parkRoll, tolerance)
  {
    var pitchDiff := CalculatePositionDifference(pitch, parkPitch);
    var rollDiff := CalculatePositionDifference(roll, parkRoll);
    pitchDiff <= tolerance && rollDiff <= tolerance
  }

  /** Worked cases: on the park position, inside, on the boundary (included)
      and outside the 2-degree default band. */
  lemma ParkDecisionExamples()
    ensures ParkDecision(0.0, 0.0, 0.0, 0.0, 2.0)
    ensures ParkDecision(2.0, 0.0, 0.0, 0.0, 2.0)
    ensures ParkDecision(-2.0, 2.0, 0.0, 0.0, 2.0)
    ensures !ParkDecision(3.0, 0.0, 0.0, 0.0, 2.0)
    ensures !ParkDecision(0.0, -2.5, 0.0, 0.0, 2.0)
  {
  }

  /** Globals the main sketch declares and helpers.cpp updates:
      `currentPitch`, `currentRoll`, `isParked`, `parkPitch`, `parkRoll`
      and `positionTolerance`. */
  class ParkState {
    var currentPitch: Float
    var currentRoll: Float
    var isParked: bool
    var parkPitch: real
    var parkRoll: real
    var positionTolerance: real

    constructor (currentPitch: Float, currentRoll: Float, parkPitch: real, parkRoll: real,
                 positionTolerance: real)
      ensures this.currentPitch == currentPitch && this.currentRoll == currentRoll
      ensures this.parkPitch == parkPitch && this.parkRoll == parkRoll
      ensures this.positionTolerance == positionTolerance && !isParked
    {
      this.currentPitch := currentPitch;
      this.currentRoll := currentRoll;
      this.parkPitch := parkPitch;
      this.parkRoll := parkRoll;
      this.positionTolerance := positionTolerance;
      isParked := false;
    }

    /** `updatePositionAndParkStatus`, given the outcome of `readPosition`
        (a successful read only ever yields a valid position). A good read
        becomes the current position and decides the park status; a failed
        read means "not parked" and leaves the current position alone. */
    method UpdatePositionAndParkStatus(reading: Option<Angles>)
      requires reading.Some? ==> IsValidPosition(reading.value.pitch, reading.value.roll)
      modifies this`currentPitch, this`currentRoll, this`isParked
      ensures reading.Some? ==>
                currentPitch == reading.value.pitch && currentRoll == reading.value.roll
                && (isParked <==> WithinParkBand(currentPitch.value, currentRoll.value,
                                                 parkPitch, parkRoll, positionTolerance))
      ensures reading.None? ==>
                !isParked && currentPitch == old(currentPitch) && currentRoll == old(currentRoll)
    {
      if reading.Some? {
        currentPitch := reading.value.pitch;
        currentRoll := reading.value.roll;
        var pitchDiff := CalculatePositionDifference(currentPitch.value, parkPitch);
        var rollDiff := CalculatePositionDifference(currentRoll.value, parkRoll);
        var newParkedStatus := pitchDiff <= positionTolerance && rollDiff <= positionTolerance;
        isParked := newParkedStatus;
      } else {
        isParked := false;
      }
    }

    /** `isCurrentlyParked`: refresh, then report. */
    method IsCurrentlyParked(reading: Option<Angles>) returns (parked: bool)
      requires reading.Some? ==> IsValidPosition(reading.value.pitch, reading.value.roll)
      modifies this`currentPitch, this`currentRoll, this`isParked
      ensures parked == isParked
      ensures reading.Some? ==> currentPitch == reading.value.pitch && currentRoll == reading.value.roll
      ensures parked <==> reading.Some? && WithinParkBand(reading.value.pitch.value, reading.value.roll.value,
                                                          parkPitch, parkRoll, positionTolerance)
      ensures reading.None? ==> currentPitch == old(currentPitch) && currentRoll == old(currentRoll)
    {
      UpdatePositionAndParkStatus(reading);
      parked := isParked;
    }
  }

  // ---------------------------------------------------------------------
  // Preferences: storage is never available, so every call takes the
  // fallback branch and the settings store is never reached.

  /** `saveFloatPreference`: reports success without storing anything. */
  method SaveFloatPreference(key: string, value: Float) returns (ok: bool)
    ensures ok
  {
    if FlashStorage.IsFlashStorageAvailable() {
      assert false;
    } else {
      ok := true;
    }
  }

  /** `saveIntPreference`: the same, through a float. */
  method SaveIntPreference(key: string, value: int) returns (ok: bool)
    ensures ok
  {
    ok := SaveFloatPreference(key, Finite(value as real));
  }

  /** `loadFloatPreference`: always the caller's default. */
  method LoadFloatPreference(key: string, defaultValue: Float) returns (value: Float)
    ensures value == defaultValue
  {
    if FlashStorage.IsFlashStorageAvailable() {
      assert false;
    } else {
      value := defaultValue;
    }
  }

  /** `loadIntPreference`: the default, through a float and back. */
  method LoadIntPreference(key: string, defaultValue: int) returns (value: int)
    ensures value == defaultValue
  {
    var f := LoadFloatPreference(key, Finite(defaultValue as real));
    value := TruncateToInt(f.value);
  }

  /** `clearAllPreferences`: there is nothing durable to clear. */
  method ClearAllPreferences() returns (ok: bool)
    ensures !ok
  {
    if FlashStorage.IsFlashStorageAvailable() {
      assert false;
    } else {
      ok := false;
    }
  }

  /** A saved preference is not what a later load returns: the load answers
      with its default whatever was saved. */
  method SaveThenLoad(key: string, saved: Float, defaultValue: Float)
    returns (ok: bool, loaded: Float)
    ensures ok && loaded == defaultValue
  {
    ok := SaveFloatPreference(key, saved);
    loaded := LoadFloatPreference(key, defaultValue);
  }

  // ---------------------------------------------------------------------
  // Calibration report

  /** The warning of `debugSensorCalibration`: fewer than half of the
      samples succeeded, with C's integer division. */
  function CalibrationWarning(samples: int, successful: int): (warn: bool)
    ensures samples >= 0 ==> (warn <==> 2 * (successful + 1) <= samples)
  {
    successful < CDiv(samples, 2)
  }

  lemma CalibrationWarningAt500(successful: int)
    ensures CalibrationWarning(500, successful) <==> successful < 250
  {
  }

  // ---------------------------------------------------------------------
  // JSON text

  /** `"key":"value"` */
  function StringEntry(key: string, value: string): string
  {
    "\"" + key + "\":\"" + value + "\""
  }

  /** `"key":text` for a value rendered without quotes. */
  function RawEntry(key: string, text: string): string
  {
    "\"" + key + "\":" + text
  }

  function BoolText(b: bool): string
  {
    if b then "true" else "false"
  }

  /** The entries separated by commas. */
  function Join(entries: seq<string>): string
  {
    if |entries| == 0 then ""
    else if |entries| == 1 then entries[0]
    else Join(entries[..|entries| - 1]) + "," + entries[|entries| - 1]
  }

  /** The object a builder holding these entries builds. */
  function Render(entries: seq<string>): (r: string)
    ensures |r| >= 2 && r[0] == '{' && r[|r| - 1] == '}'
  {
    "{" + Join(entries) + "}"
  }

  /** A two-entry object is its entries between braces, comma-separated. */
  lemma RenderPair(a: string, b: string)
    ensures Render([a, b]) == "{" + a + "," + b + "}"
  {
    assert [a, b][..1] == [a];
    assert Join([a, b]) == a + "," + b;
  }

  lemma {:induction false} JoinAppend(entries: seq<string>, e: string)
    ensures Join(entries + [e]) == (if entries == [] then e else Join(entries) + "," + e)
  {
    var es := entries + [e];
    assert es[..|es| - 1] == entries;
  }

  /** `buildSimpleJSONResponse(key, String)`: a one-entry object. */
  function BuildSimpleJSONResponse(key: string, value: string): (r: string)
    ensures r == Render([StringEntry(key, value)])
  {
    "{\"" + key + "\":\"" + value + "\"}"
  }

  /** `buildSimpleJSONResponse(key, float, decimals)`; `format` stands for
      Arduino's `String(float, decimals)`. */
  function BuildSimpleJSONResponseFloat(key: string, value: Float, decimals: int,
                                        format: (Float, int) -> string): (r: string)
    ensures r == Render([RawEntry(key, format(value, decimals))])
  {
    "{\"" + key + "\":" + format(value, decimals) + "}"
  }

  /** `buildSimpleJSONResponse(key, bool)`. */
  function BuildSimpleJSONResponseBool(key: string, value: bool): (r: string)
    ensures r == Render([RawEntry(key, BoolText(value))])
  {
    "{\"" + key + "\":" + (if value then "true" else "false") + "}"
  }

  /** `buildJSONError`: the builder's rendering of a status entry and the
      message, which is not escaped. */
  function BuildJSONError(message: string): (r: string)
    ensures r == Render([StringEntry("status", "error"), StringEntry("message", message)])
  {
    RenderPair(StringEntry("status", "error"), StringEntry("message", message));
    "{\"status\":\"error\",\"message\":\"" + message + "\"}"
  }

  /** `buildJSONNotification`. */
  function BuildJSONNotification(message: string): (r: string)
    ensures r == Render([StringEntry("notification", message)])
  {
    "{\"notification\":\"" + message + "\"}"
  }

  /** The message is copied verbatim, so a quote in it ends the string
      early: the message `a"b` yields `..."message":"a"b"}`. */
  lemma ErrorMessageNotEscaped()
    ensures BuildJSONError("a\"b") == "{\"status\":\"error\",\"message\":\"a\"b\"}"
  {
  }

  /** `JSONBuilder`: an object under construction. `entries` is the list of
      rendered `"key":value` pairs added since the last reset. */
  class JSONBuilder {
    var json: string
    var hasContent: bool
    ghost var entries: seq<string>

    ghost predicate Valid()
      reads this
    {
      json == "{" + Join(entries) && hasContent == (entries != [])
    }

    constructor ()
      ensures Valid() && entries == []
    {
      json := "{";
      hasContent := false;
      entries := [];
    }

    /** One more entry, preceded by a comma iff there is one already. */
    method Append(entry: string)
      requires Valid()
      modifies this
      ensures Valid() && entries == old(entries) + [entry]
      ensures json == old(json) + (if old(hasContent) then "," else "") + entry
    {
      JoinAppend(entries, entry);
      if hasContent {
        json := json + ",";
      }
      json := json + entry;
      hasContent := true;
      entries := entries + [entry];
    }

    /** `add(key, const String&)` and `add(key, const char*)`. */
    method Add(key: string, value: string)
      requires Valid()
      modifies this
      ensures Valid() && entries == old(entries) + [StringEntry(key, value)]
    {
      Append(StringEntry(key, value));
    }

    /** `add(key, float, decimals)`; `format` stands for `String(float, decimals)`. */
    method AddFloat(key: string, value: Float, decimals: int, format: (Float, int) -> string)
      requires Valid()
      modifies this
      ensures Valid() && entries == old(entries) + [RawEntry(key, format(value, decimals))]
    {
      Append(RawEntry(key, format(value, decimals)));
    }

    /** `add(key, bool)`. */
    method AddBool(key: string, value: bool)
      requires Valid()
      modifies this
      ensures Valid() && entries == old(entries) + [RawEntry(key, BoolText(value))]
    {
      Append(RawEntry(key, if value then "true" else "false"));
    }

    /** `add(key, int)` and `add(key, unsigned long)`. */
    method AddInt(key: string, value: int)
      requires Valid()
      modifies this
      ensures Valid() && entries == old(entries) + [RawEntry(key, DecimalText(value))]
    {
      Append(RawEntry(key, DecimalText(value)));
    }

    /** `build`: the text so far, closed; the builder is unchanged. */
    method Build() returns (r: string)
      requires Valid()
      ensures r == Render(entries)
    {
      r := json + "}";
    }

    /** `reset`. */
    method Reset()
      requires Valid()
      modifies this
      ensures Valid() && entries == []
    {
      json := "{";
      hasContent := false;
      entries := [];
    }
  }

  /** A fresh builder builds `{}`; the acknowledgement of a command is the
      two-entry object `{"status":"ack","command":...}`. */
  method AckScenario(command: string) returns (empty: string, ack: string)
    ensures empty == "{}"
    ensures ack == "{" + StringEntry("status", "ack") + "," + StringEntry("command", command) + "}"
  {
    var json := new JSONBuilder();
    empty := json.Build();
    json.Add("status", "ack");
    json.Add("command", command);
    assert json.entries == [StringEntry("status", "ack"), StringEntry("command", command)];
    ack := json.Build();
    RenderPair(StringEntry("status", "ack"), StringEntry("command", command));
  }
}
