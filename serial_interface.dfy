/** main/serial_interface.cpp: the `<...>` command framing of
    `handleSerialCommands`, the `processSerialCommand` dispatch table, the
    argument parsers of the set-tolerance and set-filter-alpha commands,
    the park assignment of the two set-park commands, and the filter
    toggle. Serial input arrives as a string argument; replies are
    returned as the JSON text the firmware prints. */
module SerialInterface {
  import opened Common
  import opened ArduinoString
  import opened Helpers
  import opened PositionSensor

  /** `MAX_COMMAND_LENGTH`; the buffer keeps one less than this. */
  const MaxCommandLength: nat := 32
  const MaxPayload: nat := MaxCommandLength - 1

  // ---------------------------------------------------------------------
  // Framing

  /** The characters the framer keeps: 32..126. A byte above 127 is outside
      this range whether `char` is signed or not. */
  predicate Printable(c: char)
  {
    32 <= c as int <= 126
  }

  /** The framing globals: `serialBuffer`, `inCommand`, `commandReady`. */
  datatype Framer = Framer(buffer: string, inCommand: bool, commandReady: bool)

  /** What the framer can ever hold: at most 31 printable characters. */
  predicate FramerValid(f: Framer)
  {
    |f.buffer| <= MaxPayload && forall i :: 0 <= i < |f.buffer| ==> Printable(f.buffer[i])
  }

  /** One received character. `<` restarts the command, `>` in command
      mode ends it (ready only if something was collected), a printable
      character in command mode is kept while there is room; everything
      else is dropped. */
  function Step(f: Framer, c: char): (g: Framer)
    ensures FramerValid(f) ==> FramerValid(g)
    ensures c == '<' ==> g.buffer == [] && g.inCommand
    ensures c != '<' && !f.inCommand ==> g == f
    ensures g.commandReady <==> f.commandReady || (c == '>' && f.inCommand && |f.buffer| > 0)
  {
    if c == '<' then Framer([], true, f.commandReady)
    else if c == '>' && f.inCommand then Framer(f.buffer, false, f.commandReady || |f.buffer| > 0)
    else if f.inCommand && Printable(c) then
      (if |f.buffer| < MaxPayload then f.(buffer := f.buffer + [c]) else f)
    else f
  }

  /** The framer after a run of received characters. */
  function StepAll(f: Framer, input: string): Framer
  {
    if |input| == 0 then f else Step(StepAll(f, input[..|input| - 1]), input[|input| - 1])
  }

  lemma {:induction false} StepAllValid(f: Framer, input: string)
    requires FramerValid(f)
    ensures FramerValid(StepAll(f, input))
  {
    if |input| > 0 {
      StepAllValid(f, input[..|input| - 1]);
    }
  }

  lemma {:induction false} StepAllAppend(f: Framer, a: string, b: string)
    ensures StepAll(f, a + b) == StepAll(StepAll(f, a), b)
  {
    if |b| > 0 {
      assert (a + b)[..|a + b| - 1] == a + b[..|b| - 1];
      assert (a + b)[|a + b| - 1] == b[|b| - 1];
      StepAllAppend(f, a, b[..|b| - 1]);
    } else {
      assert a + b == a;
    }
  }

  /** A character that may appear inside a frame. */
  predicate PayloadChar(c: char)
  {
    Printable(c) && c != '<' && c != '>'
  }

  /** Outside command mode, anything without a `<` is ignored. */
  lemma {:induction false} OutsideCommandIgnored(f: Framer, input: string)
    requires !f.inCommand
    requires forall i :: 0 <= i < |input| ==> input[i] != '<'
    ensures StepAll(f, input) == f
  {
    if |input| > 0 {
      OutsideCommandIgnored(f, input[..|input| - 1]);
    }
  }

  /** The first 31 characters of a payload: what the buffer can hold. */
  function Capped(s: string): (r: string)
    ensures |r| <= MaxPayload && |r| <= |s| && r == s[..|r|]
    ensures |s| <= MaxPayload ==> r == s
  {
    if |s| <= MaxPayload then s else s[..MaxPayload]
  }

  /** Inside command mode, payload characters are collected up to the
      31-character cap and the rest are dropped. */
  lemma {:induction false} CollectPayload(f: Framer, s: string)
    requires f.inCommand && |f.buffer| == 0
    requires forall i :: 0 <= i < |s| ==> PayloadChar(s[i])
    ensures StepAll(f, s) == f.(buffer := Capped(s))
  {
    if |s| > 0 {
      var init, c := s[..|s| - 1], s[|s| - 1];
      var g := f.(buffer := Capped(init));
      assert StepAll(f, init) == g by {
        assert forall i :: 0 <= i < |init| ==> PayloadChar(init[i]);
        CollectPayload(f, init);
      }
      assert Step(g, c) == f.(buffer := Capped(s)) by {
        PayloadStep(g, c);
        CappedSnoc(init, c);
        assert init + [c] == s;
      }
    }
  }

  /** In command mode a payload character is appended while there is room
      and dropped otherwise. */
  lemma PayloadStep(g: Framer, c: char)
    requires g.inCommand && PayloadChar(c)
    ensures Step(g, c) == (if |g.buffer| < MaxPayload then g.(buffer := g.buffer + [c]) else g)
  {
  }

  /** Capping after one more character is appending it to the capped
      prefix while there is room. */
  lemma CappedSnoc(s: string, c: char)
    ensures Capped(s + [c]) == (if |Capped(s)| < MaxPayload then Capped(s) + [c] else Capped(s))
  {
    if |s| > MaxPayload {
      assert (s + [c])[..MaxPayload] == s[..MaxPayload];
    } else if |s| == MaxPayload {
      assert (s + [c])[..MaxPayload] == s;
    }
  }

  /** A complete frame `<s>` leaves the framer with the first 31 characters
      of `s`, out of command mode, ready iff the payload is not empty (or a
      command was already ready), whatever state it started in. */
  lemma {:induction false} FrameDelivers(f: Framer, s: string)
    requires forall i :: 0 <= i < |s| ==> PayloadChar(s[i])
    ensures StepAll(f, "<" + s + ">")
            == Framer(Capped(s), false, f.commandReady || |s| > 0)
  {
    StepAllAppend(f, "<", s);
    StepAllAppend(f, "<" + s, ">");
    assert StepAll(f, "<") == Framer([], true, f.commandReady);
    CollectPayload(Framer([], true, f.commandReady), s);
  }

  /** Two frames in one batch, the second not yet closed: the second `<`
      discards the first command, and the buffer holds the second, with
      the ready flag still set by the first `>`. So `<01><02` makes
      `handleSerialCommands` process `02` and never `01`. */
  lemma {:induction false} SecondFrameReplacesFirst(f: Framer, s: string, t: string)
    requires 0 < |s| && |t| <= MaxPayload
    requires forall i :: 0 <= i < |s| ==> PayloadChar(s[i])
    requires forall i :: 0 <= i < |t| ==> PayloadChar(t[i])
    ensures StepAll(f, "<" + s + ">" + "<" + t) == Framer(t, true, true)
  {
    var first := "<" + s + ">";
    assert first + "<" + t == first + ("<" + t);
    StepAllAppend(f, first, "<" + t);
    FrameDelivers(f, s);
    var f1 := StepAll(f, first);
    StepAllAppend(f1, "<", t);
    assert StepAll(f1, "<") == Framer([], true, true);
    CollectPayload(Framer([], true, true), t);
  }

  /** `trim()` then `toUpperCase()` on the collected buffer. */
  function Normalize(s: string): (r: string)
    ensures |r| <= |s|
    ensures |r| > 0 ==> !IsSpace(r[0]) && !IsSpace(r[|r| - 1])
    ensures forall i :: 0 <= i < |r| ==> !('a' <= r[i] <= 'z')
  {
    ToUpper(Trim(s))
  }

  /** A normalised command has no white space at its ends and no lower-case
      letter, so `processSerialCommand` normalising it again changes
      nothing. */
  lemma {:induction false} NormalizeIdempotent(s: string)
    ensures Normalize(Normalize(s)) == Normalize(s)
  {
    var t := Trim(s);
    var u := ToUpper(t);
    if |u| > 0 {
      ToUpperPreservesSpace(t[0]);
      ToUpperPreservesSpace(t[|t| - 1]);
    }
    TrimKeeps(u);
    ToUpperIdempotent(t);
  }

  /** The command a batch of input hands to `processSerialCommand`, if any. */
  function Dispatched(f: Framer): (r: Option<string>)
    ensures r.Some? <==> f.commandReady && |Normalize(f.buffer)| > 0
    ensures r.Some? ==> r.value == Normalize(f.buffer)
    ensures r.Some? ==> |r.value| > 0 && Normalize(r.value) == r.value
  {
    NormalizeIdempotent(f.buffer);
    if f.commandReady && |Normalize(f.buffer)| > 0 then Some(Normalize(f.buffer)) else None
  }

  /** The framing globals. */
  class CommandReceiver {
    var serialBuffer: string
    var inCommand: bool
    var commandReady: bool

    function State(): Framer
      reads this
    {
      Framer(serialBuffer, inCommand, commandReady)
    }

    /** `initSerial`: an empty buffer, outside command mode. */
    constructor ()
      ensures State() == Framer([], false, false) && FramerValid(State())
    {
      serialBuffer := [];
      inCommand := false;
      commandReady := false;
    }

    /** `handleSerialCommands` on the characters available now: run the
        framer over them, then, if a command is ready, normalise it, hand
        it on if it is not empty, and clear the buffer and the ready flag. */
    method HandleSerialCommands(input: string) returns (dispatched: Option<string>)
      modifies this
      ensures var f := StepAll(old(State()), input);
              && dispatched == Dispatched(f)
              && State() == (if f.commandReady then Framer([], f.inCommand, false) else f)
      ensures FramerValid(old(State())) ==> FramerValid(State())
    {
      var i := 0;
      while i < |input|
        invariant 0 <= i <= |input|
        invariant State() == StepAll(old(State()), input[..i])
      {
        assert input[..i + 1][..i] == input[..i];
        var inChar := input[i];
        if inChar == '<' {
          serialBuffer := [];
          inCommand := true;
        } else if inChar == '>' && inCommand {
          if |serialBuffer| > 0 {
            commandReady := true;
          }
          inCommand := false;
        } else if inCommand && 32 <= inChar as int <= 126 {
          if |serialBuffer| < 31 {
            serialBuffer := serialBuffer + [inChar];
          }
        }
        i := i + 1;
      }
      assert input[..i] == input;
      ghost var f := State();
      if FramerValid(old(State())) {
        StepAllValid(old(State()), input);
      }
      dispatched := None;
      if commandReady {
        serialBuffer := Trim(serialBuffer);
        serialBuffer := ToUpper(serialBuffer);
        if |serialBuffer| > 0 {
          dispatched := Some(serialBuffer);
        }
        serialBuffer := [];
        commandReady := false;
      }
      assert dispatched == Dispatched(f);
    }
  }

  // ---------------------------------------------------------------------
  // Dispatch

  /** The command handlers `processSerialCommand` chooses between. */
  datatype Handler =
    | Help | GetStatus | GetPosition | IsParked | SetPark | GetPark | Calibrate
    | ToggleDebug | Version | Reset | SetTolerance | GetTolerance | SystemInfo
    | SoftwareSetPark | FactoryReset | ToggleFilter | SetFilterAlpha
    | RawSensorData | StorageTest | SensorDiagnostic | Unknown

  /** Handlers selected by an exact code; the two setters are selected by
      a prefix and take an argument. */
  predicate IsExact(h: Handler)
  {
    h != SetTolerance && h != SetFilterAlpha && h != Unknown
  }

  /** The command code table of serial_interface.h. */
  function CodeOf(h: Handler): (code: string)
    requires h != Unknown
    ensures |code| == 2
  {
    match h
    case Help => "00"
    case GetStatus => "01"
    case GetPosition => "02"
    case IsParked => "03"
    case SetPark => "04"
    case GetPark => "05"
    case Calibrate => "06"
    case ToggleDebug => "07"
    case Version => "08"
    case Reset => "09"
    case SetTolerance => "0A"
    case GetTolerance => "0B"
    case SystemInfo => "0C"
    case SoftwareSetPark => "0D"
    case FactoryReset => "0E"
    case ToggleFilter => "0F"
    case SetFilterAlpha => "10"
    case RawSensorData => "11"
    case StorageTest => "12"
    case SensorDiagnostic => "13"
  }

  /** The if-chain of `processSerialCommand` on a normalised command. */
  function Classify(command: string): (h: Handler)
    ensures IsExact(h) ==> command == CodeOf(h)
    ensures h == SetTolerance <==> StartsWith(command, CodeOf(SetTolerance))
    ensures h == SetFilterAlpha <==> StartsWith(command, CodeOf(SetFilterAlpha))
  {
    TwoCharPrefix(command, "0A");
    TwoCharPrefix(command, "10");
    if command == "00" then Help
    else if command == "01" then GetStatus
    else if command == "02" then GetPosition
    else if command == "03" then IsParked
    else if command == "04" then SetPark
    else if command == "05" then GetPark
    else if command == "06" then Calibrate
    else if command == "07" then ToggleDebug
    else if command == "08" then Version
    else if command == "09" then Reset
    else if StartsWith(command, "0A") then SetTolerance
    else if command == "0B" then GetTolerance
    else if command == "0C" then SystemInfo
    else if command == "0D" then SoftwareSetPark
    else if command == "0E" then FactoryReset
    else if command == "0F" then ToggleFilter
    else if StartsWith(command, "10") then SetFilterAlpha
    else if command == "11" then RawSensorData
    else if command == "12" then StorageTest
    else if command == "13" then SensorDiagnostic
    else Unknown
  }

  lemma {:induction false} TwoCharPrefix(s: string, p: string)
    requires |p| == 2
    ensures StartsWith(s, p) <==> |s| >= 2 && s[0] == p[0] && s[1] == p[1]
  {
    if |s| >= 2 && s[0] == p[0] && s[1] == p[1] {
      assert s[..2] == p;
    }
  }

  /** Every code of the table reaches its own handler. */
  lemma {:induction false} ClassifyCode(h: Handler)
    requires h != Unknown
    ensures Classify(CodeOf(h)) == h
  {
    TwoCharPrefix(CodeOf(h), "0A");
    TwoCharPrefix(CodeOf(h), "10");
  }

  /** A command is unknown iff it is no exact code and has neither prefix. */
  lemma {:induction false} UnknownIffNoCode(command: string)
    ensures Classify(command) == Unknown
            <==> (forall h :: IsExact(h) ==> command != CodeOf(h))
                 && !StartsWith(command, "0A") && !StartsWith(command, "10")
  {
    if Classify(command) == Unknown {
      forall h | IsExact(h) ensures command != CodeOf(h) {
        ClassifyCode(h);
      }
    }
  }

  /** `processSerialCommand`: normalise, then classify. */
  function ProcessSerialCommand(command: string): Handler
  {
    Classify(Normalize(command))
  }

  /** A command delivered by the framer is classified as it was delivered:
      the second normalisation is a no-op. */
  lemma {:induction false} DispatchedCommandClassified(f: Framer)
    requires Dispatched(f).Some?
    ensures ProcessSerialCommand(Dispatched(f).value) == Classify(Dispatched(f).value)
  {
  }

  /** Blanks around a command do not matter, and its letters may be in
      either case: ` 0a050 ` is classified as `0A050`. */
  lemma {:induction false} ProcessIgnoresBlanks(command: string)
    requires |command| > 0 && !IsSpace(command[0]) && !IsSpace(command[|command| - 1])
    ensures ProcessSerialCommand(" " + command + " ") == Classify(ToUpper(command))
  {
    TrimPadded(command);
  }

  // ---------------------------------------------------------------------
  // Replies

  /** `sendSerialJSONResponse`: the data wrapped in an ok status. The text
      is the two-entry object of the status and the data, as a builder
      holding those entries would render it. */
  function JSONResponse(data: string): (r: string)
    ensures r == Render([StringEntry("status", "ok"), RawEntry("data", data)])
  {
    RenderPair(StringEntry("status", "ok"), RawEntry("data", data));
    "{\"status\":\"ok\",\"data\":" + data + "}"
  }

  // ---------------------------------------------------------------------
  // Fixed-width numeric arguments

  /** The outcome of checking `<prefix><digits>`. */
  datatype Argument = BadFormat | NotDigits | OutOfRange | Value(n: nat)

  /** The checks of the two setters: the exact length, all digits after the
      two-character code, then `toInt` and the range. */
  function ParseArgument(command: string, length: nat, lo: int, hi: int): (r: Argument)
    requires length >= 2
    ensures r == BadFormat <==> |command| != length
    ensures r == NotDigits <==> |command| == length && !AllDigits(command[2..])
    ensures r.Value? ==> lo <= r.n <= hi && ZeroPadded(r.n, length - 2) == command[2..]
  {
    if |command| != length then BadFormat
    else if !AllDigits(command[2..]) then NotDigits
    else
      var v := DigitsValue(command[2..]);
      DigitsValueZeroPadded(command[2..]);
      if v < lo || v > hi then OutOfRange else Value(v)
  }

  /** The command built from a value in range parses back to that value. */
  lemma {:induction false} ArgumentRoundTrip(code: string, v: nat, length: nat, lo: int, hi: int)
    requires |code| == 2 && length >= 2 && lo <= v <= hi && v < Pow10(length - 2)
    ensures ParseArgument(code + ZeroPadded(v, length - 2), length, lo, hi) == Value(v)
  {
    var w := length - 2;
    var s := ZeroPadded(v, w);
    var c := code + s;
    assert |c| == length && c[2..] == s;
    ZeroPaddedValue(v, w);
    SmallMod(v, Pow10(w));
    assert DigitsValue(c[2..]) == v;
  }

  lemma SmallMod(v: nat, p: nat)
    requires v < p
    ensures v % p == v
  {
  }

  /** `<0AXXX>`: five characters, three digits, 1..999 hundredths. */
  function ParseTolerance(command: string): Argument
  {
    ParseArgument(command, 5, 1, 999)
  }

  /** `<10XX>`: four characters, two digits, 0..99 hundredths. */
  function ParseAlpha(command: string): Argument
  {
    ParseArgument(command, 4, 0, 99)
  }

  /** Only the argument `000` fails the tolerance range check; the upper
      bound can never be exceeded by three digits. */
  lemma {:induction false} ToleranceOutOfRangeIffZero(command: string)
    ensures ParseTolerance(command) == OutOfRange <==> |command| == 5 && command[2..] == "000"
  {
    if |command| == 5 && AllDigits(command[2..]) {
      var s := command[2..];
      DigitsValueZeroPadded(s);
      if DigitsValue(s) == 0 {
        assert ZeroPadded(0, 3) == "000";
      } else if s == "000" {
        assert s == ZeroPadded(0, 3);
        ZeroPaddedValue(0, 3);
      }
    }
  }

  /** The alpha range check can never fail: two digits are at most 99. */
  lemma {:induction false} AlphaNeverOutOfRange(command: string)
    ensures ParseAlpha(command) != OutOfRange
  {
    if |command| == 4 && AllDigits(command[2..]) {
      DigitsValueZeroPadded(command[2..]);
    }
  }

  /** A tolerance command is accepted iff it has five characters, three
      digits after the code and not `000`; the value is then `toInt` of
      the digits, in 1..999. */
  lemma {:induction false} ToleranceAccepted(command: string)
    ensures ParseTolerance(command).Value?
            <==> |command| == 5 && AllDigits(command[2..]) && command[2..] != "000"
    ensures ParseTolerance(command).Value? ==>
              1 <= ParseTolerance(command).n <= 999
              && ParseTolerance(command).n == DigitsValue(command[2..])
  {
    ToleranceOutOfRangeIffZero(command);
  }

  /** An alpha command is accepted iff it has four characters and two
      digits after the code; the value is then `toInt` of the digits. */
  lemma {:induction false} AlphaAccepted(command: string)
    ensures ParseAlpha(command).Value? <==> |command| == 4 && AllDigits(command[2..])
    ensures ParseAlpha(command).Value? ==>
              ParseAlpha(command).n == DigitsValue(command[2..]) <= 99
  {
    AlphaNeverOutOfRange(command);
  }

  function ToleranceError(r: Argument): string
    requires !r.Value?
  {
    match r
    case BadFormat =>
      "Invalid tolerance command format. Use <0AXXX> where XXX is tolerance in hundredths of degrees"
    case NotDigits => "Invalid tolerance value. Must be 3 digits (001-999)"
    case OutOfRange => "Tolerance out of range. Must be 001-999 (0.01° to 9.99°)"
  }

  function AlphaError(r: Argument): string
    requires !r.Value?
  {
    match r
    case BadFormat => "Invalid filter alpha command format. Use <10XX> where XX is alpha*100 (00-99)"
    case NotDigits => "Invalid alpha value. Must be 2 digits (00-99)"
    case OutOfRange => "Alpha out of range. Must be 00-99 (0.00 to 0.99)"
  }

  /** The digit-check loop of both setters. */
  method AllDigitsCheck(s: string) returns (ok: bool)
    ensures ok == AllDigits(s)
  {
    var i := 0;
    while i < |s|
      invariant 0 <= i <= |s|
      invariant forall j :: 0 <= j < i ==> IsDigit(s[j])
    {
      if !IsDigit(s[i]) {
        return false;
      }
      i := i + 1;
    }
    return true;
  }

  /** `handleSetToleranceCommand`: on a valid argument the tolerance becomes
      the value in hundredths of a degree (0.01 to 9.99) and the reply
      reports it; otherwise the tolerance is untouched and the reply is the
      matching error. `format` stands for `String(float, decimals)`. */
  method HandleSetToleranceCommand(park: ParkState, command: string, format: (Float, int) -> string)
    returns (outcome: Argument, reply: string)
    modifies park`positionTolerance
    ensures outcome == ParseTolerance(command)
    ensures outcome.Value? ==> park.positionTolerance == outcome.n as real / 100.0
                               && 0.0 < park.positionTolerance < 10.0
    ensures outcome.Value? ==>
              reply == JSONResponse(Render([RawEntry("tolerance", format(Finite(park.positionTolerance), 2)),
                                            RawEntry("toleranceHundredths", DecimalText(outcome.n)),
                                            RawEntry("saved", BoolText(true))]))
    ensures !outcome.Value? ==> park.positionTolerance == old(park.positionTolerance)
                                && reply == BuildJSONError(ToleranceError(outcome))
  {
    if |command| != 5 {
      outcome := BadFormat;
      reply := BuildJSONError(ToleranceError(outcome));
      return;
    }
    var toleranceStr := command[2..];
    var digits := AllDigitsCheck(toleranceStr);
    if !digits {
      outcome := NotDigits;
      reply := BuildJSONError(ToleranceError(outcome));
      return;
    }
    var toleranceHundredths := DigitsValue(toleranceStr);
    if toleranceHundredths < 1 || toleranceHundredths > 999 {
      outcome := OutOfRange;
      reply := BuildJSONError(ToleranceError(outcome));
      return;
    }
    park.positionTolerance := toleranceHundredths as real / 100.0;
    var success := SaveFloatPreference("tolerance", Finite(park.positionTolerance));
    var json := new JSONBuilder();
    json.AddFloat("tolerance", Finite(park.positionTolerance), 2, format);
    json.AddInt("toleranceHundredths", toleranceHundredths);
    json.AddBool("saved", success);
    assert json.entries == [RawEntry("tolerance", format(Finite(park.positionTolerance), 2)),
                            RawEntry("toleranceHundredths", DecimalText(toleranceHundredths)),
                            RawEntry("saved", BoolText(true))];
    var data := json.Build();
    reply := JSONResponse(data);
    outcome := Value(toleranceHundredths);
  }

  /** `handleSetFilterAlphaCommand`: a well-formed argument always sets the
      filter coefficient to hundredths in 0.00..0.99, which `setFilterAlpha`
      always accepts; otherwise nothing changes and the reply is the error. */
  method HandleSetFilterAlphaCommand(sensor: Sensor, command: string, format: (Float, int) -> string)
    returns (outcome: Argument, reply: string)
    requires sensor.Valid()
    modifies sensor`alpha
    ensures sensor.Valid()
    ensures outcome == ParseAlpha(command)
    ensures outcome.Value? ==> sensor.alpha == outcome.n as real / 100.0 && sensor.alpha <= 0.99
    ensures outcome.Value? ==>
              var a := Finite(outcome.n as real / 100.0);
              reply == JSONResponse(Render([RawEntry("filterAlpha", format(a, 2)),
                                            RawEntry("alphaHundredths", DecimalText(outcome.n)),
                                            StringEntry("message", "Filter alpha set to " + format(a, 2)),
                                            StringEntry("note", AlphaNote)]))
    ensures !outcome.Value? ==> sensor.alpha == old(sensor.alpha)
                                && reply == BuildJSONError(AlphaError(outcome))
  {
    if |command| != 4 {
      outcome := BadFormat;
      reply := BuildJSONError(AlphaError(outcome));
      return;
    }
    var alphaStr := command[2..];
    var digits := AllDigitsCheck(alphaStr);
    if !digits {
      outcome := NotDigits;
      reply := BuildJSONError(AlphaError(outcome));
      return;
    }
    var alphaHundredths := DigitsValue(alphaStr);
    if alphaHundredths < 0 || alphaHundredths > 99 {
      outcome := OutOfRange;
      reply := BuildJSONError(AlphaError(outcome));
      return;
    }
    var newAlpha := Finite(alphaHundredths as real / 100.0);
    sensor.SetFilterAlpha(newAlpha);
    reply := AlphaReply(newAlpha, alphaHundredths, format);
    outcome := Value(alphaHundredths);
  }

  /** The success reply of `handleSetFilterAlphaCommand`, built entry by
      entry. */
  method AlphaReply(newAlpha: Float, alphaHundredths: nat, format: (Float, int) -> string)
    returns (reply: string)
    ensures reply == JSONResponse(Render([RawEntry("filterAlpha", format(newAlpha, 2)),
                                          RawEntry("alphaHundredths", DecimalText(alphaHundredths)),
                                          StringEntry("message", "Filter alpha set to " + format(newAlpha, 2)),
                                          StringEntry("note", AlphaNote)]))
  {
    var json := new JSONBuilder();
    json.AddFloat("filterAlpha", newAlpha, 2, format);
    json.AddInt("alphaHundredths", alphaHundredths);
    json.Add("message", "Filter alpha set to " + format(newAlpha, 2));
    json.Add("note", AlphaNote);
    assert json.entries == [RawEntry("filterAlpha", format(newAlpha, 2)),
                            RawEntry("alphaHundredths", DecimalText(alphaHundredths)),
                            StringEntry("message", "Filter alpha set to " + format(newAlpha, 2)),
                            StringEntry("note", AlphaNote)];
    var data := json.Build();
    reply := JSONResponse(data);
  }

  const AlphaNote: string := "Lower alpha = more responsive, higher alpha = more filtering"

  // ---------------------------------------------------------------------
  // Park assignment

  datatype ParkPosition = ParkPosition(pitch: real, roll: real)

  /** The park position the set-park commands leave, as written: after the
      refresh, the current position (the new reading, or the previous one
      when the read failed) becomes the park position if it is valid. */
  function SetParkResult(current: Angles, reading: Option<Angles>, park: ParkPosition): (r: ParkPosition)
    ensures reading.Some? && IsValidPosition(reading.value.pitch, reading.value.roll) ==>
              r == ParkPosition(reading.value.pitch.value, reading.value.roll.value)
    ensures reading.None? ==>
              (r != park ==> IsValidPosition(current.pitch, current.roll)
                             && r == ParkPosition(current.pitch.value, current.roll.value))
    ensures reading.None? && IsValidPosition(current.pitch, current.roll) ==>
              r == ParkPosition(current.pitch.value, current.roll.value)
    ensures reading.Some? && !IsValidPosition(reading.value.pitch, reading.value.roll) ==> r == park
  {
    var now := if reading.Some? then reading.value else current;
    if IsValidPosition(now.pitch, now.roll) then ParkPosition(now.pitch.value, now.roll.value) else park
  }

  /** A failed read after an earlier good one still moves the park
      position: it is set to the stale position, and the error reply is
      not sent. */
  lemma StaleParkAfterFailedRead()
    ensures SetParkResult(Angles(Finite(10.0), Finite(5.0)), None, ParkPosition(0.0, 0.0))
            == ParkPosition(10.0, 5.0)
  {
  }

  /** The evidently intended rule: the park position is taken from a
      successful read only. */
  function SetParkResultChecked(reading: Option<Angles>, park: ParkPosition): (r: ParkPosition)
    requires reading.Some? ==> IsValidPosition(reading.value.pitch, reading.value.roll)
    ensures reading.None? ==> r == park
    ensures reading.Some? ==> r == ParkPosition(reading.value.pitch.value, reading.value.roll.value)
  {
    if reading.Some? then ParkPosition(reading.value.pitch.value, reading.value.roll.value) else park
  }

  /** The two rules agree on every successful read; they differ only when
      the read fails and an earlier position is still valid. */
  lemma {:induction false} SetParkRulesAgreeOnGoodRead(current: Angles, reading: Option<Angles>, park: ParkPosition)
    requires reading.Some? ==> IsValidPosition(reading.value.pitch, reading.value.roll)
    ensures reading.Some? ==> SetParkResult(current, reading, park) == SetParkResultChecked(reading, park)
    ensures reading.None? ==>
              (SetParkResult(current, reading, park) == SetParkResultChecked(reading, park)
               <== !IsValidPosition(current.pitch, current.roll))
  {
  }

  const ParkReadError: string := "Failed to read current position from sensor"
  const SoftwareParkMessage: string := "Park position set via software command"

  /** The shared part of both set-park handlers: `updatePositionAndParkStatus`
      (through `readPosition`), then the guarded assignment. Returns the
      read outcome and whether the park position was set. */
  method RefreshAndSetPark(park: ParkState, sensor: Sensor, ax: Float, ay: Float, az: Float,
                           tilt: Vec3 -> Angles)
    returns (reading: Option<Angles>, parkSet: bool)
    requires sensor.Valid()
    modifies park`currentPitch, park`currentRoll, park`isParked, park`parkPitch, park`parkRoll
    modifies sensor`filteredAx, sensor`filteredAy, sensor`filteredAz
    ensures ReadPositionOutcome(ax, ay, az, sensor.CurrentOffsets(), sensor.alpha, sensor.useFiltering,
                                old(sensor.FilterState()), sensor.FilterState(), tilt, reading)
    ensures reading.Some? ==> IsValidPosition(reading.value.pitch, reading.value.roll)
    ensures reading.Some? ==>
              (park.isParked <==> WithinParkBand(reading.value.pitch.value, reading.value.roll.value,
                                                 old(park.parkPitch), old(park.parkRoll),
                                                 park.positionTolerance))
    ensures reading.Some? ==> park.currentPitch == reading.value.pitch && park.currentRoll == reading.value.roll
    ensures reading.None? ==> park.currentPitch == old(park.currentPitch) && park.currentRoll == old(park.currentRoll)
                              && !park.isParked
    ensures parkSet <==> IsValidPosition(park.currentPitch, park.currentRoll)
    ensures ParkPosition(park.parkPitch, park.parkRoll)
            == SetParkResult(Angles(old(park.currentPitch), old(park.currentRoll)), reading,
                             ParkPosition(old(park.parkPitch), old(park.parkRoll)))
  {
    reading := sensor.ReadPosition(ax, ay, az, tilt);
    park.UpdatePositionAndParkStatus(reading);
    parkSet := IsValidPosition(park.currentPitch, park.currentRoll);
    if parkSet {
      park.parkPitch := park.currentPitch.value;
      park.parkRoll := park.currentRoll.value;
    }
  }

  /** `handleSetParkCommand`. */
  method HandleSetParkCommand(park: ParkState, sensor: Sensor, ax: Float, ay: Float, az: Float,
                              tilt: Vec3 -> Angles, format: (Float, int) -> string)
    returns (reading: Option<Angles>, reply: string)
    requires sensor.Valid()
    modifies park`currentPitch, park`currentRoll, park`isParked, park`parkPitch, park`parkRoll
    modifies sensor`filteredAx, sensor`filteredAy, sensor`filteredAz
    ensures ReadPositionOutcome(ax, ay, az, sensor.CurrentOffsets(), sensor.alpha, sensor.useFiltering,
                                old(sensor.FilterState()), sensor.FilterState(), tilt, reading)
    ensures reading.Some? ==>
              (park.isParked <==> WithinParkBand(reading.value.pitch.value, reading.value.roll.value,
                                                 old(park.parkPitch), old(park.parkRoll),
                                                 park.positionTolerance))
    ensures reading.Some? ==> park.currentPitch == reading.value.pitch && park.currentRoll == reading.value.roll
                              && IsValidPosition(park.currentPitch, park.currentRoll)
    ensures reading.None? ==> park.currentPitch == old(park.currentPitch) && park.currentRoll == old(park.currentRoll)
                              && !park.isParked
    ensures ParkPosition(park.parkPitch, park.parkRoll)
            == SetParkResult(Angles(old(park.currentPitch), old(park.currentRoll)), reading,
                             ParkPosition(old(park.parkPitch), old(park.parkRoll)))
    ensures IsValidPosition(park.currentPitch, park.currentRoll) ==>
              reply == JSONResponse(Render([RawEntry("parkPitch", format(Finite(park.parkPitch), 2)),
                                            RawEntry("parkRoll", format(Finite(park.parkRoll), 2)),
                                            RawEntry("saved", BoolText(true))]))
    ensures !IsValidPosition(park.currentPitch, park.currentRoll) ==> reply == BuildJSONError(ParkReadError)
  {
    var parkSet;
    reading, parkSet := RefreshAndSetPark(park, sensor, ax, ay, az, tilt);
    if parkSet {
      var saved := SaveFloatPreference("parkPitch", Finite(park.parkPitch));
      if saved {
        saved := SaveFloatPreference("parkRoll", Finite(park.parkRoll));
      }
      var json := new JSONBuilder();
      json.AddFloat("parkPitch", Finite(park.parkPitch), 2, format);
      json.AddFloat("parkRoll", Finite(park.parkRoll), 2, format);
      json.AddBool("saved", saved);
      assert json.entries == [RawEntry("parkPitch", format(Finite(park.parkPitch), 2)),
                              RawEntry("parkRoll", format(Finite(park.parkRoll), 2)),
                              RawEntry("saved", BoolText(true))];
      var data := json.Build();
      reply := JSONResponse(data);
    } else {
      reply := BuildJSONError(ParkReadError);
    }
  }

  /** `handleSoftwareSetParkCommand`: the same, with a message entry. */
  method HandleSoftwareSetParkCommand(park: ParkState, sensor: Sensor, ax: Float, ay: Float, az: Float,
                                      tilt: Vec3 -> Angles, format: (Float, int) -> string)
    returns (reading: Option<Angles>, reply: string)
    requires sensor.Valid()
    modifies park`currentPitch, park`currentRoll, park`isParked, park`parkPitch, park`parkRoll
    modifies sensor`filteredAx, sensor`filteredAy, sensor`filteredAz
    ensures ReadPositionOutcome(ax, ay, az, sensor.CurrentOffsets(), sensor.alpha, sensor.useFiltering,
                                old(sensor.FilterState()), sensor.FilterState(), tilt, reading)
    ensures reading.Some? ==>
              (park.isParked <==> WithinParkBand(reading.value.pitch.value, reading.value.roll.value,
                                                 old(park.parkPitch), old(park.parkRoll),
                                                 park.positionTolerance))
    ensures reading.Some? ==> park.currentPitch == reading.value.pitch && park.currentRoll == reading.value.roll
                              && IsValidPosition(park.currentPitch, park.currentRoll)
    ensures reading.None? ==> park.currentPitch == old(park.currentPitch) && park.currentRoll == old(park.currentRoll)
                              && !park.isParked
    ensures ParkPosition(park.parkPitch, park.parkRoll)
            == SetParkResult(Angles(old(park.currentPitch), old(park.currentRoll)), reading,
                             ParkPosition(old(park.parkPitch), old(park.parkRoll)))
    ensures IsValidPosition(park.currentPitch, park.currentRoll) ==>
              reply == JSONResponse(Render([StringEntry("message", SoftwareParkMessage),
                                            RawEntry("parkPitch", format(Finite(park.parkPitch), 2)),
                                            RawEntry("parkRoll", format(Finite(park.parkRoll), 2)),
                                            RawEntry("saved", BoolText(true))]))
    ensures !IsValidPosition(park.currentPitch, park.currentRoll) ==> reply == BuildJSONError(ParkReadError)
  {
    var parkSet;
    reading, parkSet := RefreshAndSetPark(park, sensor, ax, ay, az, tilt);
    if parkSet {
      var saved := SaveFloatPreference("parkPitch", Finite(park.parkPitch));
      if saved {
        saved := SaveFloatPreference("parkRoll", Finite(park.parkRoll));
      }
      var json := new JSONBuilder();
      json.Add("message", SoftwareParkMessage);
      json.AddFloat("parkPitch", Finite(park.parkPitch), 2, format);
      json.AddFloat("parkRoll", Finite(park.parkRoll), 2, format);
      json.AddBool("saved", saved);
      assert json.entries == [StringEntry("message", SoftwareParkMessage),
                              RawEntry("parkPitch", format(Finite(park.parkPitch), 2)),
                              RawEntry("parkRoll", format(Finite(park.parkRoll), 2)),
                              RawEntry("saved", BoolText(true))];
      var data := json.Build();
      reply := JSONResponse(data);
    } else {
      reply := BuildJSONError(ParkReadError);
    }
  }

  // ---------------------------------------------------------------------
  // Filter toggle

  const FilterNote: string := "Disabling filter improves responsiveness but increases noise"

  /** `handleToggleFilterCommand`: flips filtering and reports the new
      setting. */
  method HandleToggleFilterCommand(sensor: Sensor) returns (reply: string)
    modifies sensor`useFiltering
    ensures sensor.useFiltering == !old(sensor.useFiltering)
    ensures reply == JSONResponse(Render([RawEntry("filterEnabled", BoolText(sensor.useFiltering)),
                                          StringEntry("message", "Sensor filtering "
                                                      + (if sensor.useFiltering then "ENABLED" else "DISABLED")),
                                          StringEntry("note", FilterNote)]))
  {
    var useFiltering := !sensor.useFiltering;
    sensor.SetFiltering(useFiltering);
    var json := new JSONBuilder();
    json.AddBool("filterEnabled", useFiltering);
    json.Add("message", "Sensor filtering " + (if useFiltering then "ENABLED" else "DISABLED"));
    json.Add("note", FilterNote);
    assert json.entries == [RawEntry("filterEnabled", BoolText(useFiltering)),
                            StringEntry("message", "Sensor filtering " + (if useFiltering then "ENABLED" else "DISABLED")),
                            StringEntry("note", FilterNote)];
    var data := json.Build();
    reply := JSONResponse(data);
  }
}
