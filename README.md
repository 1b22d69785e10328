# Park sensor firmware: a verified model of its decision logic

The firmware runs on a microcontroller attached to a telescope mount. It
reads an IMU, turns the readings into pitch and roll, and decides whether
the mount is in its park position. A host talks to it over a serial line
in `<code[argument]>` frames and gets JSON replies. This project models
the firmware's decision logic in Dafny and proves what that logic
guarantees:

- `common.dfy` (module `Common`): shared types. A C `float` is
  `Float = Finite(real) | NaN`. Also bytes, `uint32`, and C's truncating
  conversions.
- `arduino_string.dfy` (module `ArduinoString`): the Arduino `String`
  operations the firmware relies on. These are `trim`, `toUpperCase`,
  `startsWith`, `isDigit`, `toInt` on digit strings, and `String(int)`.
- `flash_storage.dfy` (module `FlashStorage`):
  - the settings record and its key-selected field access;
  - reset to defaults;
  - the additive byte checksum;
  - the block-device stubs;
  - the store as a class `Store` holding the record and the
    "initialised" flag.
- `position_sensor.dfy` (module `PositionSensor`):
  - calibration over 500 samples: acceptance, per-channel mean, and the
    −1 g shift of the vertical axis;
  - the offset correction and low-pass filter of a position read;
  - the filter settings;
  - the stored-calibration probe.

  The sensor globals are the class `Sensor`.
- `helpers.dfy` (module `Helpers`):
  - the park decision and position validation (the globals are the
    class `ParkState`);
  - the preference facade over a store that is never available;
  - the JSON text builders, including the class `JSONBuilder`.
- `serial_interface.dfy` (module `SerialInterface`):
  - the `<...>` framing state machine (class `CommandReceiver`, proved
    against the function `StepAll`);
  - the command dispatch table;
  - the fixed-width argument parsers;
  - the set-tolerance, set-filter-alpha, set-park and filter-toggle
    handlers.

Replies are returned as the text the firmware would print.

Some inputs are parameters of the model:

- IMU readings are arguments: a sequence of samples for calibration, and
  three accelerometer values for a read.
- The `atan2`/`sqrt` angle computation is the parameter `tilt`.
- Arduino's `String(float, decimals)` is the parameter `format`.
- The IEEE-754 bit pattern of a float, needed for the byte image the
  checksum reads, is the parameter `bits`.

The sensor globals (offsets, `alpha`, the filter state and
`use_filtering`) are defined with their initial values in
main/position_sensor.cpp, and the `Sensor` constructor sets those values.
The park globals (`currentPitch`, `currentRoll`, `isParked`, `parkPitch`,
`parkRoll` and `positionTolerance`) are only declared `extern` in
main/helpers.cpp; the main sketch that defines them is not part of this
model, so the `ParkState` constructor takes their initial values as
arguments.

## Model

| member | source | states |
|---|---|---|
| Common.TruncateToInt | main/helpers.cpp:83-85 | C's float-to-int conversion truncates toward zero: a non-negative input gives the largest integer not above it, a negative one the smallest integer not below it, so the result has the input's sign, is within 1 of it and is exact on integral values |
| Common.CDiv | main/helpers.cpp:199 | C's integer division agrees with Euclidean division on non-negative operands |
| ArduinoString.ToUpper | main/serial_interface.cpp:71 | `toUpperCase` keeps the length and maps every character through the C-locale `toupper` |
| ArduinoString.UpperChar | main/serial_interface.cpp:71 | only 'a'..'z' change, each to its upper-case letter 32 code points lower |
| ArduinoString.TrimStart | main/serial_interface.cpp:70 | the result is a suffix of the input, does not start with white space, and only white space was dropped |
| ArduinoString.TrimEnd | main/serial_interface.cpp:70 | the result is a prefix of the input, does not end with white space, and only white space was dropped |
| ArduinoString.Trim | main/serial_interface.cpp:70 | `trim` never lengthens a string and leaves no white space at either end |
| ArduinoString.TrimIdempotent | main/serial_interface.cpp:70 | trimming twice is trimming once |
| ArduinoString.TrimKeeps | main/serial_interface.cpp:70 | a string without white space at its ends is left alone by `trim` |
| ArduinoString.TrimPadded | main/serial_interface.cpp:70 | `trim` removes a blank at each end of a string that has no other white space at its ends |
| ArduinoString.ToUpperIdempotent | main/serial_interface.cpp:71 | upper-casing twice is upper-casing once |
| ArduinoString.ToUpperNoLower | main/serial_interface.cpp:71 | a string without lower-case letters is its own upper case |
| ArduinoString.ToUpperPreservesSpace | main/serial_interface.cpp:70-71 | upper-casing neither creates nor removes white space |
| ArduinoString.DigitValue | main/serial_interface.cpp:364 | a digit's value is below 10 |
| ArduinoString.DigitChar | main/serial_interface.cpp:364 | the digit of a value below 10 is a digit with that value |
| ArduinoString.DigitsValue | main/serial_interface.cpp:364 | definition of `toInt` on a digit string: its decimal value |
| ArduinoString.Pow10 | main/serial_interface.cpp:364 | powers of ten are positive |
| ArduinoString.ZeroPadded | main/serial_interface.cpp:349-362 | the zero-padded text of a number has exactly the width asked for and only digits |
| ArduinoString.ZeroPaddedValue | main/serial_interface.cpp:364 | `toInt` of a zero-padded text gives the number modulo 10^width |
| ArduinoString.DivModPow10 | main/serial_interface.cpp:364 | dropping the last decimal digit and reducing modulo 10^w composes to reduction modulo 10^(w+1) |
| ArduinoString.ModUnique | main/serial_interface.cpp:364 | the Euclidean remainder is the unique r in [0, m) with n = m*q + r |
| ArduinoString.MulAtLeast | main/serial_interface.cpp:364 | a positive multiple of m is at least m |
| ArduinoString.DigitsValueZeroPadded | main/serial_interface.cpp:354-364 | every digit string is the zero-padded text of its own `toInt` value, and that value is below 10^length |
| ArduinoString.NatDigits | main/helpers.cpp:146-150 | the decimal text of a natural number is non-empty and all digits |
| ArduinoString.NatDigitsValue | main/helpers.cpp:146-150 | reading back the decimal text of a natural number gives the number |
| ArduinoString.DecimalText | main/helpers.cpp:146-156 | `String(int)` is non-empty and starts with a digit iff the number is non-negative |
| ArduinoString.DecimalTextRoundTrip | main/helpers.cpp:146-156 | the decimal text of any integer reads back as the integer, after the minus sign for negatives |
| FlashStorage.Defaults | main/flash_storage.cpp:13-25 | the default record: magic "TELE", tolerance 2.0, every other float field and the timestamp 0 |
| FlashStorage.ParseKey | main/flash_storage.cpp:75-98 | a key name is recognised iff it is one of the ten field names, and it then denotes the field with that name |
| FlashStorage.ParseKeyName | main/flash_storage.cpp:75-98 | every field's own name selects that field |
| FlashStorage.KeyName | main/flash_storage.cpp:75-98 | definition of the key name each field is selected by |
| FlashStorage.ReadField | main/flash_storage.cpp:110-129 | definition of the field a key reads, the timestamp widened to float |
| FlashStorage.TruncateToUint32 | main/flash_storage.cpp:94 | the `(uint32_t)` cast truncates an in-range value toward zero |
| FlashStorage.WriteField | main/flash_storage.cpp:75-94 | a write changes exactly the selected field (the timestamp truncated), and leaves the magic and the checksum |
| FlashStorage.WriteThenRead | main/flash_storage.cpp:70-137 | writing a key and reading it back gives the written value, for the timestamp when it is integral and in range |
| FlashStorage.WriteSameValue | main/flash_storage.cpp:70-137 | writing back the value a key already reads changes nothing |
| FlashStorage.Cleared | main/flash_storage.cpp:145-156 | the reset record is the default record with the old checksum |
| FlashStorage.ClearedIdempotent | main/flash_storage.cpp:139-159 | resetting twice gives the same record as resetting once |
| FlashStorage.ClearedForgetsWrite | main/flash_storage.cpp:139-159 | a reset after a write gives the same record as a reset without it |
| FlashStorage.WordBytes | main/flash_storage.h:7-20 | a 32-bit field occupies four bytes |
| FlashStorage.Image | main/flash_storage.h:7-20 | the record image is 48 bytes and ends with the checksum field |
| FlashStorage.CalculateChecksum | main/flash_storage.cpp:41-52 | `calculateChecksum` is the 32-bit sum of the first 44 bytes of the record image |
| FlashStorage.SumBytes | main/flash_storage.cpp:45-51 | the accumulator loop computes the wrapped sum of the 44 bytes before the checksum field |
| FlashStorage.AddMod | main/flash_storage.cpp:48 | adding to an accumulator that wraps at 2^32 gives the wrapped total |
| FlashStorage.ModShift | main/flash_storage.cpp:48 | adding whole multiples of 2^32 does not change the wrapped value |
| FlashStorage.ByteSumBounds | main/flash_storage.cpp:45-49 | a sum of n bytes lies in [0, 255*n] |
| FlashStorage.ChecksumNeverWraps | main/flash_storage.cpp:45-49 | the checksum of a record is its unwrapped byte sum, at most 11220: the wrap-around never happens |
| FlashStorage.ChecksumExcludesChecksumField | main/flash_storage.cpp:41-52 | changing the checksum field never changes the checksum |
| FlashStorage.ByteSumUpdate | main/flash_storage.cpp:47-49 | changing one byte changes the sum by the difference of the two bytes |
| FlashStorage.SingleByteCorruptionDetected | main/flash_storage.cpp:41-52 | corrupting any single byte before the checksum field changes the checksum |
| FlashStorage.ByteSwapUndetected | main/flash_storage.cpp:41-52 | exchanging two bytes before the checksum field leaves the checksum unchanged |
| FlashStorage.IsFlashStorageAvailable | main/flash_storage.cpp:37-39 | storage is never available |
| FlashStorage.SaveSettingsToFlash | main/flash_storage.cpp:54-57 | the save stub always fails |
| FlashStorage.LoadSettingsFromFlash | main/flash_storage.cpp:59-62 | the load stub always fails and leaves the caller's record as it was |
| FlashStorage.EraseSettingsFlash | main/flash_storage.cpp:64-67 | the erase stub always fails |
| FlashStorage.Store.constructor | main/flash_storage.cpp:7-9 | before initialisation the record is all zeroes and the store is not initialised |
| FlashStorage.Store.InitFlashStorage | main/flash_storage.cpp:11-35 | init writes the default record with checksum 0, marks the store initialised and reports no persistent storage |
| FlashStorage.Store.SaveFloatToFlash | main/flash_storage.cpp:70-102 | a save succeeds iff the store is initialised and the key is known, and then it writes exactly that field; otherwise the record is unchanged |
| FlashStorage.Store.LoadFloatFromFlash | main/flash_storage.cpp:104-137 | a load gives the stored field for a known key once initialised, and the caller's default otherwise |
| FlashStorage.Store.ClearAllFlashSettings | main/flash_storage.cpp:139-159 | a clear is refused before initialisation; otherwise every field but the checksum goes back to its default |
| FlashStorage.StoreScenario | main/flash_storage.cpp:11-159 | after init a saved float reads back, a save under an unknown key is refused and changes nothing, and clearing twice is clearing once |
| Helpers.CalculatePositionDifference | main/helpers.cpp:174-176 | the difference is non-negative, zero iff the angles are equal, and is exactly one of current − target and target − current |
| Helpers.PositionDifferenceSymmetric | main/helpers.cpp:174-176 | the difference is symmetric in its arguments |
| Helpers.ParkDecision | main/helpers.cpp:19-23 | parked iff each axis is within the tolerance of its park value, both bounds included |
| Helpers.ParkDecisionExamples | main/helpers.cpp:19-23 | on the park position, inside, on the boundary and outside the 2-degree band |
| Helpers.ParkState.constructor | main/helpers.cpp:9-11 | the park globals start from the given values, not parked |
| Helpers.ParkState.UpdatePositionAndParkStatus | main/helpers.cpp:14-51 | a good read becomes the current position and decides the park status through the inclusive band; a failed read clears the status and keeps the position |
| Helpers.ParkState.IsCurrentlyParked | main/helpers.cpp:53-56 | refresh then report: a good read becomes the current position; parked iff the read succeeded and lies inside the band; a failed read keeps the current position |
| Helpers.SaveFloatPreference | main/helpers.cpp:59-67 | a float save reports success (nothing is stored) |
| Helpers.SaveIntPreference | main/helpers.cpp:69-71 | an int save reports success |
| Helpers.LoadFloatPreference | main/helpers.cpp:73-81 | a float load always gives its default |
| Helpers.LoadIntPreference | main/helpers.cpp:83-85 | an int load gives its default, through a float and back |
| Helpers.ClearAllPreferences | main/helpers.cpp:87-94 | clearing preferences always fails |
| Helpers.SaveThenLoad | main/helpers.cpp:59-81 | a successful save followed by a load gives the load's default, not the saved value |
| Helpers.CalibrationWarning | main/helpers.cpp:196-203 | the warning is issued iff `successful < samples / 2` with C integer division, that is 2*(successful+1) <= samples |
| Helpers.CalibrationWarningAt500 | main/helpers.cpp:199 | for the 500 samples of a calibration the warning means fewer than 250 good ones |
| Helpers.Render | main/helpers.cpp:158-160 | a built object starts with `{` and ends with `}` |
| Helpers.RenderPair | main/helpers.cpp:122-160 | a two-entry object is its entries between braces, separated by one comma |
| Helpers.JoinAppend | main/helpers.cpp:122-126 | appending an entry adds a comma first iff there was an entry already |
| Helpers.BuildSimpleJSONResponse | main/helpers.cpp:97-99 | the one-entry object of a string pair is what a builder with that entry builds |
| Helpers.BuildSimpleJSONResponseFloat | main/helpers.cpp:101-103 | the same for a formatted float |
| Helpers.BuildSimpleJSONResponseBool | main/helpers.cpp:105-107 | the same for `true`/`false` |
| Helpers.BuildJSONError | main/helpers.cpp:109-111 | the error reply is the object with a status entry "error" and the message entry |
| Helpers.ErrorMessageNotEscaped | main/helpers.cpp:109-111 | the message is copied without escaping, so a quote in it ends the JSON string early |
| Helpers.BuildJSONNotification | main/helpers.cpp:113-115 | the notification is the one-entry object of the message |
| Helpers.JSONBuilder.constructor | main/helpers.cpp:118-120 | a fresh builder holds no entries |
| Helpers.JSONBuilder.Append | main/helpers.cpp:122-126 | an add appends one entry, preceded by a comma iff one was already added |
| Helpers.JSONBuilder.Add | main/helpers.cpp:122-132 | a string add appends the `"key":"value"` entry |
| Helpers.JSONBuilder.AddFloat | main/helpers.cpp:134-138 | a float add appends `"key":` and the formatted number |
| Helpers.JSONBuilder.AddBool | main/helpers.cpp:140-144 | a bool add appends `"key":true` or `"key":false` |
| Helpers.JSONBuilder.AddInt | main/helpers.cpp:146-156 | an int or unsigned long add appends `"key":` and the decimal text |
| Helpers.JSONBuilder.Build | main/helpers.cpp:158-160 | build gives the entries added so far between braces and changes nothing |
| Helpers.JSONBuilder.Reset | main/helpers.cpp:162-165 | after a reset the builder holds no entries |
| Helpers.AckScenario | main/serial_interface.cpp:93-99 | a fresh builder builds `{}`; the acknowledgement is the two-entry object of the ack status and the command |
| PositionSensor.Accepted | main/position_sensor.cpp:96-98 | definition of the acceptance test: no not-a-number channel and every accelerometer channel strictly within ±10 g |
| PositionSensor.CalibrationResult | main/position_sensor.cpp:124-131 | definition of the offsets calibration leaves: the accepted means, z less 1 g, or the previous offsets |
| PositionSensor.AcceptedCountBounds | main/position_sensor.cpp:82-119 | no more samples are accepted than taken |
| PositionSensor.RejectedSampleIgnored | main/position_sensor.cpp:96-118 | a rejected sample leaves the calibration exactly as if it had not been taken |
| PositionSensor.NoAcceptedSampleKeepsOffsets | main/position_sensor.cpp:124 | with no accepted sample the offsets keep their previous values |
| PositionSensor.ConstantSums | main/position_sensor.cpp:96-118 | a steady accepted sample is counted every time and each channel sums to count times its value |
| PositionSensor.SteadySensorCalibration | main/position_sensor.cpp:124-131 | a steady sensor calibrates to its own reading, the vertical axis less 1 g |
| PositionSensor.SteadyMean | main/position_sensor.cpp:124-131 | the mean of a steady channel is its value |
| PositionSensor.MeanOfConstant | main/position_sensor.cpp:125-130 | n equal values average to that value |
| PositionSensor.AccelSumBounds | main/position_sensor.cpp:96-98 | accelerometer sums over accepted samples stay within ±10 g per sample, strictly once a sample is accepted |
| PositionSensor.CalibratedAccelOffsetsBounded | main/position_sensor.cpp:124-131 | calibrated offsets lie in (−10, 10) g for x and y and in (−11, 9) g for z |
| PositionSensor.MeanBounded | main/position_sensor.cpp:125-127 | a mean of values bounded by ±10 is bounded by ±10 |
| PositionSensor.Smooth | main/position_sensor.cpp:162-164 | definition of one filter update, `alpha*state + (1-alpha)*input` |
| PositionSensor.FilterStep | main/position_sensor.cpp:159-167 | definition of the filter update on all three channels |
| PositionSensor.FilterAlphaZero | main/position_sensor.cpp:159-167 | alpha 0 makes the filter output the calibrated input |
| PositionSensor.FilterAlphaOne | main/position_sensor.cpp:159-167 | alpha 1 leaves the filter state unchanged |
| PositionSensor.FilterRunAlphaOne | main/position_sensor.cpp:159-167 | with alpha 1 no run of reads ever moves the filter state |
| PositionSensor.FilterRunAlphaZero | main/position_sensor.cpp:159-167 | with alpha 0 the filter holds the latest input after any run |
| PositionSensor.SmoothBetween | main/position_sensor.cpp:162-164 | a filtered value lies between the old state and the input for alpha in [0, 1] |
| PositionSensor.MulNonneg | main/position_sensor.cpp:162-164 | a product of non-negative numbers is non-negative |
| PositionSensor.FilterRunStaysInBox | main/position_sensor.cpp:159-167 | for alpha in [0, 1] a filter state and inputs within a box keep the state within it |
| PositionSensor.FilterFixedPoint | main/position_sensor.cpp:159-167 | a steady input equal to the filter state is a fixed point |
| PositionSensor.Estimate | main/position_sensor.cpp:176-204 | a position comes out iff the magnitude is at least 0.1 and the tilt angles are valid, and it is those angles |
| PositionSensor.ZeroSignalRejected | main/position_sensor.cpp:176-180 | a reading of (0, 0, 0) yields no position |
| PositionSensor.Sensor.constructor | main/position_sensor.cpp:8-22 | start-up: zero offsets, alpha 0.2, zero filter state, filtering on |
| PositionSensor.Sensor.CalibrateSensor | main/position_sensor.cpp:75-137 | calibration counts the accepted samples (at most 500), warns iff the count is below half, and sets the offsets to the calibration means, or keeps them when none was accepted |
| PositionSensor.ChannelsBetween | main/position_sensor.cpp:159-167 | definition: every channel lies between the two given vectors |
| PositionSensor.FilterStepBetween | main/position_sensor.cpp:159-167 | for alpha in [0, 1] one filter step leaves every channel between the old state and the calibrated input |
| PositionSensor.Calibrated | main/position_sensor.cpp:151-154 | definition: the accelerometer reading less the offsets |
| PositionSensor.ReadPositionOutcome | main/position_sensor.cpp:139-207 | definition: the outcome and filter state of one read, including the not-a-number exit |
| PositionSensor.Sensor.ReadPosition | main/position_sensor.cpp:139-207 | with alpha in [0, 1] (the class invariant): a not-a-number channel fails before any change; otherwise the filter advances when enabled (even if the read then fails), every filtered channel stays between the old state and the calibrated input, and the outcome is the estimate of the filtered or calibrated vector |
| PositionSensor.Sensor.SetFiltering | main/position_sensor.cpp:210-218 | the filter switch becomes the argument |
| PositionSensor.Sensor.SetFilterAlpha | main/position_sensor.cpp:221-229 | alpha is assigned iff the new value is in [0, 1], and stays in [0, 1] |
| PositionSensor.Sensor.LoadCalibration | main/position_sensor.cpp:238-251 | loading the calibration sets every offset to the load default 0 |
| PositionSensor.HasStoredCalibration | main/position_sensor.cpp:231-236 | the stored-calibration probe always answers "no" |
| SerialInterface.Step | main/serial_interface.cpp:50-66 | one character: `<` always clears the buffer and enters command mode; outside command mode anything else is ignored; ready is set iff `>` closes a non-empty command; the buffer stays at most 31 printable characters |
| SerialInterface.StepAll | main/serial_interface.cpp:50-66 | definition of the framer after a run of characters, one `Step` each |
| SerialInterface.StepAllValid | main/serial_interface.cpp:61-65 | over any input the buffer holds at most 31 characters, all printable |
| SerialInterface.StepAllAppend | main/serial_interface.cpp:50-66 | reading two batches is reading their concatenation |
| SerialInterface.OutsideCommandIgnored | main/serial_interface.cpp:50-66 | outside command mode, input without `<` changes nothing |
| SerialInterface.Capped | main/serial_interface.cpp:61-65 | the buffer's view of a payload: its first 31 characters, or all of it when shorter |
| SerialInterface.PayloadStep | main/serial_interface.cpp:61-65 | in command mode a payload character is appended while the buffer has room and dropped otherwise |
| SerialInterface.CappedSnoc | main/serial_interface.cpp:61-65 | one more character extends the kept prefix while there is room |
| SerialInterface.CollectPayload | main/serial_interface.cpp:61-65 | in command mode payload characters are collected up to 31, the rest dropped |
| SerialInterface.FrameDelivers | main/serial_interface.cpp:50-66 | a complete frame leaves its first 31 payload characters, out of command mode, ready iff the payload was not empty |
| SerialInterface.SecondFrameReplacesFirst | main/serial_interface.cpp:53-55 | a second `<` in the same batch discards the first command |
| SerialInterface.Normalize | main/serial_interface.cpp:70-71 | the normalised command is no longer than the buffer, has no white space at its ends and no lower-case letter |
| SerialInterface.NormalizeIdempotent | main/serial_interface.cpp:112-113 | normalising a normalised command changes nothing |
| SerialInterface.Dispatched | main/serial_interface.cpp:69-80 | a command is handed on iff one is ready and the trimmed, upper-cased buffer is not empty, and it is exactly that trimmed, upper-cased buffer |
| SerialInterface.CommandReceiver.constructor | main/serial_interface.cpp:5-8 | the framer starts empty, outside command mode, not ready |
| SerialInterface.CommandReceiver.HandleSerialCommands | main/serial_interface.cpp:48-81 | the loop runs the framer over the input; a ready command is normalised, handed on if non-empty, and the buffer and ready flag are cleared |
| SerialInterface.CodeOf | main/serial_interface.h:9-30 | every command code has two characters |
| SerialInterface.Classify | main/serial_interface.cpp:117-179 | an exact handler is chosen only by its own code; the tolerance and alpha handlers iff the command starts with `0A` or `10` |
| SerialInterface.TwoCharPrefix | main/serial_interface.cpp:147-165 | `startsWith` a two-character code compares the first two characters |
| SerialInterface.ClassifyCode | main/serial_interface.cpp:117-179 | every code of the table reaches its own handler |
| SerialInterface.UnknownIffNoCode | main/serial_interface.cpp:117-179 | a command is unknown iff it is no exact code and has neither prefix |
| SerialInterface.DispatchedCommandClassified | main/serial_interface.cpp:69-80 | a command delivered by the framer is classified as delivered |
| SerialInterface.ProcessIgnoresBlanks | main/serial_interface.cpp:112-113 | blanks around a command and the case of its letters do not matter |
| SerialInterface.JSONResponse | main/serial_interface.cpp:101-109 | the reply is the two-entry object of the ok status and the data, as a builder holding those entries renders it |
| SerialInterface.ParseArgument | main/serial_interface.cpp:348-369 | bad format iff the length is wrong; not digits iff the length is right and the argument is not all digits; a value is in range and its zero-padded text is the argument |
| SerialInterface.ArgumentRoundTrip | main/serial_interface.cpp:348-369 | a code followed by the zero-padded text of a value in range parses to that value |
| SerialInterface.SmallMod | main/serial_interface.cpp:364 | a value below the modulus is its own remainder |
| SerialInterface.ParseTolerance | main/serial_interface.cpp:348-369 | definition of the tolerance argument check: five characters, values 1..999 |
| SerialInterface.ParseAlpha | main/serial_interface.cpp:473-493 | definition of the alpha argument check: four characters, values 0..99 |
| SerialInterface.ToleranceOutOfRangeIffZero | main/serial_interface.cpp:364-369 | only `000` fails the tolerance range check |
| SerialInterface.ToleranceAccepted | main/serial_interface.cpp:348-372 | a tolerance command is accepted iff it has five characters, three digits after the code and not `000`; the value is then `toInt` of the digits, in 1..999 |
| SerialInterface.AlphaAccepted | main/serial_interface.cpp:473-493 | an alpha command is accepted iff it has four characters and two digits after the code; the value is then `toInt` of the digits, at most 99 |
| SerialInterface.AlphaNeverOutOfRange | main/serial_interface.cpp:489-493 | the alpha range check can never fail |
| SerialInterface.AllDigitsCheck | main/serial_interface.cpp:354-362 | the digit loop accepts iff every character is a digit |
| SerialInterface.HandleSetToleranceCommand | main/serial_interface.cpp:348-383 | an accepted command sets the tolerance to value/100 in (0, 10) and replies with it; otherwise the tolerance is unchanged and the reply is the matching error |
| SerialInterface.HandleSetFilterAlphaCommand | main/serial_interface.cpp:473-505 | a well-formed command sets alpha to value/100 ≤ 0.99 and replies with it; otherwise alpha is unchanged and the reply is the matching error |
| SerialInterface.AlphaReply | main/serial_interface.cpp:498-504 | the alpha reply reports the new alpha, its hundredths, the message and the note, in that order |
| SerialInterface.SetParkResult | main/serial_interface.cpp:273-294 | as written: a valid new reading becomes the park position; after a failed read the park position changes only to the previous current position, and does so whenever that position is valid |
| SerialInterface.StaleParkAfterFailedRead | main/serial_interface.cpp:274-278 | a failed read after a good one still sets the park position, to the stale position |
| SerialInterface.SetParkResultChecked | main/serial_interface.cpp:274-292 | corrected rule: the park position is taken from a successful read only |
| SerialInterface.SetParkRulesAgreeOnGoodRead | main/serial_interface.cpp:274-292 | the written and corrected rules agree on every successful read |
| SerialInterface.RefreshAndSetPark | main/serial_interface.cpp:274-278 | the read is the `readPosition` outcome for the given accelerometer channels, offsets and filter, with the filter state it leaves; a good read decides the park status against the old park position; the park position is the as-written result, and it is set iff the current position is valid |
| SerialInterface.HandleSetParkCommand | main/serial_interface.cpp:273-294 | the read and filter state are the `readPosition` outcome for the inputs; a good read becomes the current position, decides the park status and so gives the success reply; a failed read keeps the current position and clears the park status; the park position follows the as-written rule; the reply reports it when the current position is valid, otherwise it is the read error |
| SerialInterface.HandleSoftwareSetParkCommand | main/serial_interface.cpp:417-441 | the same as the set-park handler, with the software-command message in the reply |
| SerialInterface.HandleToggleFilterCommand | main/serial_interface.cpp:461-471 | filtering flips and the reply reports the new setting |

## Left out

- IMU access (`imu.begin`, the `imu.read*` calls, `readTempC`) and
  `initPositionSensor` are foreign library calls, so readings are
  arguments.
- The `atan2`/`sqrt` angle computation is floating-point numerics and is
  the parameter `tilt`. The magnitude check is `x² + y² + z² < 0.01`,
  which is `sqrt(...) < 0.1` over the reals.
- Floats are exact reals with a not-a-number case: rounding, infinities
  and single-precision accumulation error are not modelled.
- `String(float, decimals)` depends on library formatting and is the
  parameter `format`.
- The IEEE-754 encoding of floats in the record image is the parameter
  `bits`. The record layout is taken as packed little-endian with no
  padding, as the 48-byte record is on the target.
- FlashStorage.TruncateToUint32: a float-to-`uint32_t` cast of a
  negative, out-of-range or not-a-number value is undefined in C++. The
  model maps it to 0.
- The `cal_timestamp` casts in `loadFloatFromFlash` and `saveCalibration`
  are float-specific. The model widens the stored integer exactly.
- `saveCalibration` only calls the preference facade, whose saves store
  nothing (`SaveFloatPreference`), and debug printing.
- Serial I/O, `delay`, `millis`, `yield` and `NVIC_SystemReset` are I/O.
  `sendSerialResponse`, `sendSerialError` and `sendSerialAck` only print.
  Handlers return the reply text instead of printing it.
- The help text and the status, position, parked, get-park, calibrate,
  debug-toggle, version, reset, get-tolerance, system-info,
  factory-reset, raw-data, storage-test and diagnostic handlers are
  constant strings, I/O or float statistics over live readings. Dispatch
  to them is modelled (`Classify`), their bodies are not.
- `main/led_control.cpp` and `main/Debug.cpp` are hardware and gated
  printing.
- The block-device protocol does not exist in this configuration. Only
  the stubs that fail are modelled.
- SerialInterface.ProcessSerialCommand has no contract of its own. It is
  normalisation followed by `Classify`, and its properties are stated by
  `Classify`, `NormalizeIdempotent`, `DispatchedCommandClassified` and
  `ProcessIgnoresBlanks`.
- Helpers.AckScenario states the acknowledgement through `StringEntry`,
  not as one literal string.
- Helpers.IsValidPosition is a predicate without a contract. Its range
  checks are used by `Estimate`, `UpdatePositionAndParkStatus` and the
  set-park rules.
- The `saved` entry of the set-park and set-tolerance replies is always
  `true`, because the preference saves always report success.

## Findings

| source | as written | input that shows it | evidently intended | confidence | as-written member | corrected member |
|---|---|---|---|---|---|---|
| main/serial_interface.cpp:274-278 (and 420-424) | after `updatePositionAndParkStatus`, the park position is set whenever the current position is valid; a failed read leaves the previous current position in place, so it passes the check | a good read of pitch 10, roll 5, then a set-park command whose read fails: the park position becomes (10, 5) and the reply is success, not "Failed to read current position from sensor" | set the park position only from a successful read, and send the read error otherwise | medium, not executed | SerialInterface.StaleParkAfterFailedRead | SerialInterface.SetParkResultChecked |
