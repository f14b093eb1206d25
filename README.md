# HSAFM motor controller and approach buzzer

A model of the motion logic of the HSAFM coarse-approach motor controller
(`MainWindow` in `motor_control.py`), of its settings file, and of the
`ApproachBuzzer` melody player (`buzzer.py`). The model leaves out the Qt
widgets. It keeps the state the window's button handlers and timer ticks
change:

- the two hardware PWM channels (cw = retract, ccw = approach);
- the direction bits on the DA HAT;
- the ramp timer, the position-count timer and the auto-approach flag;
- the position counter and the travel limits;
- the 26 persisted settings.

Files:

- `wrappers.dfy`: `Option` and `Result`.
- `settings_codec.dfy` (module `SettingsCodec`): the 34-slot, 272-byte
  `settings.dat` record.
  - Encoding: big-endian `to_bytes(8)` integers plus three packed floats.
    The first integer that does not fit in 8 bytes raises `OverflowError`,
    leaving a truncated file.
  - Decoding: sequential `read(8)` calls. A short chunk of an integer slot
    decodes to what is there. A float slot short of 8 bytes raises.
  - Round trip: a save followed by a load restores every field, with two
    exceptions. Slot 19 is read into a local, so `motorUpdateTimeMS` is not
    restored. The second retract-channel copy lands in the misspelled
    attribute `retrachChn`.
- `motor_model.dfy` (module `MotorModel`): the window state as a value
  (`Motor`) and every handler as a function on it.
  - `Step`/`Run` apply a sequence of inputs: buttons, check boxes and timer
    periods.
  - `Safe`, the safety invariant, is proved to hold for every run: a stopped
    motor drives neither of the two channel objects the window holds, and
    arms no timer. It says nothing about a hardware channel the window no
    longer holds (see `DoAdvancedSettings` under "## Left out").
  - The ramp (`AcceleratedMovement`) is proved to converge in
    ⌈pulseFreq/acceleration⌉ periods, and never to end when the acceleration
    is 0.
- `motor_control.dfy` (module `MotorControl`): the imperative `MainWindow`
  class.
  - Its fields mirror the Python attributes.
  - Each handler is a method that updates them in place.
  - `State()` projects the fields onto a `MotorModel.Motor`. The `On…`
    methods and `Deliver` prove that each handler does exactly what the
    functional model says.
  - `SaveSettings` writes the record slot by slot in a loop.
  - `LoadSettings` reads it back field by field, with the except-clause that
    falls back to saving.
- `melody.dfy` (module `Melody`): the pure part of the buzzer, with Python's
  semantics spelled out.
  - `split(' ')` keeps empty pieces. Negative indexing and negative slice
    stops are modelled.
  - `int()`/`float()` of one character accept only a digit.
  - Errors are modelled: `IndexError` on an empty token or a one-character
    note, `ValueError` on a non-digit (so the token "p" raises `ValueError`), and `ZeroDivisionError` on a zero
    denominator or `bpm == 0`.
  - `noteToFreq` gives a pitch as semitones from A4 (440 Hz ⋅ 2^(n/12)).
  - `setMelody2` is a list-building function. `playMelody` and `sweep` are
    event traces.
- `buzzer.dfy` (module `Buzzer`): the `ApproachBuzzer` class.
  - Its lists and its emitted trace of tones, beeps and waits are fields.
  - `SetMelody2`, `PlayMelody` and `Sweep` are loops proved against the
    `Melody` functions.
  - The four built-in melodies are proved to parse without error.

Where the code and its documentation disagree, the model follows the code.
Each place is stated by a lemma or a field of the model:

- Slot 19 is not restored (see above).
- `retrachChn` is a separate attribute that nothing reads.
- At exactly 10000 Hz, `MotorStart` drives the channel directly (its test is
  `> 10000`). The position tick, though, counts with the stale ramp
  frequency (its test is `< 10000`). `MotorModel.ThresholdMismatch` states
  this.
- A start does not stop the idle channel first. Reversing a running motor
  in output mode 0 leaves both channels driving
  (`MotorModel.ReverseLeavesBothChannelsRunning`).
- A start while the motor runs is neither rejected nor turned into a stop
  and a start. The travel origin moves to the current position, and a ramp
  in progress keeps ticking (`MotorModel.StartWhileRunning`).
- A stop does not reset the ramp frequency to 0
  (`MotorModel.StopKeepsRampFrequency`), so `MotorModel.Safe` does not
  require it.
- The ramp overshoots a target that is not a multiple of the acceleration.
  Its last step drives the channel above pulseFreq
  (`MotorModel.RampOvershoots`).
- A running motor can be driven at 0 Hz. Only the Slower button clamps the
  speed at 1 (motor_control.py:1317-1319). The Down buttons clamp the speed
  settings at 0 (motor_control.py:583-594), and a start then runs the motor
  with its channel commanded at 0 Hz (`MotorModel.ZeroSpeedStart`).
- A corrupt settings file does not always fall back to the defaults.
  `int.from_bytes(b'')` is 0, so a file cut anywhere in slot 19 (152 to 160
  bytes) loads without error. Every later slot reads as 0: the output mode
  becomes 0, both travel limits are switched off, and nothing is rewritten
  (`SettingsCodec.ReadPastEndIsZero`, `SettingsCodec.TruncatedRecordLoads`).
- A file cut before the float slots raises, but the except-clause saves
  back the integer slots read so far (0 past the end), not the defaults
  (`MotorModel.ShortRecordKeepsPartialValues`).
- `OutputSelectFunction` and the DirectionChn spin box are unreachable in
  the source: their widgets and connections are commented out
  (motor_control.py:642-656). The model still offers them as inputs
  (`Input.OutputChoice`, `AdvancedBox.DirectionChnBox`), so the invariant
  covers them as well.

## Model

| member | source | states |
|---|---|---|
| SettingsCodec.Pow256 | motor_control.py:1385-1420 | 256^n is positive: the range of an n-byte big-endian integer |
| SettingsCodec.U64BoundIsTwoTo64 | motor_control.py:1385 | the bound of `to_bytes(8, 'big')` is 2^64 |
| SettingsCodec.BigEndian | motor_control.py:1385-1420 | `to_bytes(n, 'big')` of a value below 256^n has exactly n bytes |
| SettingsCodec.FromBigEndian | motor_control.py:1430-1465 | `from_bytes(b, 'big')` is below 256^\|b\| |
| SettingsCodec.FromBigEndianOfBigEndian | motor_control.py:1385-1465 | decoding the big-endian bytes of v gives v back |
| SettingsCodec.BigEndianOfFromBigEndian | motor_control.py:1385-1465 | encoding a decoded chunk gives the chunk back (the codec is a bijection on n-byte chunks) |
| SettingsCodec.ToBytes8 | motor_control.py:1385-1420 | `to_bytes(8)` succeeds exactly for 0 <= v < 2^64 (otherwise OverflowError) and decodes back to v |
| SettingsCodec.Record | motor_control.py:1385-1420 | the record holds 34 values, slot i being the i-th field written |
| SettingsCodec.Slot | motor_control.py:1375-1420 | an integer slot decodes back to its value; a float slot is the packed float |
| SettingsCodec.Encode | motor_control.py:1383-1422 | the bytes written are at most 8 per value, exactly 8 per value when every write succeeds |
| SettingsCodec.EncodeOkIffAllFit | motor_control.py:1383-1422 | the save completes if and only if every integer fits in 8 unsigned bytes |
| SettingsCodec.EncodeLayout | motor_control.py:1383-1422 | in a completed save, bytes [8i, 8i+8) are the encoding of slot i |
| SettingsCodec.EncodeStopsAtFirstOverflow | motor_control.py:1383-1422 | a failed save leaves exactly the 8k bytes of the slots before the first integer k that does not fit |
| SettingsCodec.EncodeFailureIsFinal | motor_control.py:1383-1422 | once a write has raised, later fields change nothing |
| SettingsCodec.Chunk | motor_control.py:1430-1465 | `read(8)` returns at most 8 bytes, and exactly slot i when the file holds it |
| SettingsCodec.IntAt | motor_control.py:1430-1465 | an integer read back is below 2^64 |
| SettingsCodec.Pow256Monotone | motor_control.py:1430-1465 | 256^a <= 256^b for a <= b, so a short chunk still decodes below 2^64 |
| SettingsCodec.LoadFrom | motor_control.py:1426-1467 | a missing file changes nothing; the load completes if and only if the file holds the 19 slots up to the floats; motorUpdateTimeMS is never restored; slot 27 goes to retrachChn; a failed load keeps the later fields |
| SettingsCodec.ReadPastEndIsZero | motor_control.py:1447-1466 | a slot past the end of the file reads as 0 |
| SettingsCodec.TruncatedRecordLoads | motor_control.py:1426-1466 | a record cut in slot 19 loads without error, with output mode, travel limits and limit states 0 |
| SettingsCodec.SaveBytes | motor_control.py:1382-1422 | the file of a save whose integers fit is exactly 272 bytes |
| SettingsCodec.IntSlot | motor_control.py:1382-1465 | every integer slot of a saved file reads back as the field written there |
| SettingsCodec.FloatSlot | motor_control.py:1375-1448 | every float slot of a saved file is a full block holding the packed float |
| SettingsCodec.SavedInts0To7 | motor_control.py:1385-1392 | slots 0-7 read back as adUpdateTimeMS … dSpeed |
| SettingsCodec.SavedInts8To15 | motor_control.py:1393-1400 | slots 8-15 read back as powerCycle … zpiChn |
| SettingsCodec.SavedInts20To26 | motor_control.py:1405-1412 | slots 20-26 read back as outputMode … approachChn |
| SettingsCodec.SavedInts27To33 | motor_control.py:1413-1420 | slots 27-33 read back as retractChn … slowLimitState |
| SettingsCodec.SavedFloats | motor_control.py:1401-1403 | slots 16-18 hold the packed defLimit, zpiLimit and ampRatio |
| SettingsCodec.LoadAfterSave | motor_control.py:1382-1467 | load after save restores every field except motorUpdateTimeMS; floats come back as unpack(pack(x)); retrachChn gets the retract channel |
| SettingsCodec.LoadAfterSaveExact | motor_control.py:1382-1467 | when the three stored floats unpack back to themselves, load after save is the identity up to those two quirks |
| MotorModel.Abs | motor_control.py:1144 | `abs`: non-negative, equal to x or -x |
| MotorModel.TruncDiv | motor_control.py:1139 | `int(a/b)` truncates toward zero, for both signs of a |
| MotorModel.MotorStop | motor_control.py:1259-1270 | both channels, both motion timers and the auto-approach flag are off; the channels' frequency registers and accelFreq are kept; pulseFreq and the travel flags are cleared; position, direction, startPos and setup are kept |
| MotorModel.MotorStopIdempotent | motor_control.py:1259-1270 | stopping twice is stopping once |
| MotorModel.Command | motor_control.py:1183-1206 | in mode 0 the channel of the direction runs at f with the power duty and the other channel is not touched; in any other mode the DIO bit records the direction (1 retract, 0 approach) and channel ccw runs at f; a direction other than ±1 changes nothing |
| MotorModel.CommandChannel | motor_control.py:1183-1206 | the channel command touches only the two PWMs and the DIO bits |
| MotorModel.MotorStart | motor_control.py:1172-1208 | the motor runs and the count timer starts; above 10000 Hz the ramp restarts from 0 and the channels are untouched; at or below, the channel is commanded at pulseFreq |
| MotorModel.PressStart | motor_control.py:1210-1243 | a start button records the start position, sets the direction, the speed of its mode and the travel flags, and starts the motor |
| MotorModel.PressAutoApproach | motor_control.py:1245-1250 | auto-approach sets the approach direction and speed, records the initial amplitude and starts the motor with the monitor armed |
| MotorModel.LimitChecks | motor_control.py:1143-1151 | when the armed travel limit is reached the motor is halted; otherwise motion is unchanged |
| MotorModel.MotorCount | motor_control.py:1137-1169 | the position advances by direction × trunc(T·f/10000) for the frequency of the tick, then the travel limits are checked |
| MotorModel.AcceleratedMovement | motor_control.py:1352-1369 | the ramp frequency rises by the acceleration and drives the channel of the direction in mode 0; the ramp timer stops once the target is reached |
| MotorModel.RampProgress | motor_control.py:1352-1369 | after k ramp periods the ramp frequency is start + k·acceleration, and the timer is active exactly while that is below the target |
| MotorModel.RampPeriods | motor_control.py:1352-1369 | the period count n is the least n with n·acc >= target |
| MotorModel.RampConverges | motor_control.py:1352-1369 | a ramp from 0 stops after exactly ⌈target/acc⌉ periods, and not before |
| MotorModel.MulMonotone | motor_control.py:1352-1369 | multiplying by a non-negative step preserves order (used for the ramp bound) |
| MotorModel.RampWithoutAccelerationNeverStops | motor_control.py:1352-1369 | with acceleration 0 the ramp timer never stops and the frequency stays put |
| MotorModel.Faster | motor_control.py:1272-1307 | while running, the speed rises by dSpeed, the channel is commanded at the new speed (never ramped; a ramp in progress keeps its timer) and the count timer restarts; stopped, nothing changes |
| MotorModel.Slower | motor_control.py:1311-1348 | while running, the speed falls by dSpeed but not below 1; stopped, nothing changes |
| MotorModel.AutoApproachCheck | motor_control.py:1252-1254 | contact (damped amplitude, z-piezo below or deflection above its limit) halts the motor; otherwise nothing changes |
| MotorModel.UpdateAdTimer | motor_control.py:1081-1103 | the four channels are sampled from their configured inputs, the approach monitor runs while approaching, and the graph counter advances only while the meter runs |
| MotorModel.GraphCountStaysBelowPeriod | motor_control.py:1091-1101 | the graph counter stays 0 or below graphUpdateTimeMS / adUpdateTimeMS |
| MotorModel.MeterStopButton | motor_control.py:1064-1077 | the meter flag flips and nothing else changes |
| MotorModel.SaveSettings | motor_control.py:1382-1422 | the file becomes the encoding of the current settings; nothing else changes |
| MotorModel.LoadSettings | motor_control.py:1426-1470 | settings come from the file when it loads, otherwise the partly loaded settings are saved back |
| MotorModel.SaveThenLoad | motor_control.py:1382-1470 | when the three float settings unpack back to themselves, saving then loading restores the settings up to retrachChn |
| MotorModel.StepDown | motor_control.py:565-620 | a speed lowered by a step is clamped at 0 |
| MotorModel.StepDownReal | motor_control.py:565-620 | a threshold lowered by a step is clamped at its floor |
| MotorModel.AdjustSetting | motor_control.py:565-620 | each up/down button changes exactly its own setting by its own step, with the clamps of the down buttons |
| MotorModel.UpDownButton | motor_control.py:565-620 | the setting is adjusted and then saved; nothing else changes |
| MotorModel.SpeedUpThenDown | motor_control.py:565-620 | up then down restores a non-negative speed |
| MotorModel.SpeedDownThenUp | motor_control.py:565-620 | down then up restores a speed at least one step above 0; below, it lands on dSpeed |
| MotorModel.ToggleLimit | motor_control.py:424-438 | the limit toggle gives 1 from 0 and 0 from anything else |
| MotorModel.ToggleLimitTwice | motor_control.py:424-438 | toggling twice restores a 0/1 state |
| MotorModel.SlowLimitCheck | motor_control.py:424-430 | the slow limit flips and the settings are saved |
| MotorModel.FastLimitCheck | motor_control.py:432-438 | the fast limit flips and the settings are saved |
| MotorModel.OutputSelect | motor_control.py:809-815 | the output mode is set to the index and saved |
| MotorModel.AdvancedSetting | motor_control.py:771-806 | each spin box sets exactly its own field |
| MotorModel.DoAdvancedSettings | motor_control.py:771-806 | the field of the box is set and saved; nothing else changes |
| MotorModel.Initial | motor_control.py:84-181 | a new window is stopped, at position 0, with the loaded (or default) settings |
| MotorModel.InitialWithoutFile | motor_control.py:109-167 | with no settings file the defaults are used and written out |
| MotorModel.InitialIsSafe | motor_control.py:84-181 | a new window satisfies the safety invariant |
| MotorModel.StepPreservesSafe | motor_control.py:1172-1369 | every button, check box and timer tick preserves the safety invariant |
| MotorModel.RunPreservesSafe | motor_control.py:1172-1369 | any sequence of inputs preserves the safety invariant |
| MotorModel.ThresholdMismatch | motor_control.py:1137-1177 | at exactly 10000 Hz the start sets no ramp, yet the tick counts with the ramp frequency |
| MotorModel.ReverseLeavesBothChannelsRunning | motor_control.py:1172-1225 | the slow-approach button on a motor retracting in mode 0 leaves the retract channel running beside the approach channel |
| MotorModel.StartWhileRunning | motor_control.py:1172-1243 | a start while running keeps the motor running, moves the travel origin, and leaves an active ramp timer and its frequency alone |
| MotorModel.StopKeepsRampFrequency | motor_control.py:1259-1270 | a stop leaves accelFreq unchanged |
| MotorModel.ZeroSpeedStart | motor_control.py:587-590 | with dSpeed at least the slow speed, Down then a start leaves the motor running at pulseFreq 0 with its channel commanded at 0 Hz |
| MotorModel.ShortRecordKeepsPartialValues | motor_control.py:1426-1470 | a settings file shorter than the float slots keeps the integers read so far (0 past the end, not the defaults) and saves that mixture back |
| MotorModel.RampOvershoots | motor_control.py:1352-1369 | a last ramp step that crosses pulseFreq stops the ramp with the channel driven above pulseFreq |
| MotorModel.StepsPerTick | motor_control.py:1139 | the pulses per tick are T·f/10000 truncated toward zero, for either sign |
| MotorModel.Safe | motor_control.py:1259-1270 | a halted motor is safe |
| MotorModel.Step | motor_control.py:315-403 | only the position tick moves the motor, and a running motor stops only by a full MotorStop (button, travel limit or approach contact) |
| MotorControl.MainWindow.constructor | motor_control.py:84-181 | the new window's state is the model's initial state |
| MotorControl.MainWindow.MotorStop | motor_control.py:1259-1270 | channels, timers and flags are switched off in place |
| MotorControl.MainWindow.MotorStopButton | motor_control.py:1256-1257 | the stop button yields the model's stopped state |
| MotorControl.MainWindow.CommandChannel | motor_control.py:1183-1206 | the outputs become the model's channel command |
| MotorControl.MainWindow.MotorStart | motor_control.py:1172-1208 | the motor is started in place as the model says |
| MotorControl.MainWindow.SlowRetractButton | motor_control.py:1210-1216 | slow speed, retract direction, start position recorded, slow travel flag, started |
| MotorControl.MainWindow.SlowApproachButton | motor_control.py:1219-1225 | slow speed, approach direction, start position recorded, slow travel flag, started |
| MotorControl.MainWindow.FastRetractButton | motor_control.py:1228-1234 | fast speed, retract direction, start position recorded, fast travel flag, started |
| MotorControl.MainWindow.FastApproachButton | motor_control.py:1237-1243 | fast speed, approach direction, start position recorded, fast travel flag, started |
| MotorControl.MainWindow.AutoApproachButton | motor_control.py:1245-1250 | approach speed and direction, initial amplitude recorded, monitor armed, started |
| MotorControl.MainWindow.AutoApproachCheck | motor_control.py:1252-1254 | contact stops the motor; otherwise motion is kept |
| MotorControl.MainWindow.FasterButton | motor_control.py:1272-1307 | the in-place speed-up agrees with the model |
| MotorControl.MainWindow.SlowerButton | motor_control.py:1311-1348 | the in-place slow-down agrees with the model |
| MotorControl.MainWindow.CheckTravelLimits | motor_control.py:1143-1151 | the travel limits are checked in place |
| MotorControl.MainWindow.MotorCountAccel | motor_control.py:1155-1169 | the position advances by the ramp frequency's steps, then the limits are checked |
| MotorControl.MainWindow.MotorCount | motor_control.py:1137-1153 | the position advances by the steps of pulseFreq below 10000 Hz, of the ramp frequency otherwise |
| MotorControl.MainWindow.AcceleratedMovement | motor_control.py:1352-1369 | the ramp step in place: frequency, channel and timer as in the model |
| MotorControl.MainWindow.UpdateAdTimer | motor_control.py:1081-1103 | samples, approach monitor and graph counter updated in place |
| MotorControl.MainWindow.MeterStopButton | motor_control.py:1064-1077 | the meter flag flips |
| MotorControl.MainWindow.UpDownButton | motor_control.py:565-620 | the setting is adjusted and saved in place |
| MotorControl.MainWindow.SlowLimitCheck | motor_control.py:424-430 | the slow limit is toggled and saved |
| MotorControl.MainWindow.FastLimitCheck | motor_control.py:432-438 | the fast limit is toggled and saved |
| MotorControl.MainWindow.OutputSelect | motor_control.py:809-815 | the output mode is set and saved |
| MotorControl.MainWindow.DoAdvancedSettings | motor_control.py:771-806 | the box's field is set and saved |
| MotorControl.MainWindow.OnSlowRetract | motor_control.py:1210-1216 | the window follows MotorModel.PressStart |
| MotorControl.MainWindow.OnSlowApproach | motor_control.py:1219-1225 | the window follows MotorModel.PressStart |
| MotorControl.MainWindow.OnFastRetract | motor_control.py:1228-1234 | the window follows MotorModel.PressStart |
| MotorControl.MainWindow.OnFastApproach | motor_control.py:1237-1243 | the window follows MotorModel.PressStart |
| MotorControl.MainWindow.OnAutoApproach | motor_control.py:1245-1250 | the window follows MotorModel.PressAutoApproach |
| MotorControl.MainWindow.OnFaster | motor_control.py:1272-1307 | the window follows MotorModel.Faster |
| MotorControl.MainWindow.OnSlower | motor_control.py:1311-1348 | the window follows MotorModel.Slower |
| MotorControl.MainWindow.OnSettingButton | motor_control.py:565-620 | the window follows MotorModel.UpDownButton |
| MotorControl.MainWindow.OnSlowLimit | motor_control.py:424-430 | the window follows MotorModel.SlowLimitCheck |
| MotorControl.MainWindow.OnFastLimit | motor_control.py:432-438 | the window follows MotorModel.FastLimitCheck |
| MotorControl.MainWindow.OnMeterButton | motor_control.py:1064-1077 | the window follows MotorModel.MeterStopButton |
| MotorControl.MainWindow.OnOutputMode | motor_control.py:809-815 | the window follows MotorModel.OutputSelect |
| MotorControl.MainWindow.OnAdvancedSetting | motor_control.py:771-806 | the window follows MotorModel.DoAdvancedSettings |
| MotorControl.MainWindow.OnAccelTimeout | motor_control.py:1352-1369 | the window follows MotorModel.AcceleratedMovement |
| MotorControl.MainWindow.OnCountTimeout | motor_control.py:1137-1169 | the window follows MotorModel.MotorCount |
| MotorControl.MainWindow.OnAdTimeout | motor_control.py:1081-1103 | the window follows MotorModel.UpdateAdTimer |
| MotorControl.MainWindow.Deliver | motor_control.py:315-403 | every timer tick and control input moves the window as MotorModel.Step does, so the safety invariant carries over |
| MotorControl.MainWindow.SaveSettings | motor_control.py:1382-1422 | the slot loop writes exactly SaveBytes, and reports success exactly when every integer fits |
| MotorControl.MainWindow.LoadSettings | motor_control.py:1426-1470 | the sequential reads give LoadFrom's settings, and on failure the settings are saved back |
| Melody.Split | buzzer.py:113 | `split(' ')` gives at least one piece |
| Melody.JoinOfSplit | buzzer.py:113 | joining the pieces with the separator gives the string back |
| Melody.SplitPiecesHaveNoSeparator | buzzer.py:113 | no piece contains the separator |
| Melody.SplitOfJoin | buzzer.py:113 | splitting a join of separator-free pieces gives the pieces back |
| Melody.PyAt | buzzer.py:116-125 | Python indexing: defined exactly for -len <= i < len, negative from the end |
| Melody.PyPrefix | buzzer.py:122 | Python slice `[0:stop]`, with a negative stop counted from the end and clamped |
| Melody.DigitValue | buzzer.py:118-125 | `int` of one character succeeds exactly for a digit, giving its value |
| Melody.IntAt | buzzer.py:123 | an octave digit read is 0..9 |
| Melody.FloatAt | buzzer.py:118-125 | `float` of one character succeeds and fails exactly as `int` does, with the same value |
| Melody.NoteOffset | buzzer.py:55-84 | the semitone offset from A is between -9 and 2 |
| Melody.NoteToFreq | buzzer.py:55-86 | a note in octave o is a pitch between 12(o-4)-9 and 12(o-4)+2 semitones from A4 |
| Melody.NoteNamesAreChromatic | buzzer.py:58-81 | the twelve names C … B are consecutive semitones, C at -9 and A at 0 |
| Melody.ConcertPitch | buzzer.py:55-86 | A4 is 440 Hz (offset 0), and an unknown name sounds as A |
| Melody.OctaveUp | buzzer.py:85 | one octave up is twelve semitones up |
| Melody.OctaveHz | buzzer.py:85 | 440·2^k is positive |
| Melody.WholeOctaveHz | buzzer.py:85 | the frequency of a pitch a whole number of octaves from A4 is positive |
| Melody.AOctaves | buzzer.py:85 | NoteToFreq of A3, A4, A5 sounds at 220, 440, 880 Hz |
| Melody.AOctaveDoubles | buzzer.py:85 | each octave up doubles the frequency of A |
| Melody.NoteLength | buzzer.py:118-125 | a note length num/den read from the last two digits is non-negative |
| Melody.NoteTokenExample | buzzer.py:115-126 | "A414" is A4 for a quarter beat; "Bb424" shifted up an octave is 13 semitones for half a beat |
| Melody.RestToken | buzzer.py:116-119 | a rest token "p…nd" is silence for n/d beats |
| Melody.NoteToken | buzzer.py:121-126 | a note token "NAME o n d" is NAME in octave o+shift for n/d beats |
| Melody.ParseToken | buzzer.py:116-126 | one token of setMelody2 in Python's evaluation order; its contract is stated by ParseTokenShape, RestToken, NoteToken and BadTokens |
| Melody.ParseTokenShape | buzzer.py:116-126 | a token shorter than two characters raises IndexError or ValueError; a parsed token is silence exactly when it starts with 'p'; its duration is non-negative for a non-negative beat |
| Melody.Parse | buzzer.py:115-132 | the loop of setMelody2 over a token list; its contract is stated by ParseShape and ParseStops |
| Melody.BadTokens | buzzer.py:115-126 | an empty token and a one-letter note raise IndexError, a non-digit raises ValueError, a zero denominator raises ZeroDivisionError |
| Melody.ParseShape | buzzer.py:104-132 | the lists grow in pairs: each parsed token contributes its entry then (0, gap); a completed parse has 2·tokens entries; an error comes from the next token and leaves the lists as built so far |
| Melody.ParseStops | buzzer.py:115-132 | once a token has raised, later tokens add nothing |
| Melody.ParseAfterError | buzzer.py:115-132 | one token more after a raised error leaves the parse unchanged |
| Melody.PairsExtend | buzzer.py:128-131 | appending a parsed note and its gap keeps every note paired with its duration and followed by a silence of the gap length |
| Melody.SetMelody2 | buzzer.py:111 | bpm 0 raises ZeroDivisionError before any token with the lists empty |
| Melody.MelodyShape | buzzer.py:104-132 | setMelody2 completes exactly when bpm is non-zero and every token parses, giving note/gap pairs with durations of 60/bpm beats |
| Melody.Sound | buzzer.py:88-97 | a passive buzzer plays a tone, an active one a beep, for the given time |
| Melody.PlayEntry | buzzer.py:136-139 | a zero frequency is a wait, any other a sound, for the entry's time |
| Melody.PlayTrace | buzzer.py:134-139 | playing emits at most one event per entry, exactly one per entry when it completes |
| Melody.PlayTraceInOrder | buzzer.py:134-139 | playing completes exactly when tList is at least as long as fList; the trace is entry i played in order, up to the shorter list |
| Melody.PlayTraceStops | buzzer.py:134-139 | once tList runs out (IndexError), later entries add nothing |
| Melody.SweepTrace | buzzer.py:158-161 | the sweep emits max(0, N-startN) sounds, each lasting dt |
| Melody.SweepInOrder | buzzer.py:158-161 | sweep plays max(0, N-startN) sounds, the k-th at (startN+k)·df for dt |
| Melody.SweepRises | buzzer.py:158-161 | with df > 0 the passive sweep's frequencies strictly rise |
| Buzzer.ApproachBuzzer.constructor | buzzer.py:25-52 | "passive" gives type 0 with frequency 100 and duty 50, anything else type 1; lists empty |
| Buzzer.ApproachBuzzer.PlaySound | buzzer.py:88-97 | one sound of the buzzer's type is appended to the trace |
| Buzzer.ApproachBuzzer.SetMelody | buzzer.py:100-102 | the lists are replaced |
| Buzzer.ApproachBuzzer.SetMelody2 | buzzer.py:104-132 | the token loop builds exactly the lists of Melody.SetMelody2, stopping at the first error |
| Buzzer.ApproachBuzzer.PlayMelody | buzzer.py:134-139 | the loop emits exactly Melody.PlayTrace, failing when tList is shorter |
| Buzzer.ApproachBuzzer.PlayStandardSound | buzzer.py:141-156 | a passive buzzer with melody 1-4 sets that melody (with no error) and plays it; other numbers replay the current lists; an active buzzer beeps for 2 s |
| Buzzer.ApproachBuzzer.Sweep | buzzer.py:158-161 | the loop emits exactly Melody.SweepTrace |
| Buzzer.WellFormedNoteParses | buzzer.py:116-126 | a token not starting with 'p' parses whatever its name (an unknown one sounds as A), given an octave digit, a numerator digit and a non-zero denominator digit |
| Buzzer.StandardTokensWellFormed | buzzer.py:144-151 | every token of the four built-in melodies is well formed |
| Buzzer.SplitStandard | buzzer.py:144-151 | each built-in melody splits into its tokens |
| Buzzer.StandardMelodiesParse | buzzer.py:141-151 | the four built-in melodies parse without error into 2·tokens entries |
| Buzzer.StandardMelodyThree | buzzer.py:148-149 | melody 3 is A4 for a quarter second (half a beat at 120 bpm), then a 0.05 s gap |

## Left out

- The Qt user interface: widgets, labels, plots and displayed text (`setText`, `setHBarPlot`, the meter bars) are not modelled. So are the tabs outside the motion core: force curves and zero/OLS estimates.
- Hardware I/O. `HardwarePWM` is a `Pwm` value. The DA HAT's direction bits are a map. The AD HAT reads (`a_in_read`) are the `read` parameter of `UpdateAdTimer`. `hat_interface` is not part of this model.
- Timers are `Timer` values. A timer period elapsing is an input of `MotorModel.Step`, not wall-clock time.
- `struct.pack('d')`/`struct.unpack('d')` are parameters (`pack`, `unpack`). IEEE-754 encoding is not modelled.
- Float rounding is not modelled. `int(1e-3*T*f/1e1)` is taken as the exact truncated quotient trunc(T·f/10000). The 0.05 and 0.2 steps of the float settings are exact reals.
- DoAdvancedSettings: when the approach or retract channel changes, the source replaces `pwm_ccw` and `pwm_cw` with new PWM objects, even while the motor runs. The model keeps `cw`/`ccw` as they were and does not tie them to channel numbers. So a hardware channel abandoned mid-motion, which nothing stops afterwards, is outside the model, and `MotorModel.RunPreservesSafe` speaks only of the two channels the window currently holds.
- SaveSettings: the handlers that save (`UpDownButton`, `SlowLimitCheck`, `FastLimitCheck`, `OutputSelect`, `DoAdvancedSettings`) ignore the success flag of `MotorControl.MainWindow.SaveSettings`. In the source, an `OverflowError` from `to_bytes` (a setting that is negative or at least 2^64) propagates out of the Qt slot. The model keeps the partial file and continues.
- The file system: the settings file is an `Option<seq<Byte>>` field. `None` means the file is absent; an I/O error other than absence is not modelled.
- The buzzer's GPIO setup, the retry loop around `GPIO.PWM`, and `pwm.start(0)` are not modelled. Sounds and sleeps are `Tone`/`Beep`/`Wait` events of a trace.
- Buzzer.ApproachBuzzer.constructor: in the source an active buzzer has no `fList`/`tList` attributes until a melody is set. The model starts them empty, so `PlayMelody` on a fresh active buzzer plays nothing instead of raising `AttributeError`.
- Melody.NoteToFreq returns the pitch as semitones from A4, not the float 440·2^(n/12). Float underflow of very low pitches is not modelled. `OctaveHz` and `WholeOctaveHz` give whole octaves exactly.
- Melody.DigitValue accepts only the ASCII digits 0-9. Python's `int()`/`float()` also accept other Unicode decimal digits.
- RPi.GPIO's `ChangeFrequency` refuses a frequency of 0 or below in `playSound`: a passive sweep starting at 0, or one with `df < 0`. This error is not modelled, and such a sweep emits `Tone` events at those frequencies.
- `sleep` of a negative time raises `ValueError` (buzzer.py:92, 96 and 139). That happens with a negative `gap` or `bpm` in `setMelody2` (a negative bpm makes every duration negative) or a negative `time` passed to `playSound`. On the passive buzzer the raise comes after `ChangeDutyCycle`, so the tone stays on. This error is not modelled: `Melody.Sound` and `Melody.PlayEntry` emit a `Tone`, `Beep` or `Wait` with the negative time.
- Hardware PWM limits: `MotorModel.PwmStart` accepts any frequency, including 0 (a speed setting lowered to 0, `MotorModel.ZeroSpeedStart`) and the 0 Hz of a first ramp tick with acceleration 0. `HardwarePWM` refuses frequencies below 0.1 Hz; that refusal is not modelled.
- `print` calls are not modelled.
