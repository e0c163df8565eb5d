# Instrument drivers: the validated-setter layer

This project models seven laboratory instrument drivers from the `fastruments`
package in Dafny:

- a QLASS 16-channel current driver;
- a Tektronix AFG3011C function generator;
- a Tektronix TBS2204B oscilloscope;
- an Lfiber 1xN optical switch;
- a Qontrol Q8iv current/voltage source;
- a Xenics Bobcat 640 infrared camera;
- a Santec OPM150 optical power meter.

Most of each driver is transport (VISA sessions, serial lines, ctypes calls into a
vendor DLL). The model does not include transport. It keeps what each driver decides
on its own:

- the checks a setter makes before it talks to the instrument;
- the unit conversions;
- the command it builds;
- the state flags it keeps.

Each driver is a class with an abstract state and a log of the commands or library
calls it has made. The pure parts of a setter (check, then build the command) are a
function returning `Result`. The method wrapping it either refuses and leaves the log
unchanged, or appends the command and updates the state.

Anything the instrument or library returns is a parameter of the method that asks for
it. This covers query replies, DLL return codes, handles, and register contents read at
start-up.

Files:

| file | module | models |
|---|---|---|
| `outcomes.dfy` | `Outcomes` | `Option`, `Result` and `Outcome` (pass or fail with an error) |
| `text.dfy` | `Text` | the Python string operations the drivers use: `upper`/`lower`, `strip`, `lstrip(c)`, `split`, `replace`, `in`, `f"{n:02d}"`, `int()` |
| `scpi.dfy` | `Scpi` | a SCPI command as a header and one argument |
| `qlass.dfy` | `Qlass` | `fastruments/QLASSdriver.py` |
| `afg.dfy` | `Afg` | `fastruments/TektronixAFG3011C.py` |
| `tbs.dfy` | `Tbs` | `fastruments/TektronixTBS2204B.py` |
| `osw.dfy` | `Osw` | `src/lf_osw/core.py` |
| `qontrol.dfy` | `Qontrol` | `fastruments/Qontrol.py` |
| `xenics.dfy` | `Xenics` | `fastruments/XenicsBobcat640.py` |
| `opm.dfy` | `Opm` | `fastruments/SantecOPM150.py` |

## Model

| member | source | states |
|---|---|---|
| Qlass.Range | fastruments/QLASSdriver.py:280-292 | the reply to `$F?` is read with `int()`. FSR codes 0, 1 and 2 give the compliances of the `ranges` table. Any other integer is a RuntimeError, and text that is not an integer is a ValueError |
| Qlass.RangeOfCode | fastruments/QLASSdriver.py:76-78 | codes 0, 1 and 2 give 2.77, 25 and 47.72 mA; every larger code is refused with RuntimeError |
| Qlass.Compliance | fastruments/QLASSdriver.py:76-78 | the three compliances of the `ranges` table are positive and at most 47.72 mA |
| Qlass.DacLevel | fastruments/QLASSdriver.py:156 | for 0 <= val < max the truncated level lies in 0..65534, and `level*max/65535 <= val < (level+1)*max/65535` |
| Qlass.DacBounds | fastruments/QLASSdriver.py:156 | the floor of `val/max*65535` satisfies that bracket and range (the proof behind `DacLevel`) |
| Qlass.DacExample | fastruments/QLASSdriver.py:156 | 23.86 mA of 47.72 mA gives level 32767 |
| Qlass.DacOfLevelCurrent | fastruments/QLASSdriver.py:156 | converting a level below 65535 to mA and back gives the same level |
| Qlass.DacCommand | fastruments/QLASSdriver.py:159 | `$D`, then two comma-separated fields, both made of digits (`{ch:02d}` and the level) |
| Qlass.ParseDacCommand | fastruments/QLASSdriver.py:159 | the board's reading of a `$D` command, the reference for the round trip: a result needs the `$D` prefix and exactly two comma-separated fields |
| Qlass.ParseDacCommandRoundTrip | fastruments/QLASSdriver.py:159 | the board reads back exactly the channel and level in `$Dcc,level` |
| Qlass.DacCommandInjective | fastruments/QLASSdriver.py:159 | different (channel, level) pairs give different commands |
| Qlass.CurrentCommand | fastruments/QLASSdriver.py:146-159 | the range is read first and its error passes through. Then the command is accepted iff 0 <= ch < 16 and 0 <= val < compliance; a refusal is a ValueError. An accepted command parses back to (ch, DacLevel(val, compliance)) |
| Qlass.ComplianceItselfRejected | fastruments/QLASSdriver.py:152-153 | a value equal to the compliance is refused |
| Qlass.LevelCommand | fastruments/QLASSdriver.py:196-209 | the range is still read and its error passes through. Then the command is accepted iff 0 <= ch < 16 and 0 <= level <= 65535. The level is sent unchanged |
| Qlass.CurrentIsLevel | fastruments/QLASSdriver.py:156-159 | an accepted `set_current` sends the same command as `set_current_level` with the truncated level, and that level is below 65535 |
| Qlass.AfterDelivery | fastruments/QLASSdriver.py:161-167 | `$U` follows iff autoupdate is on and the reply is not `Ready` |
| Qlass.SetterAsWritten | fastruments/QLASSdriver.py:147 | as written, both setters fail with TypeError once the range has been read |
| Qlass.SetterAsWrittenRejectsValid | fastruments/QLASSdriver.py:147 | channel 3 with 10 mA, or level 100, at FSR code 2 passes the checks but is refused as written |
| Qlass.CurrentDriver.Update | fastruments/QLASSdriver.py:221-241 | sends `$U` and returns the board's reply unchanged |
| Qlass.CurrentDriver.SetCurrent | fastruments/QLASSdriver.py:121-169 | a refusal leaves the log unchanged. Otherwise the `$D` command is logged, followed by `$U` under the autoupdate rule, and the board's reply is returned |
| Qlass.CurrentDriver.SetCurrentLevel | fastruments/QLASSdriver.py:171-219 | the same for `set_current_level` |
| Afg.FreqRange | fastruments/TektronixAFG3011C.py:64-71 | a range exists exactly for the six functions. For every function except DC the range is a positive interval whose upper end is at most 10 MHz |
| Afg.VoltageLimit | fastruments/TektronixAFG3011C.py:73 | 10 V at "50" and 20 V at "INF"; no entry for any other mode |
| Afg.AmplitudeMin | fastruments/TektronixAFG3011C.py:75 | 20 mVpp at "50" and 40 mVpp at "INF"; no entry otherwise |
| Afg.VoltageLimitAbs | fastruments/TektronixAFG3011C.py:288 | for a non-negative amplitude, the two-sided check at line 310 is equivalent to the documented `abs(offset) + ampl/2 <= Vlimit` |
| Afg.VoltageLimitSymmetric | fastruments/TektronixAFG3011C.py:310 | the check is unchanged when the offset's sign is flipped |
| Afg.VoltageLimitMonotone | fastruments/TektronixAFG3011C.py:310 | a smaller amplitude, or a larger limit, still passes |
| Afg.NormaliseImpedance | fastruments/TektronixAFG3011C.py:422-427 | the stripped reply, except that `99.0e36` becomes `INF` and `50e0` becomes `50` |
| Afg.NormaliseIdempotent | fastruments/TektronixAFG3011C.py:422-427 | normalising twice is the same as normalising once |
| Afg.NormaliseKnownReplies | fastruments/TektronixAFG3011C.py:423-426 | the two numeric replies read as the mode names |
| Afg.NormaliseName | fastruments/TektronixAFG3011C.py:422-427 | any other trimmed reply passes through unchanged |
| Afg.FunctionCommand | fastruments/TektronixAFG3011C.py:202-208 | accepted iff the upper-cased name is one of SIN, SQU, RAMP, PULS, PRN, DC; it is then written upper-cased |
| Afg.FunctionCaseInsensitive | fastruments/TektronixAFG3011C.py:202 | lower-casing the argument changes nothing |
| Afg.FrequencyCommand | fastruments/TektronixAFG3011C.py:242-253 | DC always refuses, and an unknown function is a KeyError. Otherwise the command is accepted iff fmin <= freq <= fmax for the function read back |
| Afg.FrequencyGlobalBounds | fastruments/TektronixAFG3011C.py:64-71 | every accepted frequency lies in 1 µHz .. 10 MHz |
| Afg.AmplitudeCommand | fastruments/TektronixAFG3011C.py:300-315 | a mode without a table entry is a KeyError. Otherwise the amplitude is accepted iff it is at least the mode's minimum and passes the joint check with the current offset |
| Afg.OffsetCommand | fastruments/TektronixAFG3011C.py:359-368 | a mode without a table entry is a KeyError. Otherwise the offset is accepted iff it passes the joint check with the current amplitude |
| Afg.AmplitudeOffsetAgree | fastruments/TektronixAFG3011C.py:310 | when setting an amplitude with some offset is accepted, setting that offset with that amplitude is accepted too, and the other way round (line 363) |
| Afg.ModeOfReply | fastruments/TektronixAFG3011C.py:300 | each of the instrument's four spellings reads as the mode "50" or "INF" |
| Afg.OffsetExample | fastruments/TektronixAFG3011C.py:359-366 | at "50" with 2 Vpp, an offset of 9.5 V is refused and 9.0 V is accepted |
| Afg.AmplitudeMinimumExample | fastruments/TektronixAFG3011C.py:301-304 | at "50", 20 mVpp is accepted and 19 mVpp is refused |
| Afg.AmplitudeMinimumHighZ | fastruments/TektronixAFG3011C.py:301-304 | at high-Z, 30 mVpp is refused whether the reply is `INF` or `99.0e36` |
| Afg.ImpedanceCommand | fastruments/TektronixAFG3011C.py:403-409 | accepted iff the upper-cased mode is "50" or "INF"; it is then written upper-cased |
| Afg.ImpedanceModeReadBack | fastruments/TektronixAFG3011C.py:409 | a mode the setter writes, read back, has a table entry for amplitude and offset |
| Afg.ImpedanceMode | fastruments/TektronixAFG3011C.py:300 | the read-back mode is the normalised reply upper-cased: the same length, and no lower-case letter left (also at line 359) |
| Afg.FunctionGenerator.SetFunction | fastruments/TektronixAFG3011C.py:188-210 | a refusal writes nothing; an acceptance appends one command |
| Afg.FunctionGenerator.SetFrequency | fastruments/TektronixAFG3011C.py:226-255 | the same pattern over `FrequencyCommand` |
| Afg.FunctionGenerator.SetAmplitude | fastruments/TektronixAFG3011C.py:271-317 | the same pattern over `AmplitudeCommand` |
| Afg.FunctionGenerator.SetOffset | fastruments/TektronixAFG3011C.py:333-370 | the same pattern over `OffsetCommand` |
| Afg.FunctionGenerator.SetOutputImpedance | fastruments/TektronixAFG3011C.py:389-411 | the same pattern over `ImpedanceCommand` |
| Tbs.CheckChannel | fastruments/TektronixTBS2204B.py:272-274 | passes iff 1 <= channel <= 4; otherwise ValueError |
| Tbs.ChannelOutOfRange | fastruments/TektronixTBS2204B.py:70 | every channel setter and getter refuses a channel outside 1..4 |
| Tbs.DisplayCommand | fastruments/TektronixTBS2204B.py:272-276 | `:SEL:CHn ON/OFF` for a valid channel |
| Tbs.ScaleCommand | fastruments/TektronixTBS2204B.py:315-325 | accepted iff the channel is valid and scale × gain is one of the eleven gain-1 scales; a refusal is a ValueError |
| Tbs.ScaleCommandAsWritten | fastruments/TektronixTBS2204B.py:320-323 | as written, a refused scale is a TypeError, not a ValueError; acceptance is the same |
| Tbs.ScaleRefusalKind | fastruments/TektronixTBS2204B.py:323 | 3 V/div at gain 1 shows the difference |
| Tbs.ScalesDividedByGain | fastruments/TektronixTBS2204B.py:140-154 | for a non-zero gain, the legal scales are exactly the gain-1 scales divided by the gain |
| Tbs.CouplingCommand | fastruments/TektronixTBS2204B.py:347-357 | accepted iff the channel is valid and the upper-cased mode is AC, DC or GND |
| Tbs.PositionCommand | fastruments/TektronixTBS2204B.py:380-390 | accepted iff the channel is valid and -5 <= position <= 5 |
| Tbs.GainCommand | fastruments/TektronixTBS2204B.py:416-427 | accepted iff the channel is valid and the gain is in the gain table |
| Tbs.EveryGainHasAScale | fastruments/TektronixTBS2204B.py:116-154 | every accepted gain leaves at least one legal scale |
| Tbs.BandwidthCommand | fastruments/TektronixTBS2204B.py:449-459 | accepted iff the channel is valid and the bandwidth is 20 MHz or 200 MHz |
| Tbs.ChannelReading | fastruments/TektronixTBS2204B.py:482-489 | the numeric getters refuse an invalid channel and otherwise return the reading |
| Tbs.ChannelDisplay | fastruments/TektronixTBS2204B.py:510-519 | for a valid channel, the display is on iff the stripped reply is "1" |
| Tbs.ChannelCoupling | fastruments/TektronixTBS2204B.py:566-571 | for a valid channel, the stripped reply |
| Tbs.TimebaseScaleCommand | fastruments/TektronixTBS2204B.py:656-661 | accepted iff the scale is in the timebase table |
| Tbs.TimebaseScaleBounds | fastruments/TektronixTBS2204B.py:72-106 | every legal timebase is between 2 ns/div and 100 s/div |
| Tbs.TimebasePositionCommands | fastruments/TektronixTBS2204B.py:679-686 | accepted iff 0 <= p <= 100; the delay mode is switched off first, then the position is written |
| Tbs.TriggerModeCommand | fastruments/TektronixTBS2204B.py:737-743 | accepted iff the upper-cased mode is AUTO or NORM |
| Tbs.TriggerSlopeCommand | fastruments/TektronixTBS2204B.py:833-839 | accepted iff the upper-cased slope is RISE or FALL |
| Tbs.TriggerNamesCaseInsensitive | fastruments/TektronixTBS2204B.py:737 | mode, slope and coupling ignore the argument's case |
| Tbs.TriggerSourceCommand | fastruments/TektronixTBS2204B.py:761-765 | `CHn` for a valid channel |
| Tbs.SourceWord | fastruments/TektronixTBS2204B.py:765 | `CH` followed by at least one digit and nothing else |
| Tbs.TriggerSource | fastruments/TektronixTBS2204B.py:866-873 | a stripped reply not starting with `CH` gives None. Otherwise the reply with every `CH` removed is read with `int()`: the channel returned is the number read, and the result is a ValueError exactly when that read fails |
| Tbs.TriggerSourceRoundTrip | fastruments/TektronixTBS2204B.py:765 | reading back the word the setter wrote gives the channel again |
| Tbs.TriggerSourceOfReply | fastruments/TektronixTBS2204B.py:866-869 | the word the setter wrote, with any whitespace before and after it (such as a trailing newline), reads back as the channel |
| Tbs.TriggerLevelCommand | fastruments/TektronixTBS2204B.py:804-814 | no trigger source is a TypeError, and a source outside 1..4 is a ValueError. Otherwise the level is accepted iff `-(4.96+pos)*scale <= level <= (4.96-pos)*scale` |
| Tbs.TriggerRangeWidth | fastruments/TektronixTBS2204B.py:807-808 | the legal interval is 9.92 × scale wide |
| Tbs.TriggerLevelInDivisions | fastruments/TektronixTBS2204B.py:807-809 | for a positive scale, a level is legal iff level/scale + pos lies within ±4.96 divisions |
| Tbs.RecordLengthCommand | fastruments/TektronixTBS2204B.py:1032-1037 | accepted iff the length is in the six-element table |
| Tbs.RecordLengthBounds | fastruments/TektronixTBS2204B.py:114 | every legal length is a whole number from 1000 to 5000000 |
| Tbs.WaveformCommands | fastruments/TektronixTBS2204B.py:929-943 | as intended: refused with ValueError for an invalid channel or one that is not displayed. Otherwise exactly four commands: `:DAT:ENC ASCI`, `:DAT:SOU CHn`, `:DAT:STAR 1`, then `:DAT:STOP` with an integer that is the largest record length |
| Tbs.WaveformSetup | fastruments/TektronixTBS2204B.py:929-943 | accepted iff the channel is valid and its display reads on, else ValueError; the four commands in order, with the given stop argument |
| Tbs.WaveformCommandsAsWritten | fastruments/TektronixTBS2204B.py:941-943 | as written: accepted exactly when the intended setup is, with the same first three commands, but `:DAT:STOP` carries the text of the record-length set |
| Tbs.WaveformStopAsWritten | fastruments/TektronixTBS2204B.py:941-942 | wherever the setup is accepted, the stop argument sent is not a number, so the commands differ from the intended ones |
| Tbs.VoltInverse | fastruments/TektronixTBS2204B.py:951 | with a non-zero multiplier, the raw sample can be recovered from the voltage |
| Tbs.VoltMonotone | fastruments/TektronixTBS2204B.py:951 | with a positive multiplier, the conversion keeps the order of samples |
| Tbs.TimeIncreasing | fastruments/TektronixTBS2204B.py:954-955 | with a positive increment, times strictly increase by one increment per sample |
| Tbs.ConvertWaveform | fastruments/TektronixTBS2204B.py:951-955 | `y[i] = (raw[i]-yoff)*ymult + yzero` and `x[i] = i*xincr + xzero`, with all three lengths equal |
| Tbs.Oscilloscope.SetChannelScale | fastruments/TektronixTBS2204B.py:280-327 | a refusal writes nothing; an acceptance appends one command. The other `Tbs.Oscilloscope.Set*` methods follow the same pattern over their command functions |
| Tbs.Oscilloscope.SetTimebasePosition | fastruments/TektronixTBS2204B.py:665-688 | appends both commands in order, or nothing |
| Tbs.Oscilloscope.GetWaveform | fastruments/TektronixTBS2204B.py:906-958 | a refusal is a ValueError and writes nothing. Otherwise the four intended setup commands are logged, and the time and voltage axes are returned, one point per raw sample, with `x[i] = Time(i)` and `y[i] = Volt(raw[i])` |
| Osw.Frame | src/lf_osw/core.py:78-79 | the body sits between `<` and `>` |
| Osw.Unframe | src/lf_osw/core.py:147-149 | the reply without its leading `<` characters is stripped, so the body never starts or ends with whitespace |
| Osw.UnframeFrame | src/lf_osw/core.py:147-149 | a framed trimmed body, read up to its terminating `>`, unframes to the body |
| Osw.IdnOf | src/lf_osw/core.py:203-210 | RuntimeError iff the reply does not start with `OSW_TYPE_`; otherwise the reply with that text removed |
| Osw.IdnRoundTrip | src/lf_osw/core.py:203-210 | a model name after the type prefix comes back unchanged |
| Osw.ParseModelInfo | src/lf_osw/core.py:172-184 | accepted iff the split on `-` has more than four parts and part 2, without its first two characters, is an integer. The result holds the whole string as model, that integer as channels, and parts 3 and 4 as wavelength and fiber type |
| Osw.ChannelsNonNegative | src/lf_osw/core.py:178 | the parsed channel count is never negative, because no part contains `-` |
| Osw.ParseModelInfoOfParts | src/lf_osw/core.py:172-184 | joining fields on `-` and parsing gives the fields back |
| Osw.ParseModelInfoExample | src/lf_osw/core.py:60-61 | `LF-OSW-1X16-1550-PMF-09-10-R-FA` gives 16 channels, "1550" and "PMF" |
| Osw.SwitchCommandInjective | src/lf_osw/core.py:280 | different channels give different `OSW_OUT_nn` commands |
| Osw.SwitchCommand | src/lf_osw/core.py:280 | `OSW_OUT_` followed by at least two digits and nothing else |
| Osw.Classify | src/lf_osw/core.py:282-288 | `OSW_OUT_OK` passes, `OSW_OUT_OVERFLOW` is a ValueError, and anything else is a RuntimeError |
| Osw.ResetOutcome | src/lf_osw/core.py:226-232 | passes iff the reply is `OSW_OUT_OK`, otherwise RuntimeError |
| Osw.ResetAgreesWithClassify | src/lf_osw/core.py:226-232 | reset and switching agree on success, and disagree only on the kind of error for an overflow |
| Osw.SetChannelFrame | src/lf_osw/core.py:275-280 | without model info it is a KeyError. Otherwise it is accepted iff 1 <= ch <= channels, and the frame is `<OSW_OUT_nn>` |
| Osw.SetChannelNeverResets | src/lf_osw/core.py:275-279 | channel 0 and channels+1 are refused, and an accepted frame is never the reset frame |
| Osw.ChannelOf | src/lf_osw/core.py:304-312 | a reply without `OSW_OUT_` is a RuntimeError. Otherwise the reply with the prefix removed is read with `int()` |
| Osw.ChannelOfSwitchCommand | src/lf_osw/core.py:304-312 | `OSW_OUT_` + pad2(c) reads back as c |
| Osw.GetChannelRoundTrip | src/lf_osw/core.py:147-149 | the same through the framing |
| Osw.Switch.Idn | src/lf_osw/core.py:189-210 | writes `<OSW_TYPE_?>` and returns `IdnOf` of the reply |
| Osw.Switch.UpdateInfo | src/lf_osw/core.py:151-187 | on success the parsed info replaces `model_info`; on failure it is unchanged |
| Osw.Switch.Connect | src/lf_osw/core.py:109-114 | a failure of either `idn` or the parse becomes a RuntimeError, and `model_info` is then unchanged |
| Osw.Switch.Reset | src/lf_osw/core.py:212-232 | writes `<OSW_OUT_00>` and judges the reply with `ResetOutcome` |
| Osw.Switch.SetChannel | src/lf_osw/core.py:257-288 | a refusal writes nothing. Otherwise it writes the switching frame and judges the reply with `Classify` |
| Osw.Switch.GetChannel | src/lf_osw/core.py:290-312 | writes `<OSW_OUT_?>` and returns `ChannelOf` of the unframed reply |
| Qontrol.InitMode | fastruments/Qontrol.py:121-126 | current mode iff the lower-cased argument is "i", voltage mode iff it is "v", otherwise ValueError |
| Qontrol.InitModeSpellings | fastruments/Qontrol.py:121-122 | exactly "i", "I", "v" and "V" are accepted |
| Qontrol.Clamp | fastruments/Qontrol.py:251-257 | a value outside [0, limit] becomes 0; others are kept. The result lies in [0, limit] |
| Qontrol.Written | fastruments/Qontrol.py:250-258 | the registers after writing each value to its channel in order keep their length; the four lemmas below state their contents |
| Qontrol.WrittenUnlisted | fastruments/Qontrol.py:250-258 | a channel not listed keeps its value |
| Qontrol.WrittenLastWins | fastruments/Qontrol.py:250-258 | a channel listed more than once holds its last value |
| Qontrol.WrittenListed | fastruments/Qontrol.py:250-258 | every listed channel holds one of the values written to it |
| Qontrol.WrittenClamped | fastruments/Qontrol.py:250-258 | after a clamped write, every listed channel lies in [0, limit] |
| Qontrol.Power | fastruments/Qontrol.py:210-214 | element-wise products over the shorter of the two readings |
| Qontrol.ResistanceOf | fastruments/Qontrol.py:222-226 | None iff the current is zero; otherwise R·I = 1000·V (ohms from volts and mA) |
| Qontrol.Resistance | fastruments/Qontrol.py:217-227 | one entry per pair of readings, each equal to `ResistanceOf` |
| Qontrol.Q8iv.constructor | fastruments/Qontrol.py:113-137 | the channel count is the register length, and the mode and limits are as given |
| Qontrol.Q8iv.ValidateChansVals | fastruments/Qontrol.py:162-183 | passes iff the lengths match and every channel is in 0..n-1; otherwise ValueError |
| Qontrol.Q8iv.WriteClamped | fastruments/Qontrol.py:250-258 | the array after the loop equals `Written` of its old contents with the clamped values |
| Qontrol.Q8iv.SetCurrent | fastruments/Qontrol.py:232-261 | refused in voltage mode or on invalid input, with nothing changed. Otherwise the current registers become `Written(old, chans, ClampAll(vals, imax))` |
| Qontrol.Q8iv.SetVoltage | fastruments/Qontrol.py:272-301 | the same against `vmax` in voltage mode |
| Qontrol.Q8iv.SetCompliance | fastruments/Qontrol.py:315-343 | accepted iff 0 < i <= 24 and 0 < v <= 12, and then both limits are replaced; otherwise neither is |
| Qontrol.Q8iv.SetAllZero | fastruments/Qontrol.py:345-362 | a closed driver with channels fails with AttributeError and changes nothing. Otherwise every register of the active mode becomes 0, and the other mode's registers are kept |
| Qontrol.Q8iv.Close | fastruments/Qontrol.py:365-388 | an open driver zeroes the registers of its active mode, keeps the other mode's registers and ends closed, even if the low-level close fails, which is then a RuntimeError. A closed driver passes and changes nothing |
| Qontrol.CloseTwice | fastruments/Qontrol.py:373-386 | the second close passes and leaves the driver closed with the registers the first close left: the active mode zeroed and the other kept if it was open, everything unchanged if it was closed |
| Qontrol.SetCurrentEffect | fastruments/Qontrol.py:249-258 | after an accepted `set_current`, listed channels lie in [0, imax] and unlisted ones are unchanged; a refused call changes no register |
| Xenics.CheckError | fastruments/XenicsBobcat640.py:130-133 | fails iff the code is non-zero, carrying the code |
| Xenics.PixelSize | fastruments/XenicsBobcat640.py:340-360 | defined exactly for frame types -1..7, with values in {0, 1, 2, 4}; any other type is a XenicsError |
| Xenics.PixelSizeTable | fastruments/XenicsBobcat640.py:340-360 | -1 and 0 give 0, 1 gives 1, 2 gives 2, and 3..7 give 4 |
| Xenics.Conversion | fastruments/XenicsBobcat640.py:501-505 | Python tuple indexing: -5..4 index the tuple, and the type found is as wide as the index |
| Xenics.PixelDtypeAsWritten | fastruments/XenicsBobcat640.py:506 | as written, a size in -5..4 is accepted and a size with no type returns `None` instead of failing; a type found is as wide as the size modulo 5. Only an index outside the tuple fails |
| Xenics.PixelDtype | fastruments/XenicsBobcat640.py:499-508 | as intended, the sizes 1, 2 and 4 have a type of that width, and every other size fails |
| Xenics.NativeFrameDtype | fastruments/XenicsBobcat640.py:506 | the native frame type 0 shows the difference |
| Xenics.DtypeOfFrameType | fastruments/XenicsBobcat640.py:340-360 | a frame type has a data type iff its type is in 1..7 |
| Xenics.LoadTarget | fastruments/XenicsBobcat640.py:438-442 | the argument, else the stored file; no file at all means no call |
| Xenics.Camera.RequireOpen | fastruments/XenicsBobcat640.py:362-365 | passes iff open and a handle is held |
| Xenics.Camera.RequireCapturing | fastruments/XenicsBobcat640.py:367-370 | passes iff capturing and a handle is held |
| Xenics.Camera.constructor | fastruments/XenicsBobcat640.py:169-188 | a closed camera with no handle, not capturing, holding the url and the two file names given, with an empty call log |
| Xenics.Camera.Open | fastruments/XenicsBobcat640.py:382-397 | does nothing when already open. Handle 0 is a failure and an uninitialised camera a XenicsError(-1). On success the handle is held and the camera is open. `Consistent` is kept; the calls made are logged |
| Xenics.Camera.StartCapture | fastruments/XenicsBobcat640.py:418-426 | refused with RuntimeError unless open; does nothing when already capturing. Otherwise the call's code is checked and the flag is set only after a zero code. `Consistent` is kept |
| Xenics.Camera.StopCapture | fastruments/XenicsBobcat640.py:428-436 | refused with RuntimeError unless open; does nothing when not capturing. Otherwise the flag is cleared only after a zero code. `Consistent` is kept |
| Xenics.Camera.Close | fastruments/XenicsBobcat640.py:399-416 | does nothing when closed. Otherwise it stops a running capture and always ends closed without a handle. A successful close keeps `Consistent` |
| Xenics.Camera.LoadCalibrationFile | fastruments/XenicsBobcat640.py:438-447 | no library call when neither the argument nor the stored file is set |
| Xenics.Camera.LoadSettingsFile | fastruments/XenicsBobcat640.py:449-457 | the same with the settings file |
| Xenics.Camera.SetCalibrationFile | fastruments/XenicsBobcat640.py:224-235 | None changes nothing; a path is stored and loaded |
| Xenics.Camera.SetSettingsFile | fastruments/XenicsBobcat640.py:249-261 | the same with the settings file |
| Xenics.Camera.GetPixelSize | fastruments/XenicsBobcat640.py:327-360 | refused unless open; otherwise the frame type is read and looked up |
| Xenics.Connect | fastruments/XenicsBobcat640.py:372-380 | from a closed camera: open, load calibration, load settings, start, each only after the previous one passed. The outcome is the first failure: Failure for handle 0, XenicsError(-1) when uninitialised, then the load and start codes. The log is `OpenCalls` then `ConnectTail`, with no load for a missing file and no start when the camera is already flagged as capturing. It ends open iff the open succeeded, holding that handle; capturing iff it passed or was already flagged; the stored files are unchanged, and `Consistent` is kept |
| Xenics.OpenCalls | fastruments/XenicsBobcat640.py:382-397 | the calls `open` makes: always the open, then the initialisation query unless the handle is 0 |
| Xenics.ConnectTail | fastruments/XenicsBobcat640.py:376-380 | after the open: the calibration load first when a file is stored; with no files, only the start, and nothing if already flagged as capturing (lines 422-423, 438-457) |
| Xenics.LoadAndStart | fastruments/XenicsBobcat640.py:378-380 | on an open camera: the calibration load, the settings load, then the start, each only after the previous one passed; the outcome is the first failing code's, the log is `ConnectTail`, and the camera is capturing iff it was already or the call passed |
| Xenics.FailedCloseKeepsCapturing | fastruments/XenicsBobcat640.py:399-416 | open, start, then a close whose stop fails: the camera ends closed but still flagged as capturing, with the five calls logged and the files unchanged |
| Xenics.ReconnectAfterFailedClose | fastruments/XenicsBobcat640.py:418-423 | connecting again after that close passes whatever the start code is, and logs only the open and the initialisation query: no start call is made |
| Opm.Check | fastruments/SantecOPM150.py:940-951 | passes iff the code is 0 or 1. A code outside `ErrorCodes` fails the enum lookup (ValueError), and the others fail with their code |
| Opm.InvalidHandleNeverRaises | fastruments/SantecOPM150.py:193-206 | `INVALID_HANDLE` aliases `OK_1`, so code 1 passes, and every other enum code except 0 fails |
| Opm.FormatPower | fastruments/SantecOPM150.py:672-694 | unit 0 gives dBm unchanged and unit 1 the watt conversion of the same value; any other unit is a ValueError |
| Opm.FirstOp710 | fastruments/SantecOPM150.py:349-356 | the smallest index whose description contains `OP710`, or None iff there is none |
| Opm.SearchSteps | fastruments/SantecOPM150.py:349-356 | the number of description reads the search makes: it stops right after the first failing call or the first `OP710`, otherwise reads every description, and always reads at least one when there is one |
| Opm.SweepStoppedOn | fastruments/SantecOPM150.py:844-850 | the active channel after a sweep that stops at call j: the restored channel at the first two calls, otherwise the odd channel 1..23 whose selection last passed |
| Opm.SignedByte | fastruments/SantecOPM150.py:926 | `c_byte`: the result is in -128..127 and congruent to the input modulo 256 |
| Opm.SignedByteInRange | fastruments/SantecOPM150.py:926 | speeds inside the signed-byte range pass unchanged |
| Opm.SweepCallsShape | fastruments/SantecOPM150.py:844-850 | the sweep reads the channel, makes channels 1, 3, …, 23 active in order with the setting after each, and restores the channel; the setting is made 12 times |
| Opm.ChannelReads | fastruments/SantecOPM150.py:780 | one buffered read per requested channel, in order |
| Opm.PowerMeter.FindOp710 | fastruments/SantecOPM150.py:349-356 | reads descriptions in order, logging exactly `SearchSteps` reads. It passes iff those reads pass, and then returns `FirstOp710`; otherwise it returns the error of the last read |
| Opm.PowerMeter.Connect | fastruments/SantecOPM150.py:345-366 | succeeds iff every call passes and an OP710 is found; no OP710 is a RuntimeError, and any other failure is the failing call's error. The device number is set once the search passes. The connection counts as open only for a driver code of 0. The log is the count, the search reads, then the USB open and the driver open, cut at the first failure |
| Opm.PowerMeter.OpenDevice | fastruments/SantecOPM150.py:360-366 | opens the USB device and, only if that passes, the driver (lines 440-442); the outcome is the first failing call's, and the connection counts as open iff the driver code is 0 |
| Opm.PowerMeter.Call | fastruments/SantecOPM150.py:567-585 | one logged library call judged by `_check` (lines 940-951); a passing channel selection makes that channel active, and nothing else changes (also lines 871-884) |
| Opm.PowerMeter.SelectAndApply | fastruments/SantecOPM150.py:812-828 | selects a channel, then applies the setting only if the selection passed; the outcome is the first failing call's, and the channel is active iff its selection passed |
| Opm.PowerMeter.ReadChannelBufferPower | fastruments/SantecOPM150.py:739-757 | one logged buffered read of the channel; a failing code is its error, otherwise the value is formatted by the power unit |
| Opm.PowerMeter.constructor | fastruments/SantecOPM150.py:315-341 | the power unit and active channel given, no device, closed, no sampling speed and an empty call log |
| Opm.PowerMeter.Close | fastruments/SantecOPM150.py:369-382 | no library call unless open. A failed close keeps the flag set, and a successful one clears it |
| Opm.PowerMeter.SetWavelength | fastruments/SantecOPM150.py:629-653 | only the eight listed wavelengths reach the library; others are a ValueError with no call |
| Opm.PowerMeter.SetSamplingSpeed | fastruments/SantecOPM150.py:904-930 | the getter's value is stored before the call, whatever the call returns; the library is given `c_byte(speed)` |
| Opm.PowerMeter.SweepOddChannels | fastruments/SantecOPM150.py:844-850 | succeeds iff all 26 calls pass, and the log is then `SweepCalls` with the active channel restored. On failure the outcome is the first failing call's, the log is the prefix up to it, and the active channel is `SweepStoppedOn` that call |
| Opm.PowerMeter.SetGainAllChannels | fastruments/SantecOPM150.py:886-902 | the sweep with `SetGain(gain)` |
| Opm.PowerMeter.SetAutorangeAllChannels | fastruments/SantecOPM150.py:830-851 | the sweep with `SetAutoRange(1 or 0)` |
| Opm.PowerMeter.ReadMultipleChannels | fastruments/SantecOPM150.py:731-782 | succeeds iff every call passes and, when a channel is read, the power unit is 0 or 1; it then returns one formatted reading per channel, in order, after one buffer refresh. On failure the log is the prefix up to the failing call and the error is that call's, or ValueError from formatting the first reading |
| Opm.CloseTwice | fastruments/SantecOPM150.py:378-382 | after a successful close, a second close passes with no library call and the meter closed. After a failed one, both calls are logged and the flag follows the second outcome; nothing else changes |

## Left out

- Transport is not modelled: VISA sessions, serial settings, `inst.write`/`query`/`read`, DLL loading and ctypes calls. A reply, return code or handle is a parameter, and the log records what was sent.
- Floating-point behaviour is not modelled. Values are `real`, and float equality in the scale-set and record-length membership checks is taken as exact.
- SCPI numeric arguments are kept as numbers (`Scpi.Num`), because Python's float `repr` is not modelled.
- The dBm-to-watt conversion `10^(x/10-3)` is `pow` and is kept symbolic (`Opm.Reading.WattsFromDbm`).
- Settling delays (`time.sleep`), verbose printing and logging are left out; they change no state.
- Case mapping is modelled for ASCII letters only, and `int()` accepts ASCII digits only. Whitespace for `strip` is Python's full set of Unicode whitespace (`Text.IsSpace`).
- `connect`, `idn`, `reset`, `clear`, `beep`, `autoset`, acquisition start/stop and `close` of the VISA instruments (QLASS, AFG, TBS) are transport only.
- The getters that only return a parsed reply (AFG `get_*`, most TBS getters, Qontrol `get_current`/`get_voltage`) are left out. Their channel checks are the ones modelled.
- QLASS: the `current`, `voltage`, `power` and `resistance` properties are left out; they are queries with no checks.
- TBS `get_waveform`: the payload is parsed with `np.fromstring`, which is not modelled; the raw samples are a parameter.
- Qontrol: the hardware compliance write inside `set_compliance` is not modelled. Its errors are swallowed and it changes no state the driver reads.
- Qontrol: the channel-count fallback to 8 when the register lists cannot be read is not modelled; the count is the register length.
- Qontrol: the slice assignment in `set_all_zero` is modelled by its per-channel fallback loop, which has the same effect.
- Qontrol: the readings behind `power` and `resistance` are parameters. The AttributeError a closed driver raises there is not modelled.
- Xenics: `grab_frame` past its `_require_capturing` guard is not modelled (buffers, numpy, PIL). Neither are `frame_size`, `frame_dims`, `width` and `height`.
- Xenics: `XC_OpenCamera` returns `c_int32` (line 57), so a negative handle can occur and only 0 is refused (line 388); the handle is any integer here. `XC_GetFrameType` returns `c_ulong` (line 76), so the frame type -1 of the table would arrive as 4294967295, which `PixelSize` refuses.
- OPM150: temperature, `read_analog`, `read_power`, relative power, USB serial number and status are left out; they are reads with no checks.
- OPM150: after a failed library call, the device state is modelled as unchanged. Each library call takes one return code from a sequence parameter.
- OPM150: `fastruments/instruments/SantecOPM150.py` and `fastruments/SantecOPM150_old.py` are not part of this model. The first fails on import; the second is not valid Python.
- `src/opm150/op710m_dll.py`, `src/bobcat640/core.py`, `fastruments/instruments/bobcat640/Bobcat640.py`, `fastruments/helpers.py`, the `Instrument` base classes and the test scripts are not part of this model.
- OPM150: `__init__` ends by calling `connect()` (line 343). The constructor here gives an unconnected meter whose active channel is a parameter, and `Opm.PowerMeter.Connect` is a separate call.
- Opm.PowerMeter.Call: a channel or gain is logged as given; the 32-bit wrap-around of `c_int` (SantecOPM150.py:583, 881) is not modelled, only that of `c_byte` (`Opm.SignedByte`).
- Opm.PowerMeter.ReadChannelBufferPower: the channel is logged as given, without the `c_int` wrap-around of line 754.
- Opm.PowerMeter.SweepOddChannels: requires the setting to be a gain or autorange call, which are the only two callers.

Two behaviours are modelled as written and are not listed as findings:

- A Xenics `close` whose stop fails ends closed but still flagged as capturing (`Xenics.FailedCloseKeepsCapturing`).
- An OPM150 driver code of 1 passes `_check`, but the connection then counts as closed (`Opm.PowerMeter.Connect`).

## Findings

| source | as written | input that shows it | evidently intended | confidence | as-written member | corrected member |
|---|---|---|---|---|---|---|
| fastruments/QLASSdriver.py:147 | `self.range()` calls the float that the `range` property returns (also at line 197), so both setters raise TypeError | `set_current(3, 10.0)` or `set_current_level(3, 100)` with FSR code 2 | `max_current = self.range` | not executed; high | Qlass.SetterAsWrittenRejectsValid | Qlass.CurrentCommand |
| fastruments/TektronixTBS2204B.py:323 | the refusal message divides the scale set (a set literal in parentheses) by the gain, so a refused scale raises TypeError instead of ValueError | `set_channel_scale(1, 3.0)` at gain 1 | compute the scales divided by the gain element by element | not executed; high | Tbs.ScaleRefusalKind | Tbs.ScaleCommand |
| fastruments/XenicsBobcat640.py:506 | `if conversions is None` tests the tuple, so a pixel size with no type returns None | frame type 0 (native), pixel size 0 | `if pixel_dtype is None` | not executed; high | Xenics.NativeFrameDtype | Xenics.PixelDtype |
| fastruments/TektronixTBS2204B.py:941-942 | `np.max` of the record-length set returns the set itself, so `:DAT:STOP` is sent the set's text `{...}` instead of a number of points | `get_waveform(1)` with channel 1 displayed | `max(self.__RECORD_LENGTHS)`, that is `:DAT:STOP 5000000` | not executed; medium | Tbs.WaveformStopAsWritten | Tbs.WaveformCommands |
