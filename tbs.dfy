/** The Tektronix TBS2204B oscilloscope: the checks its setters make (channel index,
    membership in the instrument's tables, ranges that depend on other settings), the
    commands they write, the trigger-source reply parser and the conversion of a
    downloaded waveform to volts and seconds. The instrument's replies are
    parameters; floats are `real`. */
module Tbs {
  import opened Outcomes
  import opened Text
  import opened Scpi

  datatype Error = ValueError | TypeError

  const NumChannels: int := 4

  const TimebaseScales: set<real> := {
    0.000000002, 0.000000005, 0.00000001, 0.00000002, 0.00000005,
    0.0000001, 0.0000002, 0.0000005, 0.000001, 0.000002, 0.000005,
    0.00001, 0.00002, 0.00005, 0.0001, 0.0002, 0.0005,
    0.001, 0.002, 0.005, 0.01, 0.02, 0.05, 0.1, 0.2, 0.5,
    1.0, 2.0, 5.0, 10.0, 20.0, 50.0, 100.0
  }
  const CouplingModes: set<string> := {"AC", "DC", "GND"}
  const TriggerModes: set<string> := {"AUTO", "NORM"}
  const TriggerSlopes: set<string> := {"RISE", "FALL"}
  const RecordLengths: set<real> := {1000.0, 2000.0, 20000.0, 200000.0, 2000000.0, 5000000.0}
  const VerticalGains: set<real> := {
    0.001, 0.002, 0.005, 0.01, 0.02, 0.05, 0.1, 0.2, 0.5,
    1.0, 2.0, 5.0, 10.0, 20.0, 50.0, 100.0, 200.0, 500.0, 1000.0
  }
  const PositionLow: real := -5.0
  const PositionHigh: real := 5.0
  /** The legal vertical scales (V/div) at gain 1. */
  const VerticalScales: set<real> := {
    0.002, 0.005, 0.01, 0.02, 0.05, 0.1, 0.2, 0.5, 1.0, 2.0, 5.0
  }
  const Bandwidths: set<real> := {20_000_000.0, 200_000_000.0}
  /** The trigger point may sit at most this many divisions from the screen centre. */
  const TriggerSpan: real := 4.96

  predicate ValidChannel(ch: int) { 1 <= ch <= NumChannels }

  /** `f":CH{channel}"` */
  function ChannelPrefix(ch: int): string
    requires ValidChannel(ch)
  {
    ":CH" + NatToString(ch)
  }

  /** The check every channel-taking setter and getter makes first. */
  function CheckChannel(ch: int): (r: Outcome<Error>)
    ensures r.Pass? <==> ValidChannel(ch)
    ensures r.Fail? ==> r.error == ValueError
  {
    if !(1 <= ch <= NumChannels) then Fail(ValueError) else Pass
  }

  /** `set_channel_display` */
  function DisplayCommand(ch: int, state: bool): (r: Result<Command, Error>)
    ensures r.Ok? <==> ValidChannel(ch)
    ensures r.Err? ==> r.error == ValueError
    ensures r.Ok? ==> r.value == Command(":SEL:CH" + NatToString(ch), Word(if state then "ON" else "OFF"))
  {
    if CheckChannel(ch).Fail? then Err(ValueError)
    else Ok(Command(":SEL:CH" + NatToString(ch), Word(if state then "ON" else "OFF")))
  }

  /** `set_channel_scale`, with the evident intent that a scale not legal for the
      channel's gain is a ValueError. */
  function ScaleCommand(ch: int, scale: real, gain: real): (r: Result<Command, Error>)
    ensures r.Ok? <==> ValidChannel(ch) && scale * gain in VerticalScales
    ensures r.Err? ==> r.error == ValueError
    ensures r.Ok? ==> r.value == Command(ChannelPrefix(ch) + ":SCA", Num(scale))
  {
    if CheckChannel(ch).Fail? then Err(ValueError)
    else if scale * gain !in VerticalScales then Err(ValueError)
    else Ok(Command(ChannelPrefix(ch) + ":SCA", Num(scale)))
  }

  /** `set_channel_scale` as written: building the refusal's message divides the set
      of scales by the gain, which raises a TypeError in place of the ValueError. */
  function ScaleCommandAsWritten(ch: int, scale: real, gain: real): (r: Result<Command, Error>)
    ensures r.Ok? <==> ScaleCommand(ch, scale, gain).Ok?
    ensures ValidChannel(ch) && r.Err? ==> r.error == TypeError
  {
    if CheckChannel(ch).Fail? then Err(ValueError)
    else if scale * gain !in VerticalScales then Err(TypeError)
    else Ok(Command(ChannelPrefix(ch) + ":SCA", Num(scale)))
  }

  /** 3 V/div at gain 1 is refused with the wrong kind of error. */
  lemma ScaleRefusalKind()
    ensures ScaleCommand(1, 3.0, 1.0) == Err(ValueError)
    ensures ScaleCommandAsWritten(1, 3.0, 1.0) == Err(TypeError)
  {
  }

  /** With a non-zero gain, the legal scales are exactly the gain-1 scales divided by
      the gain. */
  lemma ScalesDividedByGain(ch: int, scale: real, gain: real)
    requires ValidChannel(ch) && gain != 0.0
    ensures ScaleCommand(ch, scale, gain).Ok? <==> exists v :: v in VerticalScales && scale == v / gain
  {
    if ScaleCommand(ch, scale, gain).Ok? {
      var v := scale * gain;
      assert v in VerticalScales;
      DivideByGain(scale, gain, v);
    }
    if exists v :: v in VerticalScales && scale == v / gain {
      var v :| v in VerticalScales && scale == v / gain;
      DivideByGain(scale, gain, v);
    }
  }

  lemma DivideByGain(scale: real, gain: real, v: real)
    requires gain != 0.0
    ensures scale * gain == v <==> scale == v / gain
  {
  }

  /** `set_channel_coupling`: the upper-cased mode must be AC, DC or GND. */
  function CouplingCommand(ch: int, mode: string): (r: Result<Command, Error>)
    ensures r.Ok? <==> ValidChannel(ch) && ToUpper(mode) in CouplingModes
    ensures r.Err? ==> r.error == ValueError
    ensures r.Ok? ==> r.value == Command(ChannelPrefix(ch) + ":COUP", Word(ToUpper(mode)))
  {
    if CheckChannel(ch).Fail? then Err(ValueError)
    else if ToUpper(mode) !in CouplingModes then Err(ValueError)
    else Ok(Command(ChannelPrefix(ch) + ":COUP", Word(ToUpper(mode))))
  }

  /** `set_channel_position`: within -5 .. 5 divisions, both ends included. */
  function PositionCommand(ch: int, position: real): (r: Result<Command, Error>)
    ensures r.Ok? <==> ValidChannel(ch) && -5.0 <= position <= 5.0
    ensures r.Err? ==> r.error == ValueError
    ensures r.Ok? ==> r.value == Command(ChannelPrefix(ch) + ":POS", Num(position))
  {
    if CheckChannel(ch).Fail? then Err(ValueError)
    else if !(PositionLow <= position <= PositionHigh) then Err(ValueError)
    else Ok(Command(ChannelPrefix(ch) + ":POS", Num(position)))
  }

  /** `set_channel_gain` */
  function GainCommand(ch: int, gain: real): (r: Result<Command, Error>)
    ensures r.Ok? <==> ValidChannel(ch) && gain in VerticalGains
    ensures r.Err? ==> r.error == ValueError
    ensures r.Ok? ==> r.value == Command(ChannelPrefix(ch) + ":PRO:GAIN", Num(gain))
  {
    if CheckChannel(ch).Fail? then Err(ValueError)
    else if gain !in VerticalGains then Err(ValueError)
    else Ok(Command(ChannelPrefix(ch) + ":PRO:GAIN", Num(gain)))
  }

  /** Every gain the instrument accepts leaves a legal scale: the gain-1 scale of
      1 V/div divided by that gain. */
  lemma EveryGainHasAScale(ch: int, gain: real)
    requires GainCommand(ch, gain).Ok?
    ensures ScaleCommand(ch, 1.0 / gain, gain).Ok?
  {
    assert gain != 0.0;
    assert (1.0 / gain) * gain == 1.0;
  }

  /** `set_channel_bandwidth`: 20 MHz or 200 MHz. */
  function BandwidthCommand(ch: int, bandwidth: real): (r: Result<Command, Error>)
    ensures r.Ok? <==> ValidChannel(ch) && (bandwidth == 20_000_000.0 || bandwidth == 200_000_000.0)
    ensures r.Err? ==> r.error == ValueError
    ensures r.Ok? ==> r.value == Command(ChannelPrefix(ch) + ":BAN", Num(bandwidth))
  {
    if CheckChannel(ch).Fail? then Err(ValueError)
    else if bandwidth !in Bandwidths then Err(ValueError)
    else Ok(Command(ChannelPrefix(ch) + ":BAN", Num(bandwidth)))
  }

  /** The numeric channel getters (`get_channel_position`, `_scale`, `_gain`,
      `_bandwidth`): the channel is checked before the query; `value` is the reply. */
  function ChannelReading(ch: int, value: real): (r: Result<real, Error>)
    ensures r.Ok? <==> ValidChannel(ch)
    ensures r.Ok? ==> r.value == value
    ensures r.Err? ==> r.error == ValueError
  {
    if CheckChannel(ch).Fail? then Err(ValueError) else Ok(value)
  }

  /** `get_channel_display`: the channel is shown iff the stripped reply is "1". */
  function ChannelDisplay(ch: int, reply: string): (r: Result<bool, Error>)
    ensures r.Ok? <==> ValidChannel(ch)
    ensures r.Ok? ==> (r.value <==> Strip(reply) == "1")
    ensures r.Err? ==> r.error == ValueError
  {
    if CheckChannel(ch).Fail? then Err(ValueError) else Ok(Strip(reply) == "1")
  }

  /** `get_channel_coupling`: the stripped reply. */
  function ChannelCoupling(ch: int, reply: string): (r: Result<string, Error>)
    ensures r.Ok? <==> ValidChannel(ch)
    ensures r.Ok? ==> r.value == Strip(reply)
    ensures r.Err? ==> r.error == ValueError
  {
    if CheckChannel(ch).Fail? then Err(ValueError) else Ok(Strip(reply))
  }

  /** No channel setter or getter does anything for a channel outside 1..4. */
  lemma ChannelOutOfRange(ch: int, b: bool, x: real, s: string)
    requires !ValidChannel(ch)
    ensures DisplayCommand(ch, b) == Err(ValueError) && ScaleCommand(ch, x, x) == Err(ValueError)
    ensures CouplingCommand(ch, s) == Err(ValueError) && PositionCommand(ch, x) == Err(ValueError)
    ensures GainCommand(ch, x) == Err(ValueError) && BandwidthCommand(ch, x) == Err(ValueError)
    ensures ChannelReading(ch, x) == Err(ValueError) && ChannelDisplay(ch, s) == Err(ValueError)
    ensures ChannelCoupling(ch, s) == Err(ValueError) && TriggerSourceCommand(ch) == Err(ValueError)
  {
  }

  /** `set_timebase_scale` */
  function TimebaseScaleCommand(scale: real): (r: Result<Command, Error>)
    ensures r.Ok? <==> scale in TimebaseScales
    ensures r.Err? ==> r.error == ValueError
    ensures r.Ok? ==> r.value == Command(":HOR:SCA", Num(scale))
  {
    if scale !in TimebaseScales then Err(ValueError) else Ok(Command(":HOR:SCA", Num(scale)))
  }

  /** Every legal timebase lies between 2 ns/div and 100 s/div. */
  lemma TimebaseScaleBounds(scale: real)
    requires TimebaseScaleCommand(scale).Ok?
    ensures 0.000000002 <= scale <= 100.0
  {
  }

  /** `set_timebase_position`: 0 .. 100 %, and the delay mode is switched off first. */
  function TimebasePositionCommands(position: real): (r: Result<seq<Command>, Error>)
    ensures r.Ok? <==> 0.0 <= position <= 100.0
    ensures r.Err? ==> r.error == ValueError
    ensures r.Ok? ==>
      (|r.value| == 2 && r.value[0] == Command(":HOR:DEL:MOD", Word("OFF"))
       && r.value[1] == Command(":HOR:POS", Num(position)))
  {
    if !(0.0 <= position <= 100.0) then Err(ValueError)
    else Ok([Command(":HOR:DEL:MOD", Word("OFF")), Command(":HOR:POS", Num(position))])
  }

  /** `set_trigger_mode` */
  function TriggerModeCommand(mode: string): (r: Result<Command, Error>)
    ensures r.Ok? <==> ToUpper(mode) in TriggerModes
    ensures r.Err? ==> r.error == ValueError
    ensures r.Ok? ==> r.value == Command(":TRIG:A:MOD", Word(ToUpper(mode)))
  {
    if ToUpper(mode) !in TriggerModes then Err(ValueError)
    else Ok(Command(":TRIG:A:MOD", Word(ToUpper(mode))))
  }

  /** `set_trigger_slope` */
  function TriggerSlopeCommand(slope: string): (r: Result<Command, Error>)
    ensures r.Ok? <==> ToUpper(slope) in TriggerSlopes
    ensures r.Err? ==> r.error == ValueError
    ensures r.Ok? ==> r.value == Command(":TRIG:A:EDGE:SLO", Word(ToUpper(slope)))
  {
    if ToUpper(slope) !in TriggerSlopes then Err(ValueError)
    else Ok(Command(":TRIG:A:EDGE:SLO", Word(ToUpper(slope))))
  }

  /** Mode and slope names are accepted in any capitalisation. */
  lemma TriggerNamesCaseInsensitive(name: string)
    ensures TriggerModeCommand(ToLower(name)) == TriggerModeCommand(name)
    ensures TriggerSlopeCommand(ToLower(name)) == TriggerSlopeCommand(name)
    ensures CouplingCommand(1, ToLower(name)) == CouplingCommand(1, name)
  {
    UpperOfLower(name);
  }

  /** `f"CH{channel}"`, the source word the trigger-source setter writes. */
  function SourceWord(ch: nat): (w: string)
    ensures "CH" <= w && |w| >= 3 && AllDigits(w[2..])
  {
    var w := "CH" + NatToString(ch);
    assert w[2..] == NatToString(ch);
    w
  }

  /** `set_trigger_source` */
  function TriggerSourceCommand(ch: int): (r: Result<Command, Error>)
    ensures r.Ok? <==> ValidChannel(ch)
    ensures r.Err? ==> r.error == ValueError
    ensures r.Ok? ==> r.value == Command(":TRIG:A:EDGE:SOU", Word(SourceWord(ch)))
  {
    if CheckChannel(ch).Fail? then Err(ValueError)
    else Ok(Command(":TRIG:A:EDGE:SOU", Word(SourceWord(ch))))
  }

  /** `get_trigger_source`: a stripped reply starting with "CH" is read as the number
      left after removing every "CH" (a ValueError when that is not a number); any
      other reply gives `None`. */
  function TriggerSource(reply: string): (r: Result<Option<int>, Error>)
    ensures !("CH" <= Strip(reply)) ==> r == Ok(None)
    ensures "CH" <= Strip(reply) ==> r.Err? || r.value.Some?
    ensures r.Err? <==> "CH" <= Strip(reply) && ParseInt(ReplaceAll(Strip(reply), "CH", "")).None?
    ensures r.Err? ==> r.error == ValueError
    ensures r.Ok? && r.value.Some? ==> ParseInt(ReplaceAll(Strip(reply), "CH", "")) == Some(r.value.value)
  {
    var source := Strip(reply);
    if !("CH" <= source) then Ok(None)
    else match ParseInt(ReplaceAll(source, "CH", ""))
      case None => Err(ValueError)
      case Some(n) => Ok(Some(n))
  }

  /** Reading back the source word the setter wrote gives the channel again. */
  lemma TriggerSourceRoundTrip(ch: nat)
    ensures TriggerSource(SourceWord(ch)) == Ok(Some(ch))
  {
    var w := SourceWord(ch);
    SourceWordTrimmed(ch);
    SourceWordDigits(ch);
    ParseNatToString(ch);
    TriggerSourceOf(w, ch);
  }

  /** The instrument's reply carries whitespace around the word, such as a
      trailing newline; `strip()` removes it before the word is read. */
  lemma TriggerSourceOfReply(ch: nat, before: string, after: string)
    requires forall i :: 0 <= i < |before| ==> IsSpace(before[i])
    requires forall i :: 0 <= i < |after| ==> IsSpace(after[i])
    ensures TriggerSource(before + SourceWord(ch) + after) == Ok(Some(ch))
  {
    SourceWordReadable(ch);
    TriggerSourcePadded(before, SourceWord(ch), after, ch);
  }

  lemma SourceWordReadable(ch: nat)
    ensures Trimmed(SourceWord(ch)) && "CH" <= SourceWord(ch)
    ensures ParseInt(ReplaceAll(SourceWord(ch), "CH", "")) == Some(ch)
  {
    SourceWordTrimmed(ch);
    SourceWordDigits(ch);
    ParseNatToString(ch);
  }

  lemma TriggerSourcePadded(before: string, w: string, after: string, n: int)
    requires forall i :: 0 <= i < |before| ==> IsSpace(before[i])
    requires forall i :: 0 <= i < |after| ==> IsSpace(after[i])
    requires Trimmed(w) && "CH" <= w && ParseInt(ReplaceAll(w, "CH", "")) == Some(n)
    ensures TriggerSource(before + w + after) == Ok(Some(n))
  {
    StripPadded(before, w, after);
    TriggerSourceOf(before + w + after, n);
  }

  lemma TriggerSourceOf(w: string, n: int)
    requires "CH" <= Strip(w) && ParseInt(ReplaceAll(Strip(w), "CH", "")) == Some(n)
    ensures TriggerSource(w) == Ok(Some(n))
  {
  }

  lemma SourceWordTrimmed(ch: nat)
    ensures Trimmed(SourceWord(ch)) && Strip(SourceWord(ch)) == SourceWord(ch) && "CH" <= SourceWord(ch)
  {
    var w := SourceWord(ch);
    var digits := NatToString(ch);
    assert w[|w| - 1] == digits[|digits| - 1];
    assert Trimmed(w);
    StripTrimmed(w);
  }

  lemma SourceWordDigits(ch: nat)
    ensures ReplaceAll(SourceWord(ch), "CH", "") == NatToString(ch)
  {
    var digits := NatToString(ch);
    ReplaceLeading("CH", digits, "");
    ReplaceAbsent(digits, "CH", "");
  }

  /** The range of trigger levels (V) for the source channel's scale and position. */
  function TriggerLevelLow(scale: real, position: real): real { -(TriggerSpan + position) * scale }
  function TriggerLevelHigh(scale: real, position: real): real { (TriggerSpan - position) * scale }

  /** `set_trigger_level`: the source channel is read back first (no source is a
      TypeError once its scale is asked for, a channel outside 1..4 a ValueError),
      then the level must lie in the range that channel's scale and position give. */
  function TriggerLevelCommand(level: real, sourceReply: string, scale: real, position: real)
    : (r: Result<Command, Error>)
    ensures TriggerSource(sourceReply) == Ok(None) ==> r == Err(TypeError)
    ensures r.Ok? <==>
      (TriggerSource(sourceReply).Ok? && TriggerSource(sourceReply).value.Some?
       && ValidChannel(TriggerSource(sourceReply).value.value)
       && TriggerLevelLow(scale, position) <= level <= TriggerLevelHigh(scale, position))
    ensures r.Err? && TriggerSource(sourceReply) != Ok(None) ==> r.error == ValueError
    ensures r.Ok? ==> r.value == Command(":TRIG:A:LEV", Num(level))
  {
    match TriggerSource(sourceReply)
    case Err(e) => Err(e)
    case Ok(None) => Err(TypeError)
    case Ok(Some(source)) =>
      if CheckChannel(source).Fail? then Err(ValueError)
      else if !(TriggerLevelLow(scale, position) <= level <= TriggerLevelHigh(scale, position)) then
        Err(ValueError)
      else Ok(Command(":TRIG:A:LEV", Num(level)))
  }

  /** The legal range is 9.92 divisions wide, whatever the position. */
  lemma TriggerRangeWidth(scale: real, position: real)
    ensures TriggerLevelHigh(scale, position) - TriggerLevelLow(scale, position) == 2.0 * TriggerSpan * scale
  {
  }

  /** For a positive scale, a level is legal iff it lies within 4.96 divisions of the
      screen centre once the channel's position is added. */
  lemma TriggerLevelInDivisions(level: real, scale: real, position: real)
    requires scale > 0.0
    ensures TriggerLevelLow(scale, position) <= level <= TriggerLevelHigh(scale, position)
      <==> -TriggerSpan <= level / scale + position <= TriggerSpan
  {
    var d := level / scale;
    assert d * scale == level;
    var lo := -(TriggerSpan + position);
    var hi := TriggerSpan - position;
    assert TriggerLevelLow(scale, position) == lo * scale;
    assert TriggerLevelHigh(scale, position) == hi * scale;
    ScaleCompare(lo, d, scale);
    ScaleCompare(d, hi, scale);
  }

  lemma ScaleCompare(a: real, b: real, s: real)
    requires s > 0.0
    ensures a * s <= b * s <==> a <= b
  {
    assert b * s - a * s == (b - a) * s;
    if a <= b {
      assert (b - a) * s >= 0.0;
    } else {
      assert (a - b) * s > 0.0;
    }
  }

  /** `set_record_length` */
  function RecordLengthCommand(length: real): (r: Result<Command, Error>)
    ensures r.Ok? <==> length in RecordLengths
    ensures r.Err? ==> r.error == ValueError
    ensures r.Ok? ==> r.value == Command(":HOR:RECO", Num(length))
  {
    if length !in RecordLengths then Err(ValueError) else Ok(Command(":HOR:RECO", Num(length)))
  }

  /** Every legal record length is a whole number of points between 1 000 and 5 000 000. */
  lemma RecordLengthBounds(length: real)
    requires RecordLengthCommand(length).Ok?
    ensures 1000.0 <= length <= 5000000.0 && length == length.Floor as real
  {
  }

  /** The setup `get_waveform` writes once the channel and its display are checked:
      ASCII encoding, the source, and the record from point 1 to the point `stop`. */
  function WaveformSetup(ch: int, displayReply: string, stop: Arg): (r: Result<seq<Command>, Error>)
    ensures r.Ok? <==> ValidChannel(ch) && ChannelDisplay(ch, displayReply) == Ok(true)
    ensures r.Err? ==> r.error == ValueError
    ensures r.Ok? ==>
      r.value == [Command(":DAT:ENC", Word("ASCI")), Command(":DAT:SOU", Word(SourceWord(ch))),
                  Command(":DAT:STAR", Int(1)), Command(":DAT:STOP", stop)]
  {
    if CheckChannel(ch).Fail? then Err(ValueError)
    else if ChannelDisplay(ch, displayReply) != Ok(true) then Err(ValueError)
    else Ok([Command(":DAT:ENC", Word("ASCI")), Command(":DAT:SOU", Word(SourceWord(ch))),
             Command(":DAT:STAR", Int(1)), Command(":DAT:STOP", stop)])
  }

  /** The setup as intended: the record ends at the longest record length. */
  function WaveformCommands(ch: int, displayReply: string): (r: Result<seq<Command>, Error>)
    ensures r.Ok? <==> ValidChannel(ch) && ChannelDisplay(ch, displayReply) == Ok(true)
    ensures r.Err? ==> r.error == ValueError
    ensures r.Ok? ==>
      |r.value| == 4 && r.value[..3] == [Command(":DAT:ENC", Word("ASCI")),
        Command(":DAT:SOU", Word(SourceWord(ch))), Command(":DAT:STAR", Int(1))]
      && r.value[3].header == ":DAT:STOP" && r.value[3].arg.Int?
      && r.value[3].arg.integer as real in RecordLengths
      && forall length :: length in RecordLengths ==> length <= r.value[3].arg.integer as real
  {
    WaveformSetup(ch, displayReply, Int(5000000))
  }

  /** The setup as written: `np.max` of the record-length set is the set itself, so the
      stop point sent is the set's text, `setText`, which Python writes between braces. */
  function WaveformCommandsAsWritten(ch: int, displayReply: string, setText: string)
    : (r: Result<seq<Command>, Error>)
    requires |setText| >= 2 && setText[0] == '{' && setText[|setText| - 1] == '}'
    ensures r.Ok? <==> WaveformCommands(ch, displayReply).Ok?
    ensures r.Ok? ==>
      |r.value| == 4 && r.value[..3] == WaveformCommands(ch, displayReply).value[..3]
      && r.value[3] == Command(":DAT:STOP", Word(setText))
  {
    WaveformSetup(ch, displayReply, Word(setText))
  }

  /** The stop point sent as written is not a number of points, so it differs from the
      intended one wherever the setup is accepted. */
  lemma WaveformStopAsWritten(ch: int, displayReply: string, setText: string)
    requires |setText| >= 2 && setText[0] == '{' && setText[|setText| - 1] == '}'
    requires WaveformCommands(ch, displayReply).Ok?
    ensures !WaveformCommandsAsWritten(ch, displayReply, setText).value[3].arg.Int?
    ensures WaveformCommandsAsWritten(ch, displayReply, setText) != WaveformCommands(ch, displayReply)
  {
  }

  /** The waveform preamble: `:WFMO:YMULT?`, `YOFF?`, `YZERO?`, `XINCR?`, `XZERO?`. */
  datatype Preamble = Preamble(ymult: real, yoff: real, yzero: real, xincr: real, xzero: real)

  /** A raw sample in volts. */
  function Volt(raw: real, p: Preamble): real { (raw - p.yoff) * p.ymult + p.yzero }

  /** The time of sample `i` in seconds. */
  function Time(i: int, p: Preamble): real { i as real * p.xincr + p.xzero }

  /** A reading in volts gives back its raw sample when the multiplier is not zero. */
  lemma VoltInverse(raw: real, p: Preamble)
    requires p.ymult != 0.0
    ensures (Volt(raw, p) - p.yzero) / p.ymult + p.yoff == raw
  {
    assert Volt(raw, p) - p.yzero == (raw - p.yoff) * p.ymult;
  }

  /** With a positive multiplier the conversion keeps the order of samples. */
  lemma VoltMonotone(a: real, b: real, p: Preamble)
    requires p.ymult > 0.0 && a <= b
    ensures Volt(a, p) <= Volt(b, p)
  {
    ScaleCompare(a - p.yoff, b - p.yoff, p.ymult);
  }

  /** With a positive increment the time axis strictly increases, one increment a step. */
  lemma TimeIncreasing(i: int, j: int, p: Preamble)
    requires p.xincr > 0.0 && i < j
    ensures Time(i, p) < Time(j, p)
    ensures Time(i + 1, p) - Time(i, p) == p.xincr
  {
    assert (j - i) as real * p.xincr > 0.0;
  }

  /** Converts the downloaded samples: `y = (raw - yoff) * ymult + yzero` and
      `x = arange(n) * xincr + xzero`, element by element. */
  method ConvertWaveform(raw: seq<real>, p: Preamble) returns (x: seq<real>, y: seq<real>)
    ensures |x| == |raw| && |y| == |raw|
    ensures forall i :: 0 <= i < |raw| ==> y[i] == Volt(raw[i], p) && x[i] == Time(i, p)
  {
    x, y := [], [];
    var i := 0;
    while i < |raw|
      invariant 0 <= i <= |raw| && |x| == i && |y| == i
      invariant forall k :: 0 <= k < i ==> y[k] == Volt(raw[k], p) && x[k] == Time(k, p)
    {
      y := y + [Volt(raw[i], p)];
      x := x + [Time(i, p)];
      i := i + 1;
    }
  }

  class Oscilloscope {
    /** The commands written to the instrument, oldest first. */
    var log: seq<Command>

    constructor()
      ensures log == []
    {
      log := [];
    }

    /** Writes the commands of an accepted request; a refused one writes nothing. */
    method Send(cmds: Result<seq<Command>, Error>) returns (r: Outcome<Error>)
      modifies this
      ensures cmds.Err? ==> r == Fail(cmds.error) && log == old(log)
      ensures cmds.Ok? ==> r == Pass && log == old(log) + cmds.value
    {
      if cmds.Err? {
        return Fail(cmds.error);
      }
      log := log + cmds.value;
      r := Pass;
    }

    method SendOne(cmd: Result<Command, Error>) returns (r: Outcome<Error>)
      modifies this
      ensures cmd.Err? ==> r == Fail(cmd.error) && log == old(log)
      ensures cmd.Ok? ==> r == Pass && log == old(log) + [cmd.value]
    {
      if cmd.Err? {
        return Fail(cmd.error);
      }
      log := log + [cmd.value];
      r := Pass;
    }

    method SetChannelDisplay(ch: int, state: bool) returns (r: Outcome<Error>)
      modifies this
      ensures !ValidChannel(ch) ==> r == Fail(ValueError) && log == old(log)
      ensures ValidChannel(ch) ==> r == Pass && log == old(log) + [DisplayCommand(ch, state).value]
    {
      r := SendOne(DisplayCommand(ch, state));
    }

    /** `gain` is the reply to the channel's gain query. */
    method SetChannelScale(ch: int, scale: real, gain: real) returns (r: Outcome<Error>)
      modifies this
      ensures ScaleCommand(ch, scale, gain).Err? ==> r == Fail(ValueError) && log == old(log)
      ensures ScaleCommand(ch, scale, gain).Ok? ==>
        r == Pass && log == old(log) + [Command(ChannelPrefix(ch) + ":SCA", Num(scale))]
    {
      r := SendOne(ScaleCommand(ch, scale, gain));
    }

    method SetChannelCoupling(ch: int, mode: string) returns (r: Outcome<Error>)
      modifies this
      ensures CouplingCommand(ch, mode).Err? ==> r == Fail(ValueError) && log == old(log)
      ensures CouplingCommand(ch, mode).Ok? ==>
        r == Pass && log == old(log) + [CouplingCommand(ch, mode).value]
    {
      r := SendOne(CouplingCommand(ch, mode));
    }

    method SetChannelPosition(ch: int, position: real) returns (r: Outcome<Error>)
      modifies this
      ensures PositionCommand(ch, position).Err? ==> r == Fail(ValueError) && log == old(log)
      ensures PositionCommand(ch, position).Ok? ==>
        r == Pass && log == old(log) + [Command(ChannelPrefix(ch) + ":POS", Num(position))]
    {
      r := SendOne(PositionCommand(ch, position));
    }

    method SetChannelGain(ch: int, gain: real) returns (r: Outcome<Error>)
      modifies this
      ensures GainCommand(ch, gain).Err? ==> r == Fail(ValueError) && log == old(log)
      ensures GainCommand(ch, gain).Ok? ==>
        r == Pass && log == old(log) + [Command(ChannelPrefix(ch) + ":PRO:GAIN", Num(gain))]
    {
      r := SendOne(GainCommand(ch, gain));
    }

    method SetChannelBandwidth(ch: int, bandwidth: real) returns (r: Outcome<Error>)
      modifies this
      ensures BandwidthCommand(ch, bandwidth).Err? ==> r == Fail(ValueError) && log == old(log)
      ensures BandwidthCommand(ch, bandwidth).Ok? ==>
        r == Pass && log == old(log) + [Command(ChannelPrefix(ch) + ":BAN", Num(bandwidth))]
    {
      r := SendOne(BandwidthCommand(ch, bandwidth));
    }

    method SetTimebaseScale(scale: real) returns (r: Outcome<Error>)
      modifies this
      ensures TimebaseScaleCommand(scale).Err? ==> r == Fail(ValueError) && log == old(log)
      ensures TimebaseScaleCommand(scale).Ok? ==>
        r == Pass && log == old(log) + [Command(":HOR:SCA", Num(scale))]
    {
      r := SendOne(TimebaseScaleCommand(scale));
    }

    method SetTimebasePosition(position: real) returns (r: Outcome<Error>)
      modifies this
      ensures !(0.0 <= position <= 100.0) ==> r == Fail(ValueError) && log == old(log)
      ensures 0.0 <= position <= 100.0 ==>
        r == Pass &&
        log == old(log) + [Command(":HOR:DEL:MOD", Word("OFF")), Command(":HOR:POS", Num(position))]
    {
      r := Send(TimebasePositionCommands(position));
    }

    method SetTriggerMode(mode: string) returns (r: Outcome<Error>)
      modifies this
      ensures TriggerModeCommand(mode).Err? ==> r == Fail(ValueError) && log == old(log)
      ensures TriggerModeCommand(mode).Ok? ==>
        r == Pass && log == old(log) + [TriggerModeCommand(mode).value]
    {
      r := SendOne(TriggerModeCommand(mode));
    }

    method SetTriggerSource(ch: int) returns (r: Outcome<Error>)
      modifies this
      ensures !ValidChannel(ch) ==> r == Fail(ValueError) && log == old(log)
      ensures ValidChannel(ch) ==>
        r == Pass && log == old(log) + [Command(":TRIG:A:EDGE:SOU", Word(SourceWord(ch)))]
    {
      r := SendOne(TriggerSourceCommand(ch));
    }

    /** `sourceReply`, `scale` and `position` are the replies to the trigger-source
        query and to the source channel's scale and position queries. */
    method SetTriggerLevel(level: real, sourceReply: string, scale: real, position: real)
      returns (r: Outcome<Error>)
      modifies this
      ensures TriggerLevelCommand(level, sourceReply, scale, position).Err? ==>
        r == Fail(TriggerLevelCommand(level, sourceReply, scale, position).error) && log == old(log)
      ensures TriggerLevelCommand(level, sourceReply, scale, position).Ok? ==>
        r == Pass && log == old(log) + [Command(":TRIG:A:LEV", Num(level))]
    {
      r := SendOne(TriggerLevelCommand(level, sourceReply, scale, position));
    }

    method SetTriggerSlope(slope: string) returns (r: Outcome<Error>)
      modifies this
      ensures TriggerSlopeCommand(slope).Err? ==> r == Fail(ValueError) && log == old(log)
      ensures TriggerSlopeCommand(slope).Ok? ==>
        r == Pass && log == old(log) + [TriggerSlopeCommand(slope).value]
    {
      r := SendOne(TriggerSlopeCommand(slope));
    }

    method SetRecordLength(length: real) returns (r: Outcome<Error>)
      modifies this
      ensures length !in RecordLengths ==> r == Fail(ValueError) && log == old(log)
      ensures length in RecordLengths ==>
        r == Pass && log == old(log) + [Command(":HOR:RECO", Num(length))]
    {
      r := SendOne(RecordLengthCommand(length));
    }

    /** `get_waveform(channel)`: `displayReply` answers the display query, `raw` and
        `p` are the downloaded curve and preamble. Returns the time axis and the
        samples in volts. */
    method GetWaveform(ch: int, displayReply: string, raw: seq<real>, p: Preamble)
      returns (r: Result<(seq<real>, seq<real>), Error>)
      modifies this
      ensures WaveformCommands(ch, displayReply).Err? ==> r == Err(ValueError) && log == old(log)
      ensures WaveformCommands(ch, displayReply).Ok? ==>
        (log == old(log) + WaveformCommands(ch, displayReply).value && r.Ok?
         && |r.value.0| == |raw| && |r.value.1| == |raw|
         && forall i :: 0 <= i < |raw| ==> r.value.0[i] == Time(i, p) && r.value.1[i] == Volt(raw[i], p))
    {
      var cmds := WaveformCommands(ch, displayReply);
      if cmds.Err? {
        return Err(ValueError);
      }
      log := log + cmds.value;
      var x, y := ConvertWaveform(raw, p);
      r := Ok((x, y));
    }
  }
}
