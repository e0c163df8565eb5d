/** The Lfiber 1xN optical switch: its `<...>` framing, the identification string
    and what is parsed from it, and the `OSW_OUT_nn` switching protocol with its
    three kinds of reply. The serial line is a log of the frames written; each
    reply is a parameter, as read up to (and without) the closing `>`. */
module Osw {
  import opened Outcomes
  import opened Text

  datatype Error = ValueError | RuntimeError | KeyError

  /** What `__update_info` stores in `model_info`. */
  datatype ModelInfo = ModelInfo(model: string, channels: int, wavelength: string, fiberType: string)

  const TypePrefix: string := "OSW_TYPE_"
  const OutPrefix: string := "OSW_OUT_"

  /** `__query_cmd` writes the body between the start and end characters. */
  function Frame(body: string): (f: string)
    ensures |f| == |body| + 2 && f[0] == '<' && f[|f| - 1] == '>'
    ensures f[1..|f| - 1] == body
  {
    "<" + body + ">"
  }

  /** `__query_cmd`'s reading of a reply: leading `<` characters go, then surrounding
      whitespace. */
  function Unframe(raw: string): (body: string)
    ensures Trimmed(body)
  {
    StripIdempotent(LStripChar(raw, '<'));
    Strip(LStripChar(raw, '<'))
  }

  lemma StripIsTrimmed(s: string)
    ensures Trimmed(Strip(s))
  {
    var u := TrimStart(s);
    var t := TrimEnd(u);
    if t != [] {
      assert t[0] == u[0];
    }
  }

  /** A reply framed like a command, read up to its closing `>`, gives back its body. */
  lemma UnframeFrame(body: string)
    requires Trimmed(body) && (body == [] || body[0] != '<')
    ensures Unframe(Frame(body)[..|body| + 1]) == body
  {
    var raw := Frame(body)[..|body| + 1];
    assert raw == "<" + body by {
      assert Frame(body) == "<" + body + ">";
    }
    assert raw[0] == '<' && raw[1..] == body;
    assert LStripChar(raw, '<') == LStripChar(body, '<');
    assert LStripChar(body, '<') == body;
    StripTrimmed(body);
  }

  /** `idn()`: the reply must start with `OSW_TYPE_`, and every occurrence of that
      text is then removed. */
  function IdnOf(raw: string): (r: Result<string, Error>)
    ensures r.Err? <==> !(TypePrefix <= Unframe(raw))
    ensures r.Err? ==> r.error == RuntimeError
  {
    var resp := Unframe(raw);
    if !(TypePrefix <= resp) then Err(RuntimeError) else Ok(ReplaceAll(resp, TypePrefix, ""))
  }

  /** A model name the switch reports after the type prefix comes back unchanged. */
  lemma IdnRoundTrip(model: string)
    requires Trimmed(TypePrefix + model) && !Contains(model, TypePrefix)
    ensures IdnOf(Frame(TypePrefix + model)[..|TypePrefix + model| + 1]) == Ok(model)
  {
    var body := TypePrefix + model;
    var raw := Frame(body)[..|body| + 1];
    UnframeFrame(body);
    assert Unframe(raw) == body;
    assert TypePrefix <= body;
    ReplacePrefixNotContained(TypePrefix, model, "");
    assert ReplaceAll(body, TypePrefix, "") == model;
  }

  /** Python's `s[2:]`: empty when `s` is shorter. */
  function DropTwo(s: string): string {
    if |s| >= 2 then s[2..] else ""
  }

  /** `__update_info`: the IDN split on `-` needs more than four parts; the channel
      count is the integer after the first two characters of the third part. */
  function ParseModelInfo(idn: string): (r: Result<ModelInfo, Error>)
    ensures r.Err? ==> r.error == ValueError
    ensures r.Ok? <==> |Split(idn, '-')| > 4 && ParseInt(DropTwo(Split(idn, '-')[2])).Some?
    ensures r.Ok? ==> (r.value.model == idn && r.value.wavelength == Split(idn, '-')[3]
      && r.value.fiberType == Split(idn, '-')[4]
      && Some(r.value.channels) == ParseInt(DropTwo(Split(idn, '-')[2])))
  {
    var parts := Split(idn, '-');
    if |parts| <= 4 then Err(ValueError)
    else match ParseInt(DropTwo(parts[2]))
      case None => Err(ValueError)
      case Some(n) => Ok(ModelInfo(idn, n, parts[3], parts[4]))
  }

  /** The channel count read from an IDN is never negative: the parts of a split on
      `-` hold no minus sign. */
  lemma ChannelsNonNegative(idn: string)
    requires ParseModelInfo(idn).Ok?
    ensures ParseModelInfo(idn).value.channels >= 0
  {
    var parts := Split(idn, '-');
    SplitPartsNoSep(idn, '-');
    assert '-' !in parts[2];
    assert '-' !in DropTwo(parts[2]);
    ParseWithoutMinus(DropTwo(parts[2]));
  }

  /** Joining the model's fields with `-` and parsing gives the fields back, when the
      third field is two characters and then the channel count. */
  lemma ParseModelInfoOfParts(parts: seq<string>, config: string, n: nat)
    requires |parts| > 4 && |config| == 2 && parts[2] == config + NatToString(n)
    requires forall k :: 0 <= k < |parts| ==> '-' !in parts[k]
    ensures ParseModelInfo(Join(parts, '-')) ==
      Ok(ModelInfo(Join(parts, '-'), n, parts[3], parts[4]))
  {
    SplitJoin(parts, '-');
    assert DropTwo(parts[2]) == NatToString(n);
    ParseNatToString(n);
  }

  /** The fields of the usage example's switch, `LF-OSW-1X16-1550-PMF-09-10-R-FA`. */
  const ExampleParts: seq<string> := ["LF", "OSW", "1X16", "1550", "PMF", "09", "10", "R", "FA"]

  lemma ExampleFields()
    ensures forall k :: 0 <= k < |ExampleParts| ==> '-' !in ExampleParts[k]
    ensures ExampleParts[2] == "1X" + NatToString(16)
  {
    assert NatToString(16) == "16";
  }

  /** The switch of the usage example reports 16 channels at 1550 nm on PM fiber. */
  lemma ParseModelInfoExample()
    ensures ParseModelInfo(Join(ExampleParts, '-')) ==
      Ok(ModelInfo(Join(ExampleParts, '-'), 16, "1550", "PMF"))
  {
    ExampleFields();
    ParseModelInfoOfParts(ExampleParts, "1X", 16);
  }

  /** `f"OSW_OUT_{channel:02d}"` */
  function SwitchCommand(ch: nat): (cmd: string)
    ensures OutPrefix <= cmd && |cmd| >= |OutPrefix| + 2 && AllDigits(cmd[|OutPrefix|..])
  {
    var cmd := OutPrefix + Pad2(ch);
    assert cmd[|OutPrefix|..] == Pad2(ch);
    cmd
  }

  /** Different channels are different commands. */
  lemma SwitchCommandInjective(a: nat, b: nat)
    requires SwitchCommand(a) == SwitchCommand(b)
    ensures a == b
  {
    assert Pad2(a) == SwitchCommand(a)[|OutPrefix|..];
    assert Pad2(b) == SwitchCommand(b)[|OutPrefix|..];
    Pad2Injective(a, b);
  }

  /** How a reply to a switching command is judged. */
  function Classify(resp: string): (r: Outcome<Error>)
    ensures r.Pass? <==> resp == "OSW_OUT_OK"
    ensures r.Fail? ==> (r.error == ValueError <==> resp == "OSW_OUT_OVERFLOW")
    ensures r.Fail? ==> r.error == ValueError || r.error == RuntimeError
  {
    if resp == "OSW_OUT_OK" then Pass
    else if resp == "OSW_OUT_OVERFLOW" then Fail(ValueError)
    else Fail(RuntimeError)
  }

  /** `reset()`'s verdict: only `OSW_OUT_OK` succeeds. */
  function ResetOutcome(resp: string): (r: Outcome<Error>)
    ensures r.Pass? <==> resp == "OSW_OUT_OK"
    ensures r.Fail? ==> r.error == RuntimeError
  {
    if resp == "OSW_OUT_OK" then Pass else Fail(RuntimeError)
  }

  /** Reset and switching agree on success; they differ only in how an overflow is
      reported. */
  lemma ResetAgreesWithClassify(resp: string)
    ensures ResetOutcome(resp).Pass? <==> Classify(resp).Pass?
    ensures resp != "OSW_OUT_OVERFLOW" ==> ResetOutcome(resp) == Classify(resp)
  {
  }

  /** The checks `set_channel` makes before it writes: a switch whose model has not
      been read has no channel count (a KeyError); the channel must be within
      1..channels. */
  function SetChannelFrame(info: Option<ModelInfo>, ch: int): (r: Result<string, Error>)
    ensures info.None? ==> r == Err(KeyError)
    ensures info.Some? ==> (r.Ok? <==> 1 <= ch <= info.value.channels)
    ensures info.Some? && r.Err? ==> r.error == ValueError
    ensures r.Ok? ==> ch >= 1 && r.value == Frame(SwitchCommand(ch))
  {
    match info
    case None => Err(KeyError)
    case Some(m) =>
      if !(1 <= ch <= m.channels) then Err(ValueError) else Ok(Frame(SwitchCommand(ch)))
  }

  /** `set_channel` never sends the reset command, nor a channel past the count. */
  lemma SetChannelNeverResets(info: Option<ModelInfo>, ch: int)
    requires SetChannelFrame(info, ch).Ok?
    ensures SetChannelFrame(info, ch).value != Frame(SwitchCommand(0))
    ensures SetChannelFrame(info, 0).Err?
    ensures SetChannelFrame(info, info.value.channels + 1).Err?
  {
    if SetChannelFrame(info, ch).value == Frame(SwitchCommand(0)) {
      assert SwitchCommand(ch) == Frame(SwitchCommand(ch))[1..|Frame(SwitchCommand(ch))| - 1];
      assert SwitchCommand(0) == Frame(SwitchCommand(0))[1..|Frame(SwitchCommand(0))| - 1];
      SwitchCommandInjective(ch, 0);
    }
  }

  /** `get_channel`'s reading of a reply: it must start with `OSW_OUT_`, and what is
      left after removing every `OSW_OUT_` must be an integer (a ValueError otherwise). */
  function ChannelOf(resp: string): (r: Result<int, Error>)
    ensures !(OutPrefix <= resp) ==> r == Err(RuntimeError)
    ensures OutPrefix <= resp ==> (r.Ok? <==> ParseInt(ReplaceAll(resp, OutPrefix, "")).Some?)
    ensures OutPrefix <= resp && r.Err? ==> r.error == ValueError
    ensures r.Ok? ==> Some(r.value) == ParseInt(ReplaceAll(resp, OutPrefix, ""))
  {
    if !(OutPrefix <= resp) then Err(RuntimeError)
    else match ParseInt(ReplaceAll(resp, OutPrefix, ""))
      case None => Err(ValueError)
      case Some(n) => Ok(n)
  }

  /** The channel reported in the form the switching command uses reads back as
      that channel; this includes 0, the reset state. */
  lemma ChannelOfSwitchCommand(ch: nat)
    ensures ChannelOf(SwitchCommand(ch)) == Ok(ch)
  {
    var digits := Pad2(ch);
    assert OutPrefix <= SwitchCommand(ch);
    ReplacePrefixAbsent(OutPrefix, digits, "");
    assert ReplaceAll(SwitchCommand(ch), OutPrefix, "") == digits;
    ParsePad2(ch);
  }

  /** The same through the framing: the reply `<OSW_OUT_nn` gives channel nn. */
  lemma GetChannelRoundTrip(ch: nat)
    ensures ChannelOf(Unframe(Frame(SwitchCommand(ch))[..|SwitchCommand(ch)| + 1])) == Ok(ch)
  {
    var body := SwitchCommand(ch);
    var d := Pad2(ch);
    assert body[|body| - 1] == d[|d| - 1];
    assert Trimmed(body);
    UnframeFrame(body);
    ChannelOfSwitchCommand(ch);
  }

  class Switch {
    /** Every frame written to the serial line, oldest first. */
    var log: seq<string>
    /** `model_info`; `None` while it is still the empty dictionary. */
    var modelInfo: Option<ModelInfo>

    constructor()
      ensures log == [] && modelInfo == None
    {
      log := [];
      modelInfo := None;
    }

    /** `idn()`: `raw` is the reply to `<OSW_TYPE_?>`. */
    method Idn(raw: string) returns (r: Result<string, Error>)
      modifies this`log
      ensures r == IdnOf(raw)
      ensures log == old(log) + [Frame("OSW_TYPE_?")]
    {
      log := log + [Frame("OSW_TYPE_?")];
      r := IdnOf(raw);
    }

    /** `__update_info`: on success the parsed info replaces `model_info`. */
    method UpdateInfo(idn: string) returns (r: Result<ModelInfo, Error>)
      modifies this`modelInfo
      ensures r == ParseModelInfo(idn) && log == old(log)
      ensures r.Ok? ==> modelInfo == Some(r.value)
      ensures r.Err? ==> modelInfo == old(modelInfo)
    {
      r := ParseModelInfo(idn);
      if r.Ok? {
        modelInfo := Some(r.value);
      }
    }

    /** The identification at start-up: any failure of `idn()` or of the parse is
        reported as a RuntimeError. */
    method Connect(raw: string) returns (r: Outcome<Error>)
      modifies this
      ensures log == old(log) + [Frame("OSW_TYPE_?")]
      ensures r.Pass? <==> IdnOf(raw).Ok? && ParseModelInfo(IdnOf(raw).value).Ok?
      ensures r.Pass? ==> modelInfo == Some(ParseModelInfo(IdnOf(raw).value).value)
      ensures r.Fail? ==> r.error == RuntimeError && modelInfo == old(modelInfo)
    {
      var idn := Idn(raw);
      if idn.Err? {
        return Fail(RuntimeError);
      }
      var info := UpdateInfo(idn.value);
      if info.Err? {
        return Fail(RuntimeError);
      }
      r := Pass;
    }

    /** `reset()`: `raw` is the reply to `<OSW_OUT_00>`. */
    method Reset(raw: string) returns (r: Outcome<Error>)
      modifies this`log
      ensures r == ResetOutcome(Unframe(raw))
      ensures log == old(log) + [Frame(SwitchCommand(0))]
    {
      var body := Unframe(raw);
      log := log + [Frame(SwitchCommand(0))];
      r := ResetOutcome(body);
    }

    /** `set_channel(channel)`: `raw` is the reply to the switching command. */
    method SetChannel(ch: int, raw: string) returns (r: Outcome<Error>)
      modifies this`log
      ensures SetChannelFrame(modelInfo, ch).Err? ==>
        r == Fail(SetChannelFrame(modelInfo, ch).error) && log == old(log)
      ensures SetChannelFrame(modelInfo, ch).Ok? ==>
        r == Classify(Unframe(raw)) && log == old(log) + [Frame(SwitchCommand(ch))]
    {
      var frame := SetChannelFrame(modelInfo, ch);
      if frame.Err? {
        return Fail(frame.error);
      }
      log := log + [frame.value];
      r := Classify(Unframe(raw));
    }

    /** `get_channel()`: `raw` is the reply to `<OSW_OUT_?>`. */
    method GetChannel(raw: string) returns (r: Result<int, Error>)
      modifies this`log
      ensures r == ChannelOf(Unframe(raw))
      ensures log == old(log) + [Frame("OSW_OUT_?")]
    {
      log := log + [Frame("OSW_OUT_?")];
      var body := Unframe(raw);
      r := ChannelOf(body);
    }
  }
}
