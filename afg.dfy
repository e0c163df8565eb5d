/** The Tektronix AFG3011C function generator: the waveform, frequency, amplitude,
    offset and output-impedance setters. Each setter reads what it depends on from the
    instrument (the function, the impedance, the other half of amplitude/offset),
    checks its argument against the class tables and either refuses or writes one
    command. The instrument's replies are parameters. */
module Afg {
  import opened Outcomes
  import opened Text
  import opened Scpi

  datatype Error = ValueError | KeyError

  const Functions: set<string> := {"SIN", "SQU", "RAMP", "PULS", "PRN", "DC"}
  const ImpedanceModes: set<string> := {"50", "INF"}

  /** `__FREQ_RANGE`: the (min, max) frequency in Hz of each function. */
  function FreqRange(func: string): (r: Option<(real, real)>)
    ensures r.Some? <==> func in Functions
    ensures r.Some? && func != "DC" ==> 0.0 < r.value.0 < r.value.1 <= 10_000_000.0
  {
    match func
    case "SIN" => Some((0.000001, 10_000_000.0))
    case "SQU" => Some((0.000001, 5_000_000.0))
    case "RAMP" => Some((0.000001, 100_000.0))
    case "PULS" => Some((0.001, 5_000_000.0))
    case "PRN" => Some((0.000001, 10_000_000.0))
    case "DC" => Some((0.0, 0.0))
    case _ => None
  }

  /** `__V_LIMIT`: the output voltage limit (V) for an impedance mode. */
  function VoltageLimit(impedance: string): (r: Option<real>)
    ensures r.Some? <==> impedance in ImpedanceModes
    ensures r.Some? ==> r.value == (if impedance == "50" then 10.0 else 20.0)
  {
    match impedance
    case "50" => Some(10.0)
    case "INF" => Some(20.0)
    case _ => None
  }

  /** `__AMPL_MIN`: the smallest amplitude (Vpp) for an impedance mode. */
  function AmplitudeMin(impedance: string): (r: Option<real>)
    ensures r.Some? <==> impedance in ImpedanceModes
    ensures r.Some? ==> r.value == (if impedance == "50" then 0.02 else 0.04)
  {
    match impedance
    case "50" => Some(0.02)
    case "INF" => Some(0.04)
    case _ => None
  }

  /** The source's combined check on offset and amplitude, as it is written:
      neither `offset + ampl/2 > vlimit` nor `offset - ampl/2 < -vlimit`. */
  predicate WithinVoltageLimit(offset: real, ampl: real, vlimit: real) {
    !((offset + ampl / 2.0) > vlimit || (offset - ampl / 2.0) < -vlimit)
  }

  function Abs(x: real): real { if x < 0.0 then -x else x }

  /** For a non-negative amplitude the check is `|offset| + ampl/2 <= vlimit`, the
      form the setters' documentation gives. */
  lemma VoltageLimitAbs(offset: real, ampl: real, vlimit: real)
    requires ampl >= 0.0
    ensures WithinVoltageLimit(offset, ampl, vlimit) <==> Abs(offset) + ampl / 2.0 <= vlimit
  {
  }

  /** The check does not care about the sign of the offset. */
  lemma VoltageLimitSymmetric(offset: real, ampl: real, vlimit: real)
    ensures WithinVoltageLimit(offset, ampl, vlimit) <==> WithinVoltageLimit(-offset, ampl, vlimit)
  {
  }

  /** A smaller non-negative amplitude, or a larger limit, stays within the limit. */
  lemma VoltageLimitMonotone(offset: real, ampl: real, ampl': real, vlimit: real, vlimit': real)
    requires WithinVoltageLimit(offset, ampl, vlimit)
    requires 0.0 <= ampl' <= ampl && vlimit <= vlimit'
    ensures WithinVoltageLimit(offset, ampl', vlimit')
  {
  }

  /** `get_output_impedance`: the stripped reply, with the instrument's numeric forms
      of high-Z and 50 Ω replaced by the mode names. */
  function NormaliseImpedance(reply: string): (mode: string)
    ensures Strip(reply) == "99.0e36" ==> mode == "INF"
    ensures Strip(reply) == "50e0" ==> mode == "50"
    ensures Strip(reply) != "99.0e36" && Strip(reply) != "50e0" ==> mode == Strip(reply)
  {
    var val := Strip(reply);
    if val == "99.0e36" then "INF" else if val == "50e0" then "50" else val
  }

  /** Reading a normalised reply again changes nothing. */
  lemma NormaliseIdempotent(reply: string)
    ensures NormaliseImpedance(NormaliseImpedance(reply)) == NormaliseImpedance(reply)
  {
    var val := Strip(reply);
    StripIdempotent(reply);
    if val == "99.0e36" {
      NormaliseName("INF");
    } else if val == "50e0" {
      NormaliseName("50");
    }
  }

  /** The instrument's own answers for the two modes read as those modes. */
  lemma NormaliseKnownReplies()
    ensures NormaliseImpedance("99.0e36") == "INF"
    ensures NormaliseImpedance("50e0") == "50"
  {
    StripTrimmed("99.0e36");
    StripTrimmed("50e0");
  }

  /** A mode name, or any other text without surrounding spaces, passes through. */
  lemma NormaliseName(name: string)
    requires Trimmed(name) && name != "99.0e36" && name != "50e0"
    ensures NormaliseImpedance(name) == name
  {
    StripTrimmed(name);
  }

  /** `set_function`: the upper-cased name must be one of the six functions. */
  function FunctionCommand(func: string): (r: Result<Command, Error>)
    ensures r.Ok? <==> ToUpper(func) in Functions
    ensures r.Err? ==> r.error == ValueError
    ensures r.Ok? ==>
      (r.value.header == "SOUR1:FUNC" && r.value.arg.Word?
       && r.value.arg.word in Functions && r.value.arg.word == ToUpper(func))
  {
    var name := ToUpper(func);
    if name !in Functions then Err(ValueError) else Ok(Command("SOUR1:FUNC", Word(name)))
  }

  /** Capitalisation of the argument does not matter. */
  lemma FunctionCaseInsensitive(func: string)
    ensures FunctionCommand(ToLower(func)) == FunctionCommand(func)
  {
    UpperOfLower(func);
  }

  /** `set_frequency`: the function is read back and upper-cased; DC always refuses,
      an unknown function is a KeyError, otherwise the frequency must lie within that
      function's range, both ends included. */
  function FrequencyCommand(freq: real, funcReply: string): (r: Result<Command, Error>)
    ensures ToUpper(Strip(funcReply)) == "DC" ==> r == Err(ValueError)
    ensures ToUpper(Strip(funcReply)) !in Functions ==> r == Err(KeyError)
    ensures r.Ok? <==>
      (ToUpper(Strip(funcReply)) in Functions - {"DC"}
       && FreqRange(ToUpper(Strip(funcReply))).value.0 <= freq
       && freq <= FreqRange(ToUpper(Strip(funcReply))).value.1)
    ensures r.Ok? ==> r.value == Command("SOUR1:FREQ", Num(freq))
  {
    var func := ToUpper(Strip(funcReply));
    if func == "DC" then Err(ValueError)
    else match FreqRange(func)
      case None => Err(KeyError)
      case Some((fmin, fmax)) =>
        if !(fmin <= freq <= fmax) then Err(ValueError) else Ok(Command("SOUR1:FREQ", Num(freq)))
  }

  /** No function allows a frequency outside 1 µHz .. 10 MHz. */
  lemma FrequencyGlobalBounds(freq: real, funcReply: string)
    requires FrequencyCommand(freq, funcReply).Ok?
    ensures 0.000001 <= freq <= 10_000_000.0
  {
  }

  /** The impedance mode the amplitude and offset setters work with. */
  function ImpedanceMode(impReply: string): (mode: string)
    ensures |mode| == |NormaliseImpedance(impReply)|
    ensures forall i :: 0 <= i < |mode| ==> !('a' <= mode[i] <= 'z')
  {
    ToUpper(NormaliseImpedance(impReply))
  }

  /** `set_amplitude`: a mode without a table entry is a KeyError, an amplitude below
      the mode's minimum is refused, then amplitude and the current offset are checked
      together against the mode's voltage limit. */
  function AmplitudeCommand(ampl: real, impReply: string, offset: real): (r: Result<Command, Error>)
    ensures ImpedanceMode(impReply) !in ImpedanceModes ==> r == Err(KeyError)
    ensures ImpedanceMode(impReply) in ImpedanceModes ==>
      (r.Ok? <==>
        (AmplitudeMin(ImpedanceMode(impReply)).value <= ampl
         && WithinVoltageLimit(offset, ampl, VoltageLimit(ImpedanceMode(impReply)).value)))
    ensures ImpedanceMode(impReply) in ImpedanceModes && r.Err? ==> r.error == ValueError
    ensures r.Ok? ==> r.value == Command("SOUR1:VOLT", Num(ampl))
  {
    var impedance := ImpedanceMode(impReply);
    match AmplitudeMin(impedance)
    case None => Err(KeyError)
    case Some(amin) =>
      if !(amin <= ampl) then Err(ValueError)
      else if !WithinVoltageLimit(offset, ampl, VoltageLimit(impedance).value) then Err(ValueError)
      else Ok(Command("SOUR1:VOLT", Num(ampl)))
  }

  /** `set_offset`: the same combined check, against the current amplitude. */
  function OffsetCommand(offset: real, impReply: string, ampl: real): (r: Result<Command, Error>)
    ensures ImpedanceMode(impReply) !in ImpedanceModes ==> r == Err(KeyError)
    ensures ImpedanceMode(impReply) in ImpedanceModes ==>
      (r.Ok? <==> WithinVoltageLimit(offset, ampl, VoltageLimit(ImpedanceMode(impReply)).value))
    ensures ImpedanceMode(impReply) in ImpedanceModes && r.Err? ==> r.error == ValueError
    ensures r.Ok? ==> r.value == Command("SOUR1:VOLT:OFFS", Num(offset))
  {
    var impedance := ImpedanceMode(impReply);
    match VoltageLimit(impedance)
    case None => Err(KeyError)
    case Some(vlimit) =>
      if !WithinVoltageLimit(offset, ampl, vlimit) then Err(ValueError)
      else Ok(Command("SOUR1:VOLT:OFFS", Num(offset)))
  }

  /** The two setters enforce one constraint: an amplitude accepted with some
      offset means that offset is accepted with that amplitude, and the converse holds
      whenever the amplitude meets the mode's minimum. */
  lemma AmplitudeOffsetAgree(ampl: real, impReply: string, offset: real)
    ensures AmplitudeCommand(ampl, impReply, offset).Ok? ==>
      OffsetCommand(offset, impReply, ampl).Ok?
    ensures
      (OffsetCommand(offset, impReply, ampl).Ok? && ImpedanceMode(impReply) in ImpedanceModes
       && AmplitudeMin(ImpedanceMode(impReply)).value <= ampl) ==>
      AmplitudeCommand(ampl, impReply, offset).Ok?
  {
  }

  /** The mode the amplitude and offset setters see for each of the instrument's
      possible answers. */
  lemma ModeOfReply()
    ensures ImpedanceMode("50") == "50" && ImpedanceMode("50e0") == "50"
    ensures ImpedanceMode("INF") == "INF" && ImpedanceMode("99.0e36") == "INF"
  {
    ModeOfFifty();
    ModeOfInf();
  }

  /** A reply normalised to an upper-case name reads as that name. */
  lemma ModeOfNormalised(reply: string, name: string)
    requires NormaliseImpedance(reply) == name
    requires forall i :: 0 <= i < |name| ==> !('a' <= name[i] <= 'z')
    ensures ImpedanceMode(reply) == name
  {
    UpperFixed(name);
  }

  lemma ModeOfFifty()
    ensures ImpedanceMode("50") == "50" && ImpedanceMode("50e0") == "50"
  {
    var fifty := "50";
    NormaliseName(fifty);
    ModeOfNormalised(fifty, fifty);
    NormaliseKnownReplies();
    ModeOfNormalised("50e0", fifty);
  }

  lemma ModeOfInf()
    ensures ImpedanceMode("INF") == "INF" && ImpedanceMode("99.0e36") == "INF"
  {
    var inf := "INF";
    NormaliseName(inf);
    ModeOfNormalised(inf, inf);
    NormaliseKnownReplies();
    ModeOfNormalised("99.0e36", inf);
  }

  /** At 50 Ω, an offset of 9.5 V with 2 Vpp amplitude would peak at 10.5 V and is refused. */
  lemma OffsetExample()
    ensures OffsetCommand(9.5, "50", 2.0) == Err(ValueError)
    ensures OffsetCommand(9.0, "50", 2.0).Ok?
  {
    ModeOfReply();
  }

  /** 20 mVpp is the least amplitude at 50 Ω. */
  lemma AmplitudeMinimumExample()
    ensures AmplitudeCommand(0.02, "50", 0.0).Ok?
    ensures AmplitudeCommand(0.019, "50", 0.0) == Err(ValueError)
  {
    ModeOfReply();
  }

  /** At high-Z the least amplitude is 40 mVpp, however the instrument spells the mode. */
  lemma AmplitudeMinimumHighZ()
    ensures AmplitudeCommand(0.03, "INF", 0.0) == Err(ValueError)
    ensures AmplitudeCommand(0.03, "99.0e36", 0.0) == Err(ValueError)
  {
    ModeOfReply();
  }

  /** `set_output_impedance`: the upper-cased mode must be "50" or "INF". */
  function ImpedanceCommand(mode: string): (r: Result<Command, Error>)
    ensures r.Ok? <==> ToUpper(mode) in ImpedanceModes
    ensures r.Err? ==> r.error == ValueError
    ensures r.Ok? ==> r.value == Command("OUTP1:IMP", Word(ToUpper(mode)))
  {
    var m := ToUpper(mode);
    if m !in ImpedanceModes then Err(ValueError) else Ok(Command("OUTP1:IMP", Word(m)))
  }

  /** A mode the impedance setter accepts is one the amplitude and offset setters find in
      their tables when the instrument answers with the name it was given. */
  lemma ImpedanceModeReadBack(mode: string)
    requires ImpedanceCommand(mode).Ok?
    ensures ImpedanceMode(ImpedanceCommand(mode).value.arg.word) in ImpedanceModes
  {
    var w := ImpedanceCommand(mode).value.arg.word;
    assert w == "50" || w == "INF";
    if w == "50" {
      ModeOfFifty();
    } else {
      ModeOfInf();
    }
  }

  class FunctionGenerator {
    /** The commands written to the instrument, oldest first. */
    var log: seq<Command>

    constructor()
      ensures log == []
    {
      log := [];
    }

    method Send(cmd: Result<Command, Error>) returns (r: Outcome<Error>)
      modifies this
      ensures cmd.Err? ==> r == Fail(cmd.error) && log == old(log)
      ensures cmd.Ok? ==> r == Pass && log == old(log) + [cmd.value]
    {
      if cmd.Err? {
        return Fail(cmd.error);
      }
      log := log + [cmd.value];
      r := Pass;
    }

    method SetFunction(func: string) returns (r: Outcome<Error>)
      modifies this
      ensures FunctionCommand(func).Err? ==> r == Fail(ValueError) && log == old(log)
      ensures FunctionCommand(func).Ok? ==> r == Pass && log == old(log) + [FunctionCommand(func).value]
    {
      r := Send(FunctionCommand(func));
    }

    method SetFrequency(freq: real, funcReply: string) returns (r: Outcome<Error>)
      modifies this
      ensures FrequencyCommand(freq, funcReply).Err? ==>
        r == Fail(FrequencyCommand(freq, funcReply).error) && log == old(log)
      ensures FrequencyCommand(freq, funcReply).Ok? ==>
        r == Pass && log == old(log) + [Command("SOUR1:FREQ", Num(freq))]
    {
      r := Send(FrequencyCommand(freq, funcReply));
    }

    method SetAmplitude(ampl: real, impReply: string, offset: real) returns (r: Outcome<Error>)
      modifies this
      ensures AmplitudeCommand(ampl, impReply, offset).Err? ==>
        r == Fail(AmplitudeCommand(ampl, impReply, offset).error) && log == old(log)
      ensures AmplitudeCommand(ampl, impReply, offset).Ok? ==>
        r == Pass && log == old(log) + [Command("SOUR1:VOLT", Num(ampl))]
    {
      r := Send(AmplitudeCommand(ampl, impReply, offset));
    }

    method SetOffset(offset: real, impReply: string, ampl: real) returns (r: Outcome<Error>)
      modifies this
      ensures OffsetCommand(offset, impReply, ampl).Err? ==>
        r == Fail(OffsetCommand(offset, impReply, ampl).error) && log == old(log)
      ensures OffsetCommand(offset, impReply, ampl).Ok? ==>
        r == Pass && log == old(log) + [Command("SOUR1:VOLT:OFFS", Num(offset))]
    {
      r := Send(OffsetCommand(offset, impReply, ampl));
    }

    method SetOutputImpedance(mode: string) returns (r: Outcome<Error>)
      modifies this
      ensures ImpedanceCommand(mode).Err? ==> r == Fail(ValueError) && log == old(log)
      ensures ImpedanceCommand(mode).Ok? ==>
        r == Pass && log == old(log) + [ImpedanceCommand(mode).value]
    {
      r := Send(ImpedanceCommand(mode));
    }
  }
}
