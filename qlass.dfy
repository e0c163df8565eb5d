/** The QLASS 16-channel current driver: the full-scale-range (FSR) lookup, the
    mA-to-DAC conversion, the `$Dcc,level` command and the autoupdate rule.
    Serial transport is not modelled: a query's reply is a parameter, and the driver
    keeps a log of the commands that change the board's state. */
module Qlass {
  import opened Outcomes
  import opened Text

  datatype Error = ValueError | RuntimeError | TypeError

  const NumChannels: int := 16
  /** `2**16 - 1`, the DAC's full-scale count. */
  const FullScale: int := 65535

  /** The compliance (mA) selected by an FSR code, for the three codes the board has. */
  function Compliance(code: int): (mA: real)
    requires 0 <= code <= 2
    ensures 0.0 < mA <= 47.72
  {
    if code == 0 then 2.77 else if code == 1 then 25.0 else 47.72
  }

  /** The `range` property: the reply to `$F?` read with `int()`; a code other than
      0, 1 or 2 is a RuntimeError. */
  function Range(reply: string): (r: Result<real, Error>)
    ensures r.Ok? <==> ParseInt(reply).Some? && 0 <= ParseInt(reply).value <= 2
    ensures r.Ok? ==> r.value == Compliance(ParseInt(reply).value)
    ensures r.Err? ==> r.error == (if ParseInt(reply).None? then ValueError else RuntimeError)
  {
    match ParseInt(reply)
    case None => Err(ValueError)
    case Some(code) => if 0 <= code <= 2 then Ok(Compliance(code)) else Err(RuntimeError)
  }

  /** The board answering its FSR code in decimal gives back that code's compliance;
      any larger code is refused. */
  lemma RangeOfCode(code: nat)
    ensures code == 0 ==> Range(NatToString(code)) == Ok(2.77)
    ensures code == 1 ==> Range(NatToString(code)) == Ok(25.0)
    ensures code == 2 ==> Range(NatToString(code)) == Ok(47.72)
    ensures code > 2 ==> Range(NatToString(code)) == Err(RuntimeError)
  {
    ParseNatToString(code);
  }

  /** `int(val / max_current * (2**16 - 1))` for an accepted value: the DAC level is
      the largest one whose current does not exceed `val`. */
  function DacLevel(val: real, maxCurrent: real): (level: int)
    requires 0.0 < maxCurrent && 0.0 <= val < maxCurrent
    ensures 0 <= level <= FullScale - 1
    ensures LevelCurrent(level, maxCurrent) <= val < LevelCurrent(level + 1, maxCurrent)
  {
    var x := val / maxCurrent * FullScale as real;
    DacBounds(val, maxCurrent, x, x.Floor);
    x.Floor
  }

  /** The current (mA) a DAC level stands for, `level * max / 65535`. */
  function LevelCurrent(level: int, maxCurrent: real): real {
    level as real * maxCurrent / FullScale as real
  }

  lemma DacBounds(val: real, maxCurrent: real, x: real, k: int)
    requires 0.0 < maxCurrent && 0.0 <= val < maxCurrent
    requires x == val / maxCurrent * FullScale as real
    requires k == x.Floor
    ensures 0 <= k <= FullScale - 1
    ensures LevelCurrent(k, maxCurrent) <= val < LevelCurrent(k + 1, maxCurrent)
  {
    var f := FullScale as real;
    var m := maxCurrent;
    RatioBelowOne(val, m);
    MonotoneScaleStrict(val / m, 1.0, f);
    MonotoneScale(0.0, val / m, f);
    assert 0.0 <= x < f;
    assert k as real <= x < k as real + 1.0;
    ScaledProduct(val, m, f);
    assert x * m == val * f;
    DacBracket(val, m, f, x, k as real, k as real + 1.0);
  }

  /** From `x * m == val * f` and `lo <= x < hi`: `lo * m / f <= val < hi * m / f`. */
  lemma DacBracket(val: real, m: real, f: real, x: real, lo: real, hi: real)
    requires 0.0 < m && 0.0 < f && x * m == val * f
    requires lo <= x < hi
    ensures lo * m / f <= val < hi * m / f
  {
    var p := val * f;
    MonotoneScale(lo, x, m);
    MonotoneScaleStrict(x, hi, m);
    DivideBoth(lo * m, p, f);
    DivideBothStrict(p, hi * m, f);
    CancelFactor(val, f);
  }

  lemma CancelFactor(v: real, f: real)
    requires 0.0 < f
    ensures v * f / f == v
  {
  }

  lemma RatioBelowOne(v: real, m: real)
    requires 0.0 <= v < m
    ensures 0.0 <= v / m < 1.0
  {
    var q := v / m;
    assert v == q * m;
    if q >= 1.0 {
      MonotoneScale(1.0, q, m);
    }
    if q < 0.0 {
      MonotoneScaleStrict(q, 0.0, m);
    }
  }

  lemma ScaledProduct(v: real, m: real, f: real)
    requires 0.0 < m
    ensures (v / m * f) * m == v * f
  {
    var q := v / m;
    assert q * m == v;
    assert (q * f) * m == (q * m) * f;
  }

  lemma DivideBoth(a: real, b: real, f: real)
    requires a <= b && 0.0 < f
    ensures a / f <= b / f
  {
  }

  lemma DivideBothStrict(a: real, b: real, f: real)
    requires a < b && 0.0 < f
    ensures a / f < b / f
  {
  }

  lemma MonotoneScale(a: real, b: real, m: real)
    requires a <= b && 0.0 < m
    ensures a * m <= b * m
  {
  }

  lemma MonotoneScaleStrict(a: real, b: real, m: real)
    requires a < b && 0.0 < m
    ensures a * m < b * m
  {
  }

  /** Half the top compliance lands exactly between two DAC levels and is truncated. */
  lemma DacExample()
    ensures DacLevel(23.86, 47.72) == 32767
  {
    assert 23.86 / 47.72 == 0.5;
  }

  /** Converting a level to mA and back gives the level again: the two
      conversions are inverse on levels below full scale. */
  lemma DacOfLevelCurrent(level: int, maxCurrent: real)
    requires 0 <= level < FullScale && 0.0 < maxCurrent
    ensures 0.0 <= LevelCurrent(level, maxCurrent) < maxCurrent
    ensures DacLevel(LevelCurrent(level, maxCurrent), maxCurrent) == level
  {
    var f := FullScale as real;
    var v := LevelCurrent(level, maxCurrent);
    assert v == level as real / f * maxCurrent;
    MonotoneScaleStrict(level as real / f, 1.0, maxCurrent);
    assert v / maxCurrent * f == level as real;
  }

  /** `f'$D{ch:02d},{level}'` */
  function DacCommand(ch: nat, level: nat): (cmd: string)
    ensures "$D" <= cmd && |Split(cmd[2..], ',')| == 2
    ensures AllDigits(Split(cmd[2..], ',')[0]) && AllDigits(Split(cmd[2..], ',')[1])
  {
    SplitDacBody(ch, level);
    var cmd := "$D" + Pad2(ch) + "," + NatToString(level);
    assert cmd[2..] == Pad2(ch) + "," + NatToString(level);
    cmd
  }

  /** How the board reads a `$D` command: the prefix, then the channel and the level
      as decimal numbers separated by one comma. */
  function ParseDacCommand(cmd: string): (r: Option<(int, int)>)
    ensures r.Some? ==> "$D" <= cmd && |Split(cmd[2..], ',')| == 2
  {
    if !("$D" <= cmd) then None
    else
      var parts := Split(cmd[2..], ',');
      if |parts| != 2 then None
      else match (ParseInt(parts[0]), ParseInt(parts[1]))
        case (Some(c), Some(l)) => Some((c, l))
        case _ => None
  }

  lemma DigitsNoComma(s: string)
    requires AllDigits(s)
    ensures ',' !in s
  {
  }

  /** The board reads back exactly the channel and level the driver formatted. */
  lemma ParseDacCommandRoundTrip(ch: nat, level: nat)
    ensures ParseDacCommand(DacCommand(ch, level)) == Some((ch as int, level as int))
  {
    var cmd := DacCommand(ch, level);
    var body := Pad2(ch) + "," + NatToString(level);
    assert cmd == "$D" + body;
    assert "$D" <= cmd;
    assert cmd[2..] == body;
    SplitDacBody(ch, level);
    ParsePad2(ch);
    ParseNatToString(level);
  }

  lemma SplitDacBody(ch: nat, level: nat)
    ensures Split(Pad2(ch) + "," + NatToString(level), ',') == [Pad2(ch), NatToString(level)]
  {
    DigitsNoComma(Pad2(ch));
    DigitsNoComma(NatToString(level));
    SplitAfterPart(Pad2(ch), ',', NatToString(level));
    SplitNoSep(NatToString(level), ',');
  }

  /** Different channels or levels give different commands. */
  lemma DacCommandInjective(ch1: nat, level1: nat, ch2: nat, level2: nat)
    requires DacCommand(ch1, level1) == DacCommand(ch2, level2)
    ensures ch1 == ch2 && level1 == level2
  {
    ParseDacCommandRoundTrip(ch1, level1);
    ParseDacCommandRoundTrip(ch2, level2);
  }

  predicate ValidChannel(ch: int) { 0 <= ch < NumChannels }

  /** The checks and the command of `set_current`: the range is read first, then the
      channel and the value are checked, the value against a strict upper bound. */
  function CurrentCommand(ch: int, val: real, fsrReply: string): (r: Result<string, Error>)
    ensures Range(fsrReply).Err? ==> r == Err(Range(fsrReply).error)
    ensures Range(fsrReply).Ok? ==>
      (r.Ok? <==> ValidChannel(ch) && 0.0 <= val < Range(fsrReply).value)
    ensures Range(fsrReply).Ok? && r.Err? ==> r.error == ValueError
    ensures r.Ok? ==> ValidChannel(ch)
    ensures r.Ok? ==>
      ParseDacCommand(r.value) == Some((ch, DacLevel(val, Range(fsrReply).value)))
  {
    match Range(fsrReply)
    case Err(e) => Err(e)
    case Ok(maxCurrent) =>
      if !ValidChannel(ch) || val < 0.0 || val >= maxCurrent then Err(ValueError)
      else
        ParseDacCommandRoundTrip(ch, DacLevel(val, maxCurrent));
        Ok(DacCommand(ch, DacLevel(val, maxCurrent)))
  }

  /** A value equal to the compliance is refused. */
  lemma ComplianceItselfRejected(ch: int, fsrReply: string)
    requires Range(fsrReply).Ok?
    ensures CurrentCommand(ch, Range(fsrReply).value, fsrReply) == Err(ValueError)
  {
  }

  /** The checks and the command of `set_current_level`: the range is still read
      (and may fail), the level is sent unchanged. */
  function LevelCommand(ch: int, level: int, fsrReply: string): (r: Result<string, Error>)
    ensures Range(fsrReply).Err? ==> r == Err(Range(fsrReply).error)
    ensures Range(fsrReply).Ok? ==>
      (r.Ok? <==> ValidChannel(ch) && 0 <= level <= FullScale)
    ensures Range(fsrReply).Ok? && r.Err? ==> r.error == ValueError
    ensures r.Ok? ==> ParseDacCommand(r.value) == Some((ch, level))
  {
    match Range(fsrReply)
    case Err(e) => Err(e)
    case Ok(_) =>
      if !ValidChannel(ch) || level < 0 || level >= FullScale + 1 then Err(ValueError)
      else
        ParseDacCommandRoundTrip(ch, level);
        Ok(DacCommand(ch, level))
  }

  /** The two setters agree: setting a current sends the command that setting its
      DAC level would send, and the level never reaches full scale. */
  lemma CurrentIsLevel(ch: int, val: real, fsrReply: string)
    requires Range(fsrReply).Ok? && ValidChannel(ch) && 0.0 <= val < Range(fsrReply).value
    ensures DacLevel(val, Range(fsrReply).value) < FullScale
    ensures CurrentCommand(ch, val, fsrReply) ==
      LevelCommand(ch, DacLevel(val, Range(fsrReply).value), fsrReply)
  {
  }

  /** Commands that follow a delivered `$D`: `update()` runs only when autoupdate is on
      and the board did not answer `Ready`. */
  function AfterDelivery(boardReply: string, autoupdate: bool): (cmds: seq<string>)
    ensures cmds == [] || cmds == ["$U"]
    ensures cmds == ["$U"] <==> autoupdate && boardReply != "Ready"
  {
    if boardReply != "Ready" && autoupdate then ["$U"] else []
  }

  /** `set_current` and `set_current_level` as written call the float that the `range`
      property returns, so once the range has been read they always fail with a
      TypeError. */
  function SetterAsWritten(fsrReply: string): (r: Result<string, Error>)
    ensures r.Err?
    ensures Range(fsrReply).Err? ==> r == Err(Range(fsrReply).error)
    ensures Range(fsrReply).Ok? ==> r == Err(TypeError)
  {
    match Range(fsrReply)
    case Err(e) => Err(e)
    case Ok(_) => Err(TypeError)
  }

  /** Inputs both setters' checks accept, which the code as written nevertheless refuses. */
  lemma SetterAsWrittenRejectsValid()
    ensures CurrentCommand(3, 10.0, "2").Ok?
    ensures LevelCommand(3, 100, "2").Ok?
    ensures SetterAsWritten("2") == Err(TypeError)
  {
    RangeOfCode(2);
    assert NatToString(2) == "2";
  }

  class CurrentDriver {
    /** Commands sent to the board that change its state (`$D…`, `$U`). */
    var log: seq<string>
    var doAutoupdate: bool

    constructor(doAutoupdate: bool)
      ensures this.doAutoupdate == doAutoupdate && log == []
    {
      this.doAutoupdate := doAutoupdate;
      log := [];
    }

    /** `update()`: sends `$U` and returns the board's reply. */
    method Update(reply: string) returns (r: string)
      modifies this
      ensures r == reply
      ensures log == old(log) + ["$U"] && doAutoupdate == old(doAutoupdate)
    {
      log := log + ["$U"];
      r := reply;
    }

    method Deliver(cmd: string, boardReply: string, updateReply: string)
      modifies this
      ensures log == old(log) + [cmd] + AfterDelivery(boardReply, doAutoupdate)
      ensures doAutoupdate == old(doAutoupdate)
    {
      log := log + [cmd];
      if boardReply != "Ready" && doAutoupdate {
        var _ := Update(updateReply);
      }
    }

    /** `set_current(ch, val)`: the board's reply is returned unchanged. */
    method SetCurrent(ch: int, val: real, fsrReply: string, boardReply: string, updateReply: string)
      returns (r: Result<string, Error>)
      modifies this
      ensures doAutoupdate == old(doAutoupdate)
      ensures CurrentCommand(ch, val, fsrReply).Err? ==>
        r == Err(CurrentCommand(ch, val, fsrReply).error) && log == old(log)
      ensures CurrentCommand(ch, val, fsrReply).Ok? ==>
        r == Ok(boardReply) &&
        log == old(log) + [CurrentCommand(ch, val, fsrReply).value]
          + AfterDelivery(boardReply, doAutoupdate)
    {
      var cmd := CurrentCommand(ch, val, fsrReply);
      if cmd.Err? {
        return Err(cmd.error);
      }
      Deliver(cmd.value, boardReply, updateReply);
      r := Ok(boardReply);
    }

    /** `set_current_level(ch, val)` */
    method SetCurrentLevel(ch: int, level: int, fsrReply: string, boardReply: string, updateReply: string)
      returns (r: Result<string, Error>)
      modifies this
      ensures doAutoupdate == old(doAutoupdate)
      ensures LevelCommand(ch, level, fsrReply).Err? ==>
        r == Err(LevelCommand(ch, level, fsrReply).error) && log == old(log)
      ensures LevelCommand(ch, level, fsrReply).Ok? ==>
        r == Ok(boardReply) &&
        log == old(log) + [LevelCommand(ch, level, fsrReply).value]
          + AfterDelivery(boardReply, doAutoupdate)
    {
      var cmd := LevelCommand(ch, level, fsrReply);
      if cmd.Err? {
        return Err(cmd.error);
      }
      Deliver(cmd.value, boardReply, updateReply);
      r := Ok(boardReply);
    }
  }
}
