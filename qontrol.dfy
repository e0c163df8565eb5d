/** The Qontrol Q8iv current/voltage driver: the channel and value checks, the
    per-channel set-point registers written in a loop with out-of-range values
    clamped to zero, the compliance limits, zeroing all outputs and closing. The
    board's registers are modelled as two arrays, one per output kind. */
module Qontrol {
  import opened Outcomes
  import opened Text

  datatype Error = ValueError | RuntimeError | AttributeError

  /** `_init_mode`: `'i'` drives currents, `'v'` voltages. */
  datatype Mode = CurrentMode | VoltageMode

  /** The hardware compliance ceilings: 24 mA and 12 V. */
  const ImaxDefault: real := 24.0
  const VmaxDefault: real := 12.0

  /** The init-mode check: the argument is lower-cased and must then be `i` or `v`. */
  function InitMode(initMode: string): (r: Result<Mode, Error>)
    ensures r.Err? ==> r.error == ValueError
    ensures r == Ok(CurrentMode) <==> ToLower(initMode) == "i"
    ensures r == Ok(VoltageMode) <==> ToLower(initMode) == "v"
  {
    var mode := ToLower(initMode);
    if mode == "i" then Ok(CurrentMode)
    else if mode == "v" then Ok(VoltageMode)
    else Err(ValueError)
  }

  /** Exactly the four one-letter spellings are accepted. */
  lemma InitModeSpellings(initMode: string)
    ensures InitMode(initMode).Ok? <==> initMode in ["i", "I", "v", "V"]
  {
    if InitMode(initMode).Ok? {
      var low := ToLower(initMode);
      assert |low| == 1;
      assert low[0] == LowerChar(initMode[0]);
      assert initMode == [initMode[0]];
    }
  }

  /** The compliance check of `__init__` and `set_compliance`. */
  predicate ComplianceOk(imax: real, vmax: real) {
    0.0 < imax <= ImaxDefault && 0.0 < vmax <= VmaxDefault
  }

  predicate ValidChannel(ch: int, numChannels: nat) {
    0 <= ch < numChannels
  }

  /** What `__validate_chans_vals` accepts. */
  predicate ChansValsOk(chans: seq<int>, vals: seq<real>, numChannels: nat) {
    |chans| == |vals| && forall k :: 0 <= k < |chans| ==> ValidChannel(chans[k], numChannels)
  }

  /** The value written for a requested one: anything above the limit or below zero
      becomes zero. */
  function Clamp(x: real, limit: real): (r: real)
    ensures 0.0 <= x <= limit ==> r == x
    ensures !(0.0 <= x <= limit) ==> r == 0.0
    ensures limit >= 0.0 ==> 0.0 <= r <= limit
  {
    if x > limit || x < 0.0 then 0.0 else x
  }

  function ClampAll(vals: seq<real>, limit: real): (r: seq<real>)
    ensures |r| == |vals| && forall k :: 0 <= k < |vals| ==> r[k] == Clamp(vals[k], limit)
  {
    if vals == [] then [] else [Clamp(vals[0], limit)] + ClampAll(vals[1..], limit)
  }

  /** The registers after writing `vals[k]` to channel `chans[k]` for each k in turn. */
  function Written(out: seq<real>, chans: seq<int>, vals: seq<real>): (r: seq<real>)
    requires ChansValsOk(chans, vals, |out|)
    ensures |r| == |out|
  {
    if chans == [] then out
    else
      var n := |chans| - 1;
      Written(out, chans[..n], vals[..n])[chans[n] := vals[n]]
  }

  /** A channel that is not listed keeps its value. */
  lemma {:induction false} WrittenUnlisted(out: seq<real>, chans: seq<int>, vals: seq<real>, ch: int)
    requires ChansValsOk(chans, vals, |out|) && 0 <= ch < |out| && ch !in chans
    ensures Written(out, chans, vals)[ch] == out[ch]
  {
    if chans != [] {
      var n := |chans| - 1;
      assert ch !in chans[..n];
      WrittenUnlisted(out, chans[..n], vals[..n], ch);
    }
  }

  /** A channel listed more than once keeps the value of its last write. */
  lemma {:induction false} WrittenLastWins(out: seq<real>, chans: seq<int>, vals: seq<real>, j: int)
    requires ChansValsOk(chans, vals, |out|) && 0 <= j < |chans|
    requires forall k :: j < k < |chans| ==> chans[k] != chans[j]
    ensures Written(out, chans, vals)[chans[j]] == vals[j]
  {
    var n := |chans| - 1;
    if j < n {
      WrittenLastWins(out, chans[..n], vals[..n], j);
    }
  }

  /** Every listed channel holds one of the values written to it. */
  lemma {:induction false} WrittenListed(out: seq<real>, chans: seq<int>, vals: seq<real>, ch: int)
    requires ChansValsOk(chans, vals, |out|) && ch in chans
    ensures exists k :: 0 <= k < |chans| && chans[k] == ch && Written(out, chans, vals)[ch] == vals[k]
  {
    var n := |chans| - 1;
    if chans[n] != ch {
      assert ch in chans[..n] by {
        var i :| 0 <= i < |chans| && chans[i] == ch;
        assert chans[..n][i] == ch;
      }
      WrittenListed(out, chans[..n], vals[..n], ch);
      var k :| 0 <= k < n && chans[..n][k] == ch && Written(out, chans[..n], vals[..n])[ch] == vals[..n][k];
      assert chans[k] == ch && vals[k] == vals[..n][k];
    }
  }

  /** After a clamped write every listed channel lies within [0, limit]. */
  lemma WrittenClamped(out: seq<real>, chans: seq<int>, vals: seq<real>, limit: real, ch: int)
    requires ChansValsOk(chans, vals, |out|) && limit >= 0.0 && ch in chans
    ensures 0.0 <= Written(out, chans, ClampAll(vals, limit))[ch] <= limit
  {
    var clamped := ClampAll(vals, limit);
    WrittenListed(out, chans, clamped, ch);
    var k :| 0 <= k < |chans| && chans[k] == ch && Written(out, chans, clamped)[ch] == clamped[k];
    assert clamped[k] == Clamp(vals[k], limit);
  }

  /** `power`: the products of the voltage and current readings channel by channel,
      as far as the shorter reading goes. */
  function Power(volts: seq<real>, currents: seq<real>): (r: seq<real>)
    ensures |r| == if |volts| <= |currents| then |volts| else |currents|
    ensures forall k :: 0 <= k < |r| ==> r[k] == volts[k] * currents[k]
  {
    if volts == [] || currents == [] then [] else [volts[0] * currents[0]] + Power(volts[1..], currents[1..])
  }

  /** One entry of `resistance` in ohms, from volts and milliamps: a zero current
      gives no value, since the division fails. The value times the current gives
      back the voltage in mV. */
  function ResistanceOf(volts: real, current: real): (r: Option<real>)
    ensures r.None? <==> current == 0.0
    ensures r.Some? ==> r.value * current == 1000.0 * volts
  {
    if current == 0.0 then None else Some(1000.0 * volts / current)
  }

  /** `resistance`, built entry by entry over the paired readings. */
  method Resistance(volts: seq<real>, currents: seq<real>) returns (r: seq<Option<real>>)
    ensures |r| == |Power(volts, currents)|
    ensures forall k :: 0 <= k < |r| ==> r[k] == ResistanceOf(volts[k], currents[k])
  {
    var n := if |volts| <= |currents| then |volts| else |currents|;
    r := [];
    for k := 0 to n
      invariant |r| == k
      invariant forall m :: 0 <= m < k ==> r[m] == ResistanceOf(volts[m], currents[m])
    {
      r := r + [ResistanceOf(volts[k], currents[k])];
    }
  }

  class Q8iv {
    /** `num_channels`: the length of the board's current register list. */
    const numChannels: nat
    const mode: Mode
    /** The active compliance limits, in mA and V. */
    var imax: real
    var vmax: real
    /** Whether `_q` is still the open low-level connection. */
    var connected: bool
    /** The current (mA) and voltage (V) set-points of each channel. */
    const currents: array<real>
    const voltages: array<real>

    ghost predicate Valid()
      reads this
    {
      currents.Length == numChannels && voltages.Length == numChannels && currents != voltages
      && ComplianceOk(imax, vmax)
    }

    /** The successful `__init__`: the channel count is that of the registers read,
        the mode and compliance have passed their checks. */
    constructor(initMode: string, imax0: real, vmax0: real, currents0: seq<real>, voltages0: seq<real>)
      requires InitMode(initMode).Ok? && ComplianceOk(imax0, vmax0) && |voltages0| == |currents0|
      ensures Valid() && fresh(currents) && fresh(voltages)
      ensures numChannels == |currents0| && mode == InitMode(initMode).value
      ensures imax == imax0 && vmax == vmax0 && connected
      ensures currents[..] == currents0 && voltages[..] == voltages0
    {
      numChannels := |currents0|;
      mode := InitMode(initMode).value;
      imax, vmax := imax0, vmax0;
      connected := true;
      currents := new real[|currents0|](k requires 0 <= k < |currents0| => currents0[k]);
      voltages := new real[|voltages0|](k requires 0 <= k < |voltages0| => voltages0[k]);
    }

    /** `__validate_chans_vals`: the lengths must match, then each channel is checked. */
    method ValidateChansVals(chans: seq<int>, vals: seq<real>) returns (r: Outcome<Error>)
      ensures r.Pass? <==> ChansValsOk(chans, vals, numChannels)
      ensures r.Fail? ==> r.error == ValueError
    {
      if |chans| != |vals| {
        return Fail(ValueError);
      }
      for k := 0 to |chans|
        invariant forall m :: 0 <= m < k ==> ValidChannel(chans[m], numChannels)
      {
        if !ValidChannel(chans[k], numChannels) {
          return Fail(ValueError);
        }
      }
      r := Pass;
    }

    /** The write loop of `set_current` and `set_voltage` on one register array. */
    static method WriteClamped(out: array<real>, chans: seq<int>, vals: seq<real>, limit: real)
      requires ChansValsOk(chans, vals, out.Length)
      modifies out
      ensures out[..] == Written(old(out[..]), chans, ClampAll(vals, limit))
    {
      ghost var before := out[..];
      var clamped := ClampAll(vals, limit);
      for k := 0 to |chans|
        invariant out[..] == Written(before, chans[..k], clamped[..k])
      {
        assert chans[..k + 1][..k] == chans[..k] && clamped[..k + 1][..k] == clamped[..k];
        out[chans[k]] := Clamp(vals[k], limit);
      }
      assert chans[..|chans|] == chans && clamped[..|chans|] == clamped;
    }

    /** `set_current`: refused in voltage mode and on invalid input; on a closed
        driver the first write fails before anything is written. */
    method SetCurrent(chans: seq<int>, vals: seq<real>) returns (r: Outcome<Error>)
      requires Valid()
      modifies currents
      ensures r.Pass? <==>
        mode == CurrentMode && ChansValsOk(chans, vals, numChannels) && (connected || chans == [])
      ensures mode != CurrentMode || !ChansValsOk(chans, vals, numChannels) ==> r == Fail(ValueError)
      ensures r.Pass? ==> currents[..] == Written(old(currents[..]), chans, ClampAll(vals, imax))
      ensures r.Fail? ==> currents[..] == old(currents[..])
    {
      if mode != CurrentMode {
        return Fail(ValueError);
      }
      r := ValidateChansVals(chans, vals);
      if r.Fail? {
        return;
      }
      if !connected && chans != [] {
        return Fail(AttributeError);
      }
      WriteClamped(currents, chans, vals, imax);
    }

    /** `set_voltage`: the same rule in voltage mode, against `vmax`. */
    method SetVoltage(chans: seq<int>, vals: seq<real>) returns (r: Outcome<Error>)
      requires Valid()
      modifies voltages
      ensures r.Pass? <==>
        mode == VoltageMode && ChansValsOk(chans, vals, numChannels) && (connected || chans == [])
      ensures mode != VoltageMode || !ChansValsOk(chans, vals, numChannels) ==> r == Fail(ValueError)
      ensures r.Pass? ==> voltages[..] == Written(old(voltages[..]), chans, ClampAll(vals, vmax))
      ensures r.Fail? ==> voltages[..] == old(voltages[..])
    {
      if mode != VoltageMode {
        return Fail(ValueError);
      }
      r := ValidateChansVals(chans, vals);
      if r.Fail? {
        return;
      }
      if !connected && chans != [] {
        return Fail(AttributeError);
      }
      WriteClamped(voltages, chans, vals, vmax);
    }

    /** `set_compliance`: both limits replaced, or neither. */
    method SetCompliance(current: real, voltage: real) returns (r: Outcome<Error>)
      requires Valid()
      modifies this`imax, this`vmax
      ensures Valid()
      ensures r.Pass? <==> ComplianceOk(current, voltage)
      ensures r.Pass? ==> imax == current && vmax == voltage
      ensures r.Fail? ==> r.error == ValueError && imax == old(imax) && vmax == old(vmax)
    {
      if !ComplianceOk(current, voltage) {
        return Fail(ValueError);
      }
      imax, vmax := current, voltage;
      r := Pass;
    }

    /** `set_all_zero`, channel by channel: every register of the active mode becomes
        zero. A closed driver fails at its first channel. */
    method SetAllZero() returns (r: Outcome<Error>)
      requires Valid()
      modifies currents, voltages
      ensures r.Pass? <==> connected || numChannels == 0
      ensures r.Fail? ==> r.error == AttributeError
      ensures r.Fail? ==> currents[..] == old(currents[..]) && voltages[..] == old(voltages[..])
      ensures r.Pass? && mode == VoltageMode ==>
        (forall k :: 0 <= k < numChannels ==> voltages[k] == 0.0) && currents[..] == old(currents[..])
      ensures r.Pass? && mode == CurrentMode ==>
        (forall k :: 0 <= k < numChannels ==> currents[k] == 0.0) && voltages[..] == old(voltages[..])
    {
      if !connected && numChannels > 0 {
        return Fail(AttributeError);
      }
      var out := if mode == VoltageMode then voltages else currents;
      for ch := 0 to numChannels
        invariant forall k :: 0 <= k < ch ==> out[k] == 0.0
        invariant mode == VoltageMode ==> currents[..] == old(currents[..])
        invariant mode == CurrentMode ==> voltages[..] == old(voltages[..])
      {
        out[ch] := 0.0;
      }
      r := Pass;
    }

    /** `close`: an open driver zeroes its outputs and then closes the connection,
        which is dropped even when the low-level close fails. A closed driver does
        nothing. */
    method Close(lowCloseOk: bool) returns (r: Outcome<Error>)
      requires Valid()
      modifies this`connected, currents, voltages
      ensures Valid() && !connected
      ensures r.Pass? <==> !old(connected) || lowCloseOk
      ensures r.Fail? ==> r.error == RuntimeError
      ensures !old(connected) ==> currents[..] == old(currents[..]) && voltages[..] == old(voltages[..])
      ensures old(connected) && mode == VoltageMode ==> forall k :: 0 <= k < numChannels ==> voltages[k] == 0.0
      ensures old(connected) && mode == CurrentMode ==> forall k :: 0 <= k < numChannels ==> currents[k] == 0.0
      ensures mode == VoltageMode ==> currents[..] == old(currents[..])
      ensures mode == CurrentMode ==> voltages[..] == old(voltages[..])
    {
      if !connected {
        return Pass;
      }
      var zeroed := SetAllZero();
      connected := false;
      r := if lowCloseOk then Pass else Fail(RuntimeError);
    }
  }

  /** Closing twice: the second close succeeds and changes nothing, whatever the
      low-level close would report; `currentsAfter` and `voltagesAfter` are the
      registers as the first close left them. */
  method CloseTwice(q: Q8iv, firstOk: bool, secondOk: bool)
    returns (second: Outcome<Error>, ghost currentsAfter: seq<real>, ghost voltagesAfter: seq<real>)
    requires q.Valid()
    modifies q`connected, q.currents, q.voltages
    ensures second == Pass && !q.connected
    ensures q.currents[..] == currentsAfter && q.voltages[..] == voltagesAfter
    ensures old(q.connected) && q.mode == VoltageMode ==>
      voltagesAfter == seq(q.numChannels, k => 0.0) && currentsAfter == old(q.currents[..])
    ensures old(q.connected) && q.mode == CurrentMode ==>
      currentsAfter == seq(q.numChannels, k => 0.0) && voltagesAfter == old(q.voltages[..])
    ensures !old(q.connected) ==> currentsAfter == old(q.currents[..]) && voltagesAfter == old(q.voltages[..])
  {
    var first := q.Close(firstOk);
    currentsAfter := q.currents[..];
    voltagesAfter := q.voltages[..];
    second := q.Close(secondOk);
  }

  /** A rejected `set_current` leaves every register as it was; an accepted one keeps
      every listed channel within the compliance and leaves the others alone. */
  method SetCurrentEffect(q: Q8iv, chans: seq<int>, vals: seq<real>) returns (r: Outcome<Error>)
    requires q.Valid()
    modifies q.currents
    ensures r.Fail? ==> q.currents[..] == old(q.currents[..])
    ensures r.Pass? ==> forall ch :: 0 <= ch < q.numChannels ==>
      (ch in chans ==> 0.0 <= q.currents[ch] <= q.imax) && (ch !in chans ==> q.currents[ch] == old(q.currents[ch]))
  {
    ghost var before := q.currents[..];
    r := q.SetCurrent(chans, vals);
    if r.Pass? {
      forall ch | 0 <= ch < q.numChannels
        ensures ch in chans ==> 0.0 <= q.currents[ch] <= q.imax
        ensures ch !in chans ==> q.currents[ch] == before[ch]
      {
        if ch in chans {
          WrittenClamped(before, chans, vals, q.imax, ch);
        } else {
          WrittenUnlisted(before, chans, ClampAll(vals, q.imax), ch);
        }
      }
    }
  }
}
