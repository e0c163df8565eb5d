/** The Santec OPM150 optical power meter over its vendor library: the acceptance
    of library return codes, the choice of the first OP710 device, the wavelength
    whitelist, the power unit, the sweeps over the odd channels that restore the
    active channel, the sampling speed and the buffered multi-channel read. Every
    library call is recorded in a log; the codes and values the library returns
    are parameters, one per call, in call order. */
module Opm {
  import opened Outcomes
  import opened Text

  datatype Error =
    | DllFailure(code: int)  // `_check`'s `Exception(... failed: NAME)`
    | ValueError
    | RuntimeError

  /** The library calls the driver makes. */
  datatype DllCall =
    | DllGetUsbDeviceCount
    | DllGetUsbDeviceDescription(device: int)
    | DllOpenUsbDevice(device: int)
    | DllOpenDriver(handle: int)
    | DllCloseDriver
    | DllGetActiveChannel
    | DllSetActiveChannel(channel: int)
    | DllSetGain(gain: int)
    | DllSetAutoRange(range: int)
    | DllSetWavelength(nm: int)
    | DllSetSamplingSpeed(speed: int)
    | DllGetChannelBuffer
    | DllReadChannelBuffer(bufferChannel: int)

  /** The values of `ErrorCodes`: -5..-1 are failures, 0 and 1 (`OK_1`, which
      `INVALID_HANDLE` aliases) success, 2..4 device failures. */
  predicate IsErrorCode(code: int) {
    -5 <= code <= 4
  }

  /** `_check`: a code outside `ErrorCodes` fails the enum lookup itself. */
  function Check(code: int): (r: Outcome<Error>)
    ensures r.Pass? <==> code == 0 || code == 1
    ensures r.Fail? && IsErrorCode(code) ==> r.error == DllFailure(code)
    ensures !IsErrorCode(code) ==> r == Fail(ValueError)
  {
    if !IsErrorCode(code) then Fail(ValueError)
    else if code == 0 || code == 1 then Pass
    else Fail(DllFailure(code))
  }

  /** `INVALID_HANDLE` shares its value with `OK_1`, so the enum lookup yields `OK_1`
      and the check never reports an invalid handle. */
  lemma InvalidHandleNeverRaises()
    ensures Check(1) == Pass
    ensures forall code :: IsErrorCode(code) && code != 0 && code != 1 ==> Check(code) == Fail(DllFailure(code))
  {
  }

  /** `Wavelengths`, in nm. */
  const Wavelengths: set<int> := {850, 980, 1300, 1310, 1480, 1550, 1625, 1650}

  /** A reading as `_format_power` returns it: dBm unchanged, or the same value
      converted to watts, 10^(dBm/10 - 3), which is kept symbolic here. */
  datatype Reading = Dbm(dbm: real) | WattsFromDbm(dbm: real)

  /** `_format_power`: unit 0 is dBm, unit 1 watts, any other unit fails. */
  function FormatPower(unit: int, valueDbm: real): (r: Result<Reading, Error>)
    ensures r.Ok? <==> unit == 0 || unit == 1
    ensures r.Err? ==> r.error == ValueError
    ensures r.Ok? ==> r.value.dbm == valueDbm && (r.value.Dbm? <==> unit == 0)
  {
    if unit == 0 then Ok(Dbm(valueDbm))
    else if unit == 1 then Ok(WattsFromDbm(valueDbm))
    else Err(ValueError)
  }

  /** The device `connect` looks for: the first whose description contains `OP710`. */
  function FirstOp710(descriptions: seq<string>): (r: Option<nat>)
    ensures r.None? <==> forall i :: 0 <= i < |descriptions| ==> !Contains(descriptions[i], "OP710")
    ensures r.Some? ==>
      r.value < |descriptions| && Contains(descriptions[r.value], "OP710")
      && forall i :: 0 <= i < r.value ==> !Contains(descriptions[i], "OP710")
  {
    if descriptions == [] then None
    else if Contains(descriptions[0], "OP710") then Some(0)
    else match FirstOp710(descriptions[1..])
      case None => None
      case Some(i) => Some(i + 1)
  }

  /** How many descriptions the search in `connect` reads from index `i` on: it stops
      after the first read that fails or finds `OP710`, or at the end. */
  function SearchSteps(descriptions: seq<string>, codes: seq<int>, i: nat): (n: nat)
    requires |codes| == |descriptions| && i <= |descriptions|
    ensures i <= n <= |descriptions|
    ensures forall m :: i <= m < n - 1 ==> Check(codes[m]).Pass? && !Contains(descriptions[m], "OP710")
    ensures i < n ==> n == |descriptions| || Check(codes[n - 1]).Fail? || Contains(descriptions[n - 1], "OP710")
    ensures i < |descriptions| ==> i < n
    decreases |descriptions| - i
  {
    if i == |descriptions| then i
    else if Check(codes[i]).Fail? || Contains(descriptions[i], "OP710") then i + 1
    else SearchSteps(descriptions, codes, i + 1)
  }

  /** Every description the search reads is read without a failing call. */
  predicate SearchPasses(descriptions: seq<string>, codes: seq<int>)
    requires |codes| == |descriptions|
  {
    if FirstOp710(descriptions).Some? then AllPass(codes, FirstOp710(descriptions).value + 1)
    else AllPass(codes, |codes|)
  }

  /** The search stops at a failing read `i`, so it does not pass. */
  lemma SearchFailsAt(descriptions: seq<string>, codes: seq<int>, i: nat)
    requires |codes| == |descriptions| && i < |descriptions| && Check(codes[i]).Fail?
    requires forall m :: 0 <= m < i ==> !Contains(descriptions[m], "OP710")
    ensures SearchSteps(descriptions, codes, i) == i + 1
    ensures !SearchPasses(descriptions, codes)
  {
    var first := FirstOp710(descriptions);
    if first.Some? {
      assert i <= first.value;
      assert !AllPass(codes, first.value + 1);
    } else {
      assert !AllPass(codes, |codes|);
    }
  }

  /** The search stops at a successful read `i` that finds `OP710`. */
  lemma SearchFindsAt(descriptions: seq<string>, codes: seq<int>, i: nat)
    requires |codes| == |descriptions| && i < |descriptions| && AllPass(codes, i + 1)
    requires Contains(descriptions[i], "OP710")
    requires forall m :: 0 <= m < i ==> !Contains(descriptions[m], "OP710")
    ensures SearchSteps(descriptions, codes, i) == i + 1
    ensures FirstOp710(descriptions) == Some(i) && SearchPasses(descriptions, codes)
  {
    var first := FirstOp710(descriptions);
    assert first.Some?;
    assert first.value <= i;
    assert first.value >= i;
  }

  /** Every read passes and none finds `OP710`. */
  lemma SearchExhausted(descriptions: seq<string>, codes: seq<int>)
    requires |codes| == |descriptions| && AllPass(codes, |codes|)
    requires forall m :: 0 <= m < |descriptions| ==> !Contains(descriptions[m], "OP710")
    ensures FirstOp710(descriptions) == None && SearchPasses(descriptions, codes)
  {
  }

  /** `c_byte(speed)`: the low eight bits, read as a signed byte. */
  function SignedByte(x: int): (b: int)
    ensures -128 <= b <= 127
    ensures (b - x) % 256 == 0
  {
    (x + 128) % 256 - 128
  }

  /** Speeds 0..8, and every value a signed byte holds, pass through unchanged. */
  lemma SignedByteInRange(x: int)
    requires -128 <= x <= 127
    ensures SignedByte(x) == x
  {
  }

  /** The calls of a sweep over the odd channels: the active channel is read, then
      each of channels 1, 3, ..., 23 is made active and given `setting`, and the
      channel read at the start is made active again. */
  function SweepCalls(setting: DllCall, restore: int): (calls: seq<DllCall>)
    ensures |calls| == 26
  {
    [DllGetActiveChannel] + seq(24, j => if j % 2 == 0 then DllSetActiveChannel(j + 1) else setting)
    + [DllSetActiveChannel(restore)]
  }

  /** The sweep touches exactly the odd channels, in increasing order, each followed
      by the setting, and makes twelve setting calls. */
  lemma SweepCallsShape(setting: DllCall, restore: int)
    requires setting.DllSetGain? || setting.DllSetAutoRange?
    ensures var calls := SweepCalls(setting, restore);
      calls[0] == DllGetActiveChannel && calls[25] == DllSetActiveChannel(restore)
      && (forall k :: 0 <= k < 12 ==> calls[1 + 2 * k] == DllSetActiveChannel(2 * k + 1) && calls[2 + 2 * k] == setting)
      && |set j | 0 <= j < 26 && calls[j] == setting| == 12
  {
    var calls := SweepCalls(setting, restore);
    var settings := set j | 0 <= j < 26 && calls[j] == setting;
    var evens := set k | 0 <= k < 12 :: 2 + 2 * k;
    assert settings == evens by {
      forall j | j in settings ensures j in evens {
        SettingIndexEven(setting, restore, j);
        assert j == 2 + 2 * ((j - 2) / 2);
      }
    }
    SizeOfEvens(12);
  }

  /** The channel left active when the sweep's call `j` fails: the last channel made
      active before it, or the one the sweep started on if none was. A failed
      restore (call 25) leaves channel 23 active. */
  function SweepStoppedOn(restore: int, j: int): (ch: int)
    ensures j <= 1 ==> ch == restore
    ensures 2 <= j <= 25 ==> ch % 2 == 1 && (ch == j - 1 || ch == j - 2) && 1 <= ch <= 23
  {
    if j <= 1 then restore else if j % 2 == 0 then j - 1 else j - 2
  }

  /** Odd channel `i` is made active at position `i` and given the setting right after. */
  lemma SweepPair(setting: DllCall, restore: int, i: int)
    requires 1 <= i <= 23 && i % 2 == 1
    ensures SweepCalls(setting, restore)[i] == DllSetActiveChannel(i)
    ensures SweepCalls(setting, restore)[i + 1] == setting
    ensures SweepCalls(setting, restore)[..i + 1] == SweepCalls(setting, restore)[..i] + [DllSetActiveChannel(i)]
    ensures SweepCalls(setting, restore)[..i + 2]
      == SweepCalls(setting, restore)[..i] + [DllSetActiveChannel(i), setting]
  {
    var calls := SweepCalls(setting, restore);
    assert calls[..i + 1] == calls[..i] + [calls[i]];
    assert calls[..i + 2] == calls[..i + 1] + [calls[i + 1]];
  }

  /** Only the even positions 2..24 of the sweep carry the setting. */
  lemma SettingIndexEven(setting: DllCall, restore: int, j: int)
    requires setting.DllSetGain? || setting.DllSetAutoRange?
    requires 0 <= j < 26 && SweepCalls(setting, restore)[j] == setting
    ensures 2 <= j <= 24 && j % 2 == 0
  {
  }

  lemma {:induction false} SizeOfEvens(n: nat)
    ensures |set k | 0 <= k < n :: 2 + 2 * k| == n
  {
    if n > 0 {
      var s := set k | 0 <= k < n :: 2 + 2 * k;
      var t := set k | 0 <= k < n - 1 :: 2 + 2 * k;
      assert s == t + {2 + 2 * (n - 1)};
      assert 2 + 2 * (n - 1) !in t;
      SizeOfEvens(n - 1);
    }
  }

  /** Every one of the first `n` library calls passed its check. */
  predicate AllPass(codes: seq<int>, n: nat)
    requires n <= |codes|
  {
    forall k :: 0 <= k < n ==> Check(codes[k]).Pass?
  }

  /** One buffered read per channel, in order. */
  function ChannelReads(channels: seq<int>): (calls: seq<DllCall>)
    ensures |calls| == |channels|
    ensures forall k :: 0 <= k < |channels| ==> calls[k] == DllReadChannelBuffer(channels[k])
  {
    if channels == [] then [] else [DllReadChannelBuffer(channels[0])] + ChannelReads(channels[1..])
  }

  class PowerMeter {
    /** `power_unit`, defaulting to watts. */
    const powerUnit: int
    /** The device's active channel, as the meter reports it. */
    var activeChannel: int
    var deviceNumber: Option<nat>
    /** `_is_connection_open` */
    var connectionOpen: bool
    /** `_sampling_speed`: the last value given to the setter. */
    var samplingSpeed: Option<int>
    /** Every library call made, oldest first. */
    var dllLog: seq<DllCall>

    constructor(unit: int, channel: int)
      ensures powerUnit == unit && activeChannel == channel && deviceNumber == None
      ensures !connectionOpen && samplingSpeed == None && dllLog == []
    {
      powerUnit := unit;
      activeChannel := channel;
      deviceNumber := None;
      connectionOpen := false;
      samplingSpeed := None;
      dllLog := [];
    }

    /** One library call returning `code`; a successful channel change becomes the
        active channel. */
    method Call(call: DllCall, code: int) returns (r: Outcome<Error>)
      modifies this`dllLog, this`activeChannel
      ensures r == Check(code) && dllLog == old(dllLog) + [call]
      ensures activeChannel == if call.DllSetActiveChannel? && r.Pass? then call.channel else old(activeChannel)
    {
      dllLog := dllLog + [call];
      r := Check(code);
      if call.DllSetActiveChannel? && r.Pass? {
        activeChannel := call.channel;
      }
    }

    /** The device search in `connect()`: descriptions are read in order until one
        contains `OP710`; `codes[i]` is what reading description i returns. */
    method FindOp710(descriptions: seq<string>, codes: seq<int>) returns (r: Result<Option<nat>, Error>)
      requires |codes| == |descriptions|
      modifies this`dllLog
      ensures r.Ok? ==> r.value == FirstOp710(descriptions)
      ensures r.Ok? <==> SearchPasses(descriptions, codes)
      ensures r.Err? ==>
        0 < SearchSteps(descriptions, codes, 0) && r == Err(Check(codes[SearchSteps(descriptions, codes, 0) - 1]).error)
      ensures dllLog == old(dllLog) + seq(SearchSteps(descriptions, codes, 0), i => DllGetUsbDeviceDescription(i))
      ensures r.Ok? ==>
        SearchSteps(descriptions, codes, 0) == if r.value.Some? then r.value.value + 1 else |descriptions|
    {
      ghost var steps := SearchSteps(descriptions, codes, 0);
      var i := 0;
      while i < |descriptions|
        invariant 0 <= i <= |descriptions| && AllPass(codes, i)
        invariant forall m :: 0 <= m < i ==> !Contains(descriptions[m], "OP710")
        invariant SearchSteps(descriptions, codes, i) == steps
        invariant dllLog == old(dllLog) + seq(i, m => DllGetUsbDeviceDescription(m))
      {
        dllLog := dllLog + [DllGetUsbDeviceDescription(i)];
        assert seq(i + 1, m => DllGetUsbDeviceDescription(m))
          == seq(i, m => DllGetUsbDeviceDescription(m)) + [DllGetUsbDeviceDescription(i)];
        var check := Check(codes[i]);
        if check.Fail? {
          SearchFailsAt(descriptions, codes, i);
          return Err(check.error);
        }
        if Contains(descriptions[i], "OP710") {
          SearchFindsAt(descriptions, codes, i);
          return Ok(Some(i));
        }
        i := i + 1;
      }
      SearchExhausted(descriptions, codes);
      r := Ok(None);
    }

    /** `connect()`: the device count is that of `descriptions`. `codes` are what the
        count, the search, opening the USB device and opening the driver return. The
        connection counts as open only for a driver code of 0, though 1 passes too. */
    method Connect(descriptions: seq<string>, countCode: int, searchCodes: seq<int>,
                   usbCode: int, handle: int, driverCode: int) returns (r: Outcome<Error>)
      requires |searchCodes| == |descriptions|
      modifies this`dllLog, this`deviceNumber, this`connectionOpen
      ensures r.Pass? <==>
        Check(countCode).Pass? && FirstOp710(descriptions).Some?
        && AllPass(searchCodes, FirstOp710(descriptions).value + 1)
        && Check(usbCode).Pass? && Check(driverCode).Pass?
      ensures Check(countCode).Pass? && FirstOp710(descriptions).None? && AllPass(searchCodes, |searchCodes|) ==>
        r == Fail(RuntimeError)
      ensures Check(countCode).Fail? ==> r == Check(countCode)
      ensures Check(countCode).Pass? && !SearchPasses(descriptions, searchCodes) ==>
        0 < SearchSteps(descriptions, searchCodes, 0)
        && r == Check(searchCodes[SearchSteps(descriptions, searchCodes, 0) - 1])
      ensures Check(countCode).Pass? && SearchPasses(descriptions, searchCodes) && FirstOp710(descriptions).Some? ==>
        r == if Check(usbCode).Fail? then Check(usbCode) else Check(driverCode)
      ensures deviceNumber ==
        if Check(countCode).Pass? && SearchPasses(descriptions, searchCodes) then FirstOp710(descriptions)
        else old(deviceNumber)
      ensures connectionOpen == if r.Pass? then driverCode == 0 else old(connectionOpen)
      ensures dllLog == old(dllLog) + [DllGetUsbDeviceCount]
        + (if Check(countCode).Fail? then [] else
            seq(SearchSteps(descriptions, searchCodes, 0), i => DllGetUsbDeviceDescription(i))
            + (if !SearchPasses(descriptions, searchCodes) || FirstOp710(descriptions).None? then [] else
                [DllOpenUsbDevice(FirstOp710(descriptions).value)]
                + (if Check(usbCode).Fail? then [] else [DllOpenDriver(handle)])))
    {
      dllLog := dllLog + [DllGetUsbDeviceCount];
      r := Check(countCode);
      if r.Fail? {
        return;
      }
      var found := FindOp710(descriptions, searchCodes);
      if found.Err? {
        return Fail(found.error);
      }
      deviceNumber := found.value;
      if found.value.None? {
        return Fail(RuntimeError);
      }
      r := OpenDevice(found.value.value, usbCode, handle, driverCode);
    }

    /** The end of `connect()`: `open_USB_device(device)`, which returns `handle`, then
        `open_driver(handle)`, whose result becomes the connection flag. */
    method OpenDevice(device: nat, usbCode: int, handle: int, driverCode: int) returns (r: Outcome<Error>)
      modifies this`dllLog, this`connectionOpen
      ensures r == if Check(usbCode).Fail? then Check(usbCode) else Check(driverCode)
      ensures dllLog == old(dllLog) + [DllOpenUsbDevice(device)]
        + (if Check(usbCode).Fail? then [] else [DllOpenDriver(handle)])
      ensures connectionOpen == if r.Pass? then driverCode == 0 else old(connectionOpen)
    {
      dllLog := dllLog + [DllOpenUsbDevice(device)];
      r := Check(usbCode);
      if r.Fail? {
        return;
      }
      dllLog := dllLog + [DllOpenDriver(handle)];
      r := Check(driverCode);
      if r.Fail? {
        return;
      }
      connectionOpen := driverCode == 0;
    }

    /** `close()`: the driver is closed only while the connection is open; a failed
        close leaves the flag set. */
    method Close(code: int) returns (r: Outcome<Error>)
      modifies this`dllLog, this`connectionOpen
      ensures !old(connectionOpen) ==> r == Pass && dllLog == old(dllLog) && !connectionOpen
      ensures old(connectionOpen) ==>
        r == Check(code) && dllLog == old(dllLog) + [DllCloseDriver] && connectionOpen == r.Fail?
    {
      if !connectionOpen {
        return Pass;
      }
      dllLog := dllLog + [DllCloseDriver];
      r := Check(code);
      if r.Pass? {
        connectionOpen := false;
      }
    }

    /** The `wavelength` setter: only a whitelisted wavelength reaches the library. */
    method SetWavelength(wavelength: int, code: int) returns (r: Outcome<Error>)
      modifies this`dllLog
      ensures wavelength !in Wavelengths ==> r == Fail(ValueError) && dllLog == old(dllLog)
      ensures wavelength in Wavelengths ==> r == Check(code) && dllLog == old(dllLog) + [DllSetWavelength(wavelength)]
    {
      if wavelength !in Wavelengths {
        return Fail(ValueError);
      }
      dllLog := dllLog + [DllSetWavelength(wavelength)];
      r := Check(code);
    }

    /** The `sampling_speed` setter: the value is stored before the library call, so
        the getter returns it even when the call fails. */
    method SetSamplingSpeed(speed: int, code: int) returns (r: Outcome<Error>)
      modifies this`samplingSpeed, this`dllLog
      ensures samplingSpeed == Some(speed) && r == Check(code)
      ensures dllLog == old(dllLog) + [DllSetSamplingSpeed(SignedByte(speed))]
    {
      samplingSpeed := Some(speed);
      dllLog := dllLog + [DllSetSamplingSpeed(SignedByte(speed))];
      r := Check(code);
    }

    /** One step of the sweep: make channel `i` active, then apply the setting to it;
        a failing channel change skips the setting. */
    method SelectAndApply(i: int, setting: DllCall, selectCode: int, settingCode: int) returns (r: Outcome<Error>)
      requires setting.DllSetGain? || setting.DllSetAutoRange?
      modifies this`dllLog, this`activeChannel
      ensures Check(selectCode).Fail? ==> (
        r == Check(selectCode) && dllLog == old(dllLog) + [DllSetActiveChannel(i)]
        && activeChannel == old(activeChannel))
      ensures Check(selectCode).Pass? ==> (
        r == Check(settingCode) && dllLog == old(dllLog) + [DllSetActiveChannel(i), setting]
        && activeChannel == i)
    {
      r := Call(DllSetActiveChannel(i), selectCode);
      if r.Fail? {
        return;
      }
      r := Call(setting, settingCode);
    }

    /** The sweep shared by `set_gain_all_channels` and `set_autorange_all_channels`:
        it stops at the first call that fails. */
    method SweepOddChannels(setting: DllCall, codes: seq<int>) returns (r: Outcome<Error>)
      requires |codes| == 26 && (setting.DllSetGain? || setting.DllSetAutoRange?)
      modifies this`dllLog, this`activeChannel
      ensures r.Pass? <==> AllPass(codes, 26)
      ensures r.Pass? ==>
        dllLog == old(dllLog) + SweepCalls(setting, old(activeChannel))
        && activeChannel == old(activeChannel)
      ensures r.Fail? ==> (exists j ::
        0 <= j < 26 && AllPass(codes, j) && r == Check(codes[j])
        && dllLog == old(dllLog) + SweepCalls(setting, old(activeChannel))[..j + 1]
        && activeChannel == SweepStoppedOn(old(activeChannel), j))
    {
      ghost var restore := activeChannel;
      ghost var calls := SweepCalls(setting, restore);
      r := Call(DllGetActiveChannel, codes[0]);
      if r.Fail? {
        assert AllPass(codes, 0) && dllLog == old(dllLog) + calls[..1] && activeChannel == SweepStoppedOn(restore, 0);
        return;
      }
      var current := activeChannel;
      var n := 1;
      for i := 1 to 25
        invariant n == (if i % 2 == 1 then i else i + 1) && AllPass(codes, n)
        invariant dllLog == old(dllLog) + calls[..n]
        invariant activeChannel == if n == 1 then restore else n - 2
      {
        if i % 2 == 1 {
          SweepPair(setting, restore, i);
          r := SelectAndApply(i, setting, codes[n], codes[n + 1]);
          if Check(codes[n]).Fail? {
            assert AllPass(codes, n) && r == Check(codes[n]) && dllLog == old(dllLog) + calls[..n + 1];
            assert activeChannel == SweepStoppedOn(restore, n);
            return;
          }
          assert AllPass(codes, n + 1);
          if r.Fail? {
            assert r == Check(codes[n + 1]) && dllLog == old(dllLog) + calls[..n + 2];
            assert activeChannel == SweepStoppedOn(restore, n + 1);
            return;
          }
          n := n + 2;
        }
      }
      assert calls[25] == DllSetActiveChannel(current);
      assert n == 25 && activeChannel == SweepStoppedOn(restore, 25);
      r := Call(DllSetActiveChannel(current), codes[25]);
      assert calls[..26] == calls[..25] + [calls[25]] && calls[..26] == calls;
      if r.Fail? {
        assert AllPass(codes, 25) && dllLog == old(dllLog) + calls[..26];
      }
    }

    /** `set_gain_all_channels(gain)` */
    method SetGainAllChannels(gain: int, codes: seq<int>) returns (r: Outcome<Error>)
      requires |codes| == 26
      modifies this`dllLog, this`activeChannel
      ensures r.Pass? <==> AllPass(codes, 26)
      ensures r.Pass? ==>
        dllLog == old(dllLog) + SweepCalls(DllSetGain(gain), old(activeChannel))
        && activeChannel == old(activeChannel)
      ensures r.Fail? ==> (exists j ::
        0 <= j < 26 && AllPass(codes, j) && r == Check(codes[j])
        && dllLog == old(dllLog) + SweepCalls(DllSetGain(gain), old(activeChannel))[..j + 1]
        && activeChannel == SweepStoppedOn(old(activeChannel), j))
    {
      r := SweepOddChannels(DllSetGain(gain), codes);
    }

    /** `set_autorange_all_channels(autorange)`: the library takes 1 for on, 0 for off. */
    method SetAutorangeAllChannels(autorange: bool, codes: seq<int>) returns (r: Outcome<Error>)
      requires |codes| == 26
      modifies this`dllLog, this`activeChannel
      ensures r.Pass? <==> AllPass(codes, 26)
      ensures r.Pass? ==>
        dllLog == old(dllLog) + SweepCalls(DllSetAutoRange(if autorange then 1 else 0), old(activeChannel))
        && activeChannel == old(activeChannel)
      ensures r.Fail? ==> (exists j ::
        0 <= j < 26 && AllPass(codes, j) && r == Check(codes[j])
        && dllLog == old(dllLog) + SweepCalls(DllSetAutoRange(if autorange then 1 else 0), old(activeChannel))[..j + 1]
        && activeChannel == SweepStoppedOn(old(activeChannel), j))
    {
      r := SweepOddChannels(DllSetAutoRange(if autorange then 1 else 0), codes);
    }

    /** `read_channel_buffer_power(ch)`: one buffered read returning `code` and the
        power `valueDbm`, formatted in the meter's unit. */
    method ReadChannelBufferPower(ch: int, code: int, valueDbm: real) returns (r: Result<Reading, Error>)
      modifies this`dllLog
      ensures dllLog == old(dllLog) + [DllReadChannelBuffer(ch)]
      ensures r == if Check(code).Fail? then Err(Check(code).error) else FormatPower(powerUnit, valueDbm)
    {
      dllLog := dllLog + [DllReadChannelBuffer(ch)];
      var check := Check(code);
      if check.Fail? {
        return Err(check.error);
      }
      r := FormatPower(powerUnit, valueDbm);
    }

    /** `read_multiple_channels(channels)`: one buffer refresh, then one buffered read
        per requested channel, in order; `codes` and `powers` hold what the library
        returns for each call. */
    method ReadMultipleChannels(channels: seq<int>, codes: seq<int>, powers: seq<real>)
      returns (r: Result<seq<Reading>, Error>)
      requires |codes| == |channels| + 1 && |powers| == |channels|
      modifies this`dllLog
      ensures r.Ok? <==> AllPass(codes, |channels| + 1) && (channels == [] || powerUnit == 0 || powerUnit == 1)
      ensures r.Ok? ==> (
        |r.value| == |channels|
        && (forall k :: 0 <= k < |channels| ==> Ok(r.value[k]) == FormatPower(powerUnit, powers[k]))
        && dllLog == old(dllLog) + [DllGetChannelBuffer] + ChannelReads(channels))
      ensures r.Err? ==> (exists j ::
        0 <= j <= |channels| && AllPass(codes, j)
        && dllLog == old(dllLog) + ([DllGetChannelBuffer] + ChannelReads(channels))[..j + 1]
        && if Check(codes[j]).Fail? then r == Err(Check(codes[j]).error)
           else j == 1 && powerUnit != 0 && powerUnit != 1 && r == Err(ValueError))
    {
      ghost var bufferReads := ChannelReads(channels);
      ghost var calls := [DllGetChannelBuffer] + bufferReads;
      dllLog := dllLog + [DllGetChannelBuffer];
      var check := Check(codes[0]);
      if check.Fail? {
        assert calls[..1] == [DllGetChannelBuffer];
        assert AllPass(codes, 0) && dllLog == old(dllLog) + calls[..1];
        return Err(check.error);
      }
      var out: seq<Reading> := [];
      for k := 0 to |channels|
        invariant |out| == k && AllPass(codes, k + 1)
        invariant k > 0 ==> powerUnit == 0 || powerUnit == 1
        invariant forall m :: 0 <= m < k ==> Ok(out[m]) == FormatPower(powerUnit, powers[m])
        invariant dllLog == old(dllLog) + [DllGetChannelBuffer] + bufferReads[..k]
      {
        var reading := ReadChannelBufferPower(channels[k], codes[k + 1], powers[k]);
        assert bufferReads[..k + 1] == bufferReads[..k] + [bufferReads[k]];
        assert calls[..k + 2] == [DllGetChannelBuffer] + bufferReads[..k + 1];
        if reading.Err? {
          assert AllPass(codes, k + 1) && dllLog == old(dllLog) + calls[..k + 2];
          return Err(reading.error);
        }
        out := out + [reading.value];
      }
      assert bufferReads[..|channels|] == bufferReads;
      r := Ok(out);
    }
  }

  /** Closing twice: after a successful close the second makes no library call;
      after a failed one the flag is still set, so the second tries again. */
  method CloseTwice(m: PowerMeter, firstCode: int, secondCode: int) returns (first: Outcome<Error>, second: Outcome<Error>)
    modifies m`dllLog, m`connectionOpen
    ensures first.Pass? ==> (
      second == Pass && !m.connectionOpen
      && m.dllLog == old(m.dllLog) + (if old(m.connectionOpen) then [DllCloseDriver] else []))
    ensures first.Fail? ==>
      old(m.connectionOpen) && first == Check(firstCode)
      && second == Check(secondCode) && m.connectionOpen == second.Fail?
      && m.dllLog == old(m.dllLog) + [DllCloseDriver, DllCloseDriver]
  {
    first := m.Close(firstCode);
    second := m.Close(secondCode);
  }
}
