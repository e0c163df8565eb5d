/** The Xenics Bobcat 640 camera wrapper: the open/capturing state machine over
    the vendor library, its "must be open" and "must be capturing" guards, the
    calibration and settings loads, and the frame-type to pixel-size table with
    the pixel data type chosen from it. Every library call that opens, closes,
    starts, stops, loads or reads the camera is recorded in a log; the error-text
    lookup a failing check makes is not. What a call returns is a parameter of the
    method that makes it. */
module Xenics {
  import opened Outcomes

  datatype Error =
    | XenicsError(code: int)  // `XenicsError(code, ...)`, a library failure
    | RuntimeError            // a guard: not open, not capturing
    | Failure                 // a plain `Exception(...)`

  /** The vendor library calls the wrapper makes, with the handle they are given. */
  datatype DllCall =
    | XcOpenCamera(url: string)
    | XcIsInitialised(handle: int)
    | XcCloseCamera(closed: Option<int>)
    | XcStartCapture(handle: int)
    | XcStopCapture(handle: int)
    | XcLoadCalibration(target: Option<int>, file: string)
    | XcLoadSettings(target: Option<int>, file: string)
    | XcGetFrameType(handle: int)

  /** `XenicsDLL._check_error`: any non-zero code fails, carrying the code. */
  function CheckError(code: int): (r: Outcome<Error>)
    ensures r.Pass? <==> code == 0
    ensures r.Fail? ==> r.error == XenicsError(code)
  {
    if code != 0 then Fail(XenicsError(code)) else Pass
  }

  /** `pixel_size`'s table from frame type to bytes per pixel; an unknown type fails
      with the type as its code. */
  function PixelSize(frameType: int): (r: Result<int, Error>)
    ensures r.Ok? <==> -1 <= frameType <= 7
    ensures r.Err? ==> r.error == XenicsError(frameType)
    ensures r.Ok? ==> r.value in {0, 1, 2, 4}
  {
    if frameType == -1 || frameType == 0 then Ok(0)
    else if frameType == 1 then Ok(1)
    else if frameType == 2 then Ok(2)
    else if 3 <= frameType <= 7 then Ok(4)
    else Err(XenicsError(frameType))
  }

  /** The table entry by entry: unknown and native frames have no fixed pixel size,
      8- and 16-bit grey take one and two bytes, the 32-bit and colour formats four. */
  lemma PixelSizeTable(frameType: int)
    requires -1 <= frameType <= 7
    ensures PixelSize(frameType).value == 0 <==> frameType <= 0
    ensures PixelSize(frameType).value == 1 <==> frameType == 1
    ensures PixelSize(frameType).value == 2 <==> frameType == 2
    ensures PixelSize(frameType).value == 4 <==> frameType >= 3
  {
  }

  /** The unsigned integer types a frame buffer is read as. */
  datatype Dtype = UInt8 | UInt16 | UInt32

  function Width(d: Dtype): nat {
    match d
    case UInt8 => 1
    case UInt16 => 2
    case UInt32 => 4
  }

  /** `conversions`, the tuple indexed by bytes per pixel; `None` marks a size with
      no type. A negative index counts from the end, as Python's does; indices
      outside the tuple fail. */
  function Conversion(bytes: int): (r: Result<Option<Dtype>, Error>)
    ensures r.Ok? <==> -5 <= bytes < 5
    ensures r.Err? ==> r.error == Failure
    ensures r.Ok? ==> (r.value.Some? <==> bytes % 5 in {1, 2, 4})
    ensures r.Ok? && r.value.Some? ==> Width(r.value.value) == bytes % 5
  {
    if bytes < -5 || bytes >= 5 then Err(Failure)
    else
      var i := if bytes < 0 then bytes + 5 else bytes;
      if i == 1 then Ok(Some(UInt8))
      else if i == 2 then Ok(Some(UInt16))
      else if i == 4 then Ok(Some(UInt32))
      else Ok(None)
  }

  /** `get_pixel_dtype` as written: its second test asks whether the tuple itself is
      `None`, which it never is, so a size with no type is returned as `None`. */
  function PixelDtypeAsWritten(bytes: int): (r: Result<Option<Dtype>, Error>)
    ensures r.Ok? <==> -5 <= bytes < 5
    ensures r.Err? ==> r.error == Failure
    ensures r.Ok? ==> (r.value.None? <==> bytes % 5 !in {1, 2, 4})
    ensures r.Ok? && r.value.Some? ==> Width(r.value.value) == bytes % 5
  {
    match Conversion(bytes)
    case Err(e) => Err(e)
    case Ok(d) => Ok(d)
  }

  /** `get_pixel_dtype` as intended: a size with no type fails. */
  function PixelDtype(bytes: int): (r: Result<Dtype, Error>)
    ensures 0 <= bytes ==> (r.Ok? <==> bytes in {1, 2, 4})
    ensures r.Ok? <==> -5 <= bytes < 5 && bytes % 5 in {1, 2, 4}
    ensures r.Err? ==> r.error == Failure
    ensures r.Ok? ==> Width(r.value) == bytes % 5
  {
    match Conversion(bytes)
    case Err(e) => Err(e)
    case Ok(None) => Err(Failure)
    case Ok(Some(d)) => Ok(d)
  }

  /** The native frame type shows the difference: as written it yields no data type
      and no error. */
  lemma NativeFrameDtype()
    ensures PixelSize(0) == Ok(0)
    ensures PixelDtypeAsWritten(0) == Ok(None)
    ensures PixelDtype(0) == Err(Failure)
  {
  }

  /** With the intended test, a frame type has a data type exactly when it has a
      non-zero pixel size, and the type is as wide as that size. */
  lemma DtypeOfFrameType(frameType: int)
    requires PixelSize(frameType).Ok?
    ensures PixelDtype(PixelSize(frameType).value).Ok? <==> 1 <= frameType <= 7
    ensures PixelDtype(PixelSize(frameType).value).Ok? ==>
      Width(PixelDtype(PixelSize(frameType).value).value) == PixelSize(frameType).value
  {
  }

  /** The file `load_calibration` and `load_settings` use: the argument, else the
      stored one; neither means no call at all. */
  function LoadTarget(filename: Option<string>, stored: Option<string>): (r: Option<string>)
    ensures r.None? <==> filename.None? && stored.None?
    ensures filename.Some? ==> r == filename
    ensures filename.None? ==> r == stored
  {
    if filename.Some? then filename else stored
  }

  class Camera {
    const url: string
    /** `_cam`: the library's handle, `None` while closed. */
    var cam: Option<int>
    var isOpen: bool
    var isCapturing: bool
    var calibrationFile: Option<string>
    var settingsFile: Option<string>
    /** Every library call made, oldest first. */
    var dllLog: seq<DllCall>

    /** A handle is held exactly while the camera is open. */
    ghost predicate Valid()
      reads this
    {
      isOpen <==> cam.Some?
    }

    /** Capturing only while open: kept by `open`, `start_capture` and
        `stop_capture`, and by a `close` that succeeds. */
    ghost predicate Consistent()
      reads this
    {
      isCapturing ==> isOpen
    }

    constructor(url0: string, calibration: Option<string>, settings: Option<string>)
      ensures Valid() && Consistent()
      ensures url == url0 && cam == None && !isOpen && !isCapturing
      ensures calibrationFile == calibration && settingsFile == settings && dllLog == []
    {
      url := url0;
      cam := None;
      isOpen, isCapturing := false, false;
      calibrationFile, settingsFile := calibration, settings;
      dllLog := [];
    }

    /** `_require_open` */
    function RequireOpen(): (r: Outcome<Error>)
      reads this
      ensures r.Pass? <==> isOpen && cam.Some?
      ensures r.Fail? ==> r.error == RuntimeError
    {
      if !isOpen || cam.None? then Fail(RuntimeError) else Pass
    }

    /** `_require_capturing`, the first step of `grab_frame`. */
    function RequireCapturing(): (r: Outcome<Error>)
      reads this
      ensures r.Pass? <==> isCapturing && cam.Some?
      ensures r.Fail? ==> r.error == RuntimeError
    {
      if !isCapturing || cam.None? then Fail(RuntimeError) else Pass
    }

    /** `open()`: `handle` is what the library's open returns, `initialised` its
        answer to whether that camera is initialised. */
    method Open(handle: int, initialised: bool) returns (r: Outcome<Error>)
      requires Valid()
      modifies this`cam, this`isOpen, this`dllLog
      ensures Valid() && isCapturing == old(isCapturing)
      ensures old(Consistent()) ==> Consistent()
      ensures old(isOpen) ==> r == Pass && cam == old(cam) && isOpen && dllLog == old(dllLog)
      ensures !old(isOpen) && handle == 0 ==>
        r == Fail(Failure) && !isOpen && dllLog == old(dllLog) + [XcOpenCamera(url)]
      ensures !old(isOpen) && handle != 0 && !initialised ==>
        r == Fail(XenicsError(-1)) && !isOpen && dllLog == old(dllLog) + [XcOpenCamera(url), XcIsInitialised(handle)]
      ensures !old(isOpen) && handle != 0 && initialised ==>
        r == Pass && cam == Some(handle) && isOpen && dllLog == old(dllLog) + [XcOpenCamera(url), XcIsInitialised(handle)]
    {
      if isOpen {
        return Pass;
      }
      dllLog := dllLog + [XcOpenCamera(url)];
      if handle == 0 {
        return Fail(Failure);
      }
      dllLog := dllLog + [XcIsInitialised(handle)];
      if !initialised {
        return Fail(XenicsError(-1));
      }
      cam := Some(handle);
      isOpen := true;
      r := Pass;
    }

    /** `start_capture()`: `code` is what the library's start returns. */
    method StartCapture(code: int) returns (r: Outcome<Error>)
      requires Valid()
      modifies this`isCapturing, this`dllLog
      ensures Valid()
      ensures !isOpen ==> r == Fail(RuntimeError) && isCapturing == old(isCapturing) && dllLog == old(dllLog)
      ensures isOpen && old(isCapturing) ==> r == Pass && isCapturing && dllLog == old(dllLog)
      ensures isOpen && !old(isCapturing) ==>
        r == CheckError(code) && isCapturing == (code == 0)
        && dllLog == old(dllLog) + [XcStartCapture(cam.value)]
      ensures r.Pass? ==> isCapturing && isOpen
      ensures old(Consistent()) ==> Consistent()
    {
      r := RequireOpen();
      if r.Fail? {
        return;
      }
      if isCapturing {
        return Pass;
      }
      dllLog := dllLog + [XcStartCapture(cam.value)];
      r := CheckError(code);
      if r.Pass? {
        isCapturing := true;
      }
    }

    /** `stop_capture()`: `code` is what the library's stop returns. */
    method StopCapture(code: int) returns (r: Outcome<Error>)
      requires Valid()
      modifies this`isCapturing, this`dllLog
      ensures Valid()
      ensures !isOpen ==> r == Fail(RuntimeError) && isCapturing == old(isCapturing) && dllLog == old(dllLog)
      ensures isOpen && !old(isCapturing) ==> r == Pass && !isCapturing && dllLog == old(dllLog)
      ensures isOpen && old(isCapturing) ==>
        r == CheckError(code) && isCapturing == (code != 0)
        && dllLog == old(dllLog) + [XcStopCapture(cam.value)]
      ensures r.Pass? ==> !isCapturing
      ensures old(Consistent()) ==> Consistent()
    {
      r := RequireOpen();
      if r.Fail? {
        return;
      }
      if !isCapturing {
        return Pass;
      }
      dllLog := dllLog + [XcStopCapture(cam.value)];
      r := CheckError(code);
      if r.Pass? {
        isCapturing := false;
      }
    }

    /** `close()`: a capturing camera is stopped first; whether or not that fails,
        the camera is then closed and its handle dropped. A failed stop leaves the
        capturing flag set on the closed camera. */
    method Close(stopCode: int) returns (r: Outcome<Error>)
      requires Valid()
      modifies this`cam, this`isOpen, this`isCapturing, this`dllLog
      ensures Valid() && !isOpen && cam == None
      ensures old(Consistent()) && r.Pass? ==> Consistent()
      ensures !old(isOpen) ==> r == Pass && isCapturing == old(isCapturing) && dllLog == old(dllLog)
      ensures old(isOpen) && !old(isCapturing) ==>
        r == Pass && !isCapturing && dllLog == old(dllLog) + [XcCloseCamera(old(cam))]
      ensures old(isOpen) && old(isCapturing) ==>
        r == CheckError(stopCode) && isCapturing == (stopCode != 0)
        && dllLog == old(dllLog) + [XcStopCapture(old(cam).value), XcCloseCamera(old(cam))]
    {
      if !isOpen {
        return Pass;
      }
      r := Pass;
      if isCapturing {
        r := StopCapture(stopCode);
        if r.Pass? {
          isCapturing := false;
        }
      }
      dllLog := dllLog + [XcCloseCamera(cam)];
      cam := None;
      isOpen := false;
    }

    /** `load_calibration(filename)`: `code` is what the library's load returns. */
    method LoadCalibrationFile(filename: Option<string>, code: int) returns (r: Outcome<Error>)
      modifies this`dllLog
      ensures LoadTarget(filename, calibrationFile).None? ==> r == Pass && dllLog == old(dllLog)
      ensures LoadTarget(filename, calibrationFile).Some? ==>
        r == CheckError(code)
        && dllLog == old(dllLog) + [XcLoadCalibration(cam, LoadTarget(filename, calibrationFile).value)]
    {
      var fname := LoadTarget(filename, calibrationFile);
      if fname.None? {
        return Pass;
      }
      dllLog := dllLog + [XcLoadCalibration(cam, fname.value)];
      r := CheckError(code);
    }

    /** `load_settings(filename)`: the same rule with the stored settings file. */
    method LoadSettingsFile(filename: Option<string>, code: int) returns (r: Outcome<Error>)
      modifies this`dllLog
      ensures LoadTarget(filename, settingsFile).None? ==> r == Pass && dllLog == old(dllLog)
      ensures LoadTarget(filename, settingsFile).Some? ==>
        r == CheckError(code)
        && dllLog == old(dllLog) + [XcLoadSettings(cam, LoadTarget(filename, settingsFile).value)]
    {
      var fname := LoadTarget(filename, settingsFile);
      if fname.None? {
        return Pass;
      }
      dllLog := dllLog + [XcLoadSettings(cam, fname.value)];
      r := CheckError(code);
    }

    /** The `calibration_file` setter: `None` changes nothing; a path is stored and
        loaded at once. */
    method SetCalibrationFile(filepath: Option<string>, code: int) returns (r: Outcome<Error>)
      modifies this`calibrationFile, this`dllLog
      ensures filepath.None? ==> r == Pass && calibrationFile == old(calibrationFile) && dllLog == old(dllLog)
      ensures filepath.Some? ==>
        calibrationFile == filepath && r == CheckError(code)
        && dllLog == old(dllLog) + [XcLoadCalibration(cam, filepath.value)]
    {
      if filepath.None? {
        return Pass;
      }
      calibrationFile := filepath;
      r := LoadCalibrationFile(filepath, code);
    }

    /** The `settings_file` setter: the same rule with the settings file. */
    method SetSettingsFile(filepath: Option<string>, code: int) returns (r: Outcome<Error>)
      modifies this`settingsFile, this`dllLog
      ensures filepath.None? ==> r == Pass && settingsFile == old(settingsFile) && dllLog == old(dllLog)
      ensures filepath.Some? ==>
        settingsFile == filepath && r == CheckError(code)
        && dllLog == old(dllLog) + [XcLoadSettings(cam, filepath.value)]
    {
      if filepath.None? {
        return Pass;
      }
      settingsFile := filepath;
      r := LoadSettingsFile(filepath, code);
    }

    /** `pixel_size`: the frame type is read from the open camera, then looked up. */
    method GetPixelSize(frameType: int) returns (r: Result<int, Error>)
      requires Valid()
      modifies this`dllLog
      ensures !isOpen ==> r == Err(RuntimeError) && dllLog == old(dllLog)
      ensures isOpen ==> r == PixelSize(frameType) && dllLog == old(dllLog) + [XcGetFrameType(cam.value)]
    {
      var open := RequireOpen();
      if open.Fail? {
        return Err(RuntimeError);
      }
      dllLog := dllLog + [XcGetFrameType(cam.value)];
      r := PixelSize(frameType);
    }
  }

  /** The library calls `open()` makes: the open, then the initialisation query
      unless the handle is 0. */
  function OpenCalls(url: string, handle: int): (calls: seq<DllCall>)
    ensures |calls| == (if handle == 0 then 1 else 2) && calls[0] == XcOpenCamera(url)
  {
    [XcOpenCamera(url)] + (if handle == 0 then [] else [XcIsInitialised(handle)])
  }

  /** The calls `connect()` makes once the camera is open on `handle`: a load for
      each stored file, then the start unless the camera is already flagged as
      capturing, cut after the first load that fails. */
  function ConnectTail(handle: int, calibration: Option<string>, settings: Option<string>,
                       calCode: int, setCode: int, capturing: bool): (calls: seq<DllCall>)
    ensures |calls| <= 3
    ensures calibration.Some? ==> |calls| >= 1 && calls[0] == XcLoadCalibration(Some(handle), calibration.value)
    ensures calibration.None? && settings.None? ==>
      calls == if capturing then [] else [XcStartCapture(handle)]
  {
    var calLoad := if calibration.Some? then [XcLoadCalibration(Some(handle), calibration.value)] else [];
    var setLoad := if settings.Some? then [XcLoadSettings(Some(handle), settings.value)] else [];
    var start := if capturing then [] else [XcStartCapture(handle)];
    if calibration.Some? && calCode != 0 then calLoad
    else if settings.Some? && setCode != 0 then calLoad + setLoad
    else calLoad + setLoad + start
  }

  /** `connect()` from a closed camera: open, load calibration and settings, start
      capturing; each step runs only when the previous one succeeded, and the
      outcome is that of the first step that fails. A camera left flagged as
      capturing by a failed `close` makes no start call. */
  method Connect(c: Camera, handle: int, initialised: bool, calCode: int, setCode: int, startCode: int)
    returns (r: Outcome<Error>)
    requires c.Valid() && !c.isOpen
    modifies c
    ensures c.Valid()
    ensures r.Pass? <==>
      handle != 0 && initialised
      && (old(c.calibrationFile).Some? ==> calCode == 0)
      && (old(c.settingsFile).Some? ==> setCode == 0)
      && (startCode == 0 || old(c.isCapturing))
    ensures handle == 0 ==> r == Fail(Failure)
    ensures handle != 0 && !initialised ==> r == Fail(XenicsError(-1))
    ensures handle != 0 && initialised && old(c.calibrationFile).Some? && calCode != 0 ==>
      r == CheckError(calCode)
    ensures (handle != 0 && initialised && !(old(c.calibrationFile).Some? && calCode != 0)
             && old(c.settingsFile).Some? && setCode != 0) ==>
      r == CheckError(setCode)
    ensures (handle != 0 && initialised && !(old(c.calibrationFile).Some? && calCode != 0)
             && !(old(c.settingsFile).Some? && setCode != 0)) ==>
      r == if old(c.isCapturing) then Pass else CheckError(startCode)
    ensures c.dllLog == old(c.dllLog) + OpenCalls(c.url, handle)
      + (if handle != 0 && initialised
         then ConnectTail(handle, old(c.calibrationFile), old(c.settingsFile), calCode, setCode, old(c.isCapturing))
         else [])
    ensures c.calibrationFile == old(c.calibrationFile) && c.settingsFile == old(c.settingsFile)
    ensures c.isOpen <==> handle != 0 && initialised
    ensures c.isOpen ==> c.cam == Some(handle)
    ensures c.isCapturing <==> old(c.isCapturing) || r.Pass?
    ensures old(c.Consistent()) ==> c.Consistent()
  {
    ghost var openLog := c.dllLog + OpenCalls(c.url, handle);
    r := c.Open(handle, initialised);
    assert c.dllLog == openLog;
    if r.Fail? {
      return;
    }
    assert c.cam == Some(handle);
    r := LoadAndStart(c, calCode, setCode, startCode);
  }

  /** The rest of `connect()` on an open camera: both loads, then the start. */
  method LoadAndStart(c: Camera, calCode: int, setCode: int, startCode: int) returns (r: Outcome<Error>)
    requires c.Valid() && c.isOpen
    modifies c`isCapturing, c`dllLog
    ensures c.Valid()
    ensures c.calibrationFile.Some? && calCode != 0 ==> r == CheckError(calCode)
    ensures !(c.calibrationFile.Some? && calCode != 0) && c.settingsFile.Some? && setCode != 0 ==>
      r == CheckError(setCode)
    ensures !(c.calibrationFile.Some? && calCode != 0) && !(c.settingsFile.Some? && setCode != 0) ==>
      r == if old(c.isCapturing) then Pass else CheckError(startCode)
    ensures c.dllLog == old(c.dllLog)
      + ConnectTail(c.cam.value, c.calibrationFile, c.settingsFile, calCode, setCode, old(c.isCapturing))
    ensures c.isCapturing <==> old(c.isCapturing) || r.Pass?
  {
    r := c.LoadCalibrationFile(None, calCode);
    if r.Fail? {
      return;
    }
    r := c.LoadSettingsFile(None, setCode);
    if r.Fail? {
      return;
    }
    r := c.StartCapture(startCode);
  }

  /** The lifecycle from a closed camera: open, start and a failing stop inside
      `close`. The camera ends closed yet still flagged as capturing, so
      `grab_frame`'s guard refuses it and a later `start_capture` after reopening
      makes no library call. */
  method FailedCloseKeepsCapturing(c: Camera, handle: int, stopCode: int) returns (r: Outcome<Error>)
    requires c.Valid() && !c.isOpen && !c.isCapturing && handle != 0 && stopCode != 0
    modifies c
    ensures r == Fail(XenicsError(stopCode))
    ensures !c.isOpen && c.isCapturing && !c.Consistent() && c.RequireCapturing().Fail?
    ensures c.calibrationFile == old(c.calibrationFile) && c.settingsFile == old(c.settingsFile)
    ensures c.dllLog == old(c.dllLog) + [XcOpenCamera(c.url), XcIsInitialised(handle),
      XcStartCapture(handle), XcStopCapture(handle), XcCloseCamera(Some(handle))]
  {
    var openOutcome := c.Open(handle, true);
    var startOutcome := c.StartCapture(0);
    r := c.Close(stopCode);
  }

  /** Connecting again after that failed close succeeds whatever the start call
      would return, because `start_capture` sees the stale flag and makes no call:
      the reopened camera is flagged as capturing although capture was never
      restarted. */
  method ReconnectAfterFailedClose(c: Camera, handle: int, stopCode: int, startCode: int)
    returns (r: Outcome<Error>)
    requires c.Valid() && !c.isOpen && !c.isCapturing && handle != 0 && stopCode != 0
    requires c.calibrationFile.None? && c.settingsFile.None?
    modifies c
    ensures r == Pass && c.isOpen && c.isCapturing
    ensures c.dllLog == old(c.dllLog) + [XcOpenCamera(c.url), XcIsInitialised(handle),
      XcStartCapture(handle), XcStopCapture(handle), XcCloseCamera(Some(handle)),
      XcOpenCamera(c.url), XcIsInitialised(handle)]
  {
    var closed := FailedCloseKeepsCapturing(c, handle, stopCode);
    r := Connect(c, handle, true, 0, 0, startCode);
  }
}
