/**
 The second binding, in src/ffi.rs, which src/lib.rs does not include as a module. It declares its own copy of
 the error enum and of the status-code mapper, and a center-frequency getter
 that reinterprets the driver's `c_int` answer as a `u32`.
 */
module Ffi {
  import opened CTypes
  import Native
  import RtlSdr

  datatype Error =
    | NoError
    | Io
    | InvalidParam
    | Access
    | NoDevice
    | NotFound
    | Busy
    | Timeout
    | Overflow
    | Pipe
    | Interrupted
    | NoMem
    | NotSupported
    | Other

  /** Maps a native status code to an error: total, 0 is the only success, the
      codes -1..-12 give twelve different variants, and everything else is `Other`. */
  function GetErrMsg(e: i32): (r: Error)
    ensures r == NoError <==> e == 0
    ensures r == Other <==> (e < -12 || e > 0)
  {
    match e
    case 0 => NoError
    case -1 => Io
    case -2 => InvalidParam
    case -3 => Access
    case -4 => NoDevice
    case -5 => NotFound
    case -6 => Busy
    case -7 => Timeout
    case -8 => Overflow
    case -9 => Pipe
    case -10 => Interrupted
    case -11 => NoMem
    case -12 => NotSupported
    case _ => Other
  }

  /** The variant of the safe binding's enum with the same name. */
  function ToLibError(e: Error): (r: RtlSdr.Error)
  {
    match e
    case NoError => RtlSdr.NoError
    case Io => RtlSdr.Io
    case InvalidParam => RtlSdr.InvalidParam
    case Access => RtlSdr.Access
    case NoDevice => RtlSdr.NoDevice
    case NotFound => RtlSdr.NotFound
    case Busy => RtlSdr.Busy
    case Timeout => RtlSdr.Timeout
    case Overflow => RtlSdr.Overflow
    case Pipe => RtlSdr.Pipe
    case Interrupted => RtlSdr.Interrupted
    case NoMem => RtlSdr.NoMem
    case NotSupported => RtlSdr.NotSupported
    case Other => RtlSdr.Other
  }

  /** The two mappers agree, variant for variant, on every status code. */
  lemma GetErrMsgAgreesWithLib(c: i32)
    ensures ToLibError(GetErrMsg(c)) == RtlSdr.GetErrMsg(c)
  {
  }

  /** The thirteen defined codes give thirteen different errors here too. */
  lemma GetErrMsgInjectiveOnDefinedCodes(a: i32, b: i32)
    requires -12 <= a <= 0 && -12 <= b <= 0
    requires a != b
    ensures GetErrMsg(a) != GetErrMsg(b)
  {
    GetErrMsgAgreesWithLib(a);
    GetErrMsgAgreesWithLib(b);
    RtlSdr.GetErrMsgInjectiveOnDefinedCodes(a, b);
  }

  /** An open device of this binding: a handle on the native driver. */
  class Device {
    const dev: Native.Driver

    constructor (dev: Native.Driver)
      ensures this.dev == dev
    {
      this.dev := dev;
    }

    /** Non-negative answers pass unchanged; a negative answer `v` becomes `v + 2^32`. */
    method GetCenterFreq() returns (freqHz: u32)
      modifies dev`calls
      ensures dev.calls == old(dev.calls) + [Native.CenterFreqGet]
      ensures dev.centerFreq >= 0 ==> freqHz as int == dev.centerFreq as int
      ensures dev.centerFreq < 0 ==> freqHz as int == dev.centerFreq as int + TWO_32
    {
      var c := dev.GetCenterFreq();
      freqHz := I32AsU32(c);
    }
  }
}
