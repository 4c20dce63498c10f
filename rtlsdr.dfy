/**
 The safe Rust binding over librtlsdr (src/lib.rs): the status-code mapper that
 gives every fallible wrapper its error, the sampling-mode and tuner-type
 decoders, the buffer constants, and the wrappers whose control flow or integer
 casts do more than forward one native call.
 */
module RtlSdr {
  import opened CTypes
  import Native

  // Buffer and device constants.
  const DEFAULT_FC: i32 := 80_000_000
  const DEFAULT_RS: i32 := 1_024_000
  const DEFAULT_READ_SIZE: i32 := 1024
  const CRYSTAL_FREQ: i32 := 28800000
  const DEFAULT_SAMPLE_RATE: i32 := 2048000
  const DEFAULT_ASYNC_BUF_NUMBER: i32 := 32
  const DEFAULT_BUF_LENGTH: i32 := 16 * 16384
  const MIN_BUF_LENGTH: i32 := 512
  const MAX_BUF_LENGTH: i32 := 256 * 16384
  const LIBUSB_ERROR_OTHER: i32 := -99
  const EEPROM_SIZE: i32 := 256
  const MAX_STR_SIZE: i32 := 35
  const STR_OFFSET_START: i32 := 0x09

  /** The default per-buffer length of an asynchronous read is a whole number of
      512-byte blocks, lies within the allowed range, and is the documented 16 * 32 * 512. */
  lemma BufferLengthConstants()
    ensures DEFAULT_BUF_LENGTH % MIN_BUF_LENGTH == 0
    ensures MIN_BUF_LENGTH <= DEFAULT_BUF_LENGTH <= MAX_BUF_LENGTH
    ensures MAX_BUF_LENGTH % MIN_BUF_LENGTH == 0
    ensures DEFAULT_BUF_LENGTH as int == 16 * 32 * 512
    ensures DEFAULT_BUF_LENGTH == 262144
  {
  }

  // ---------------------------------------------------------------------------
  // Errors

  datatype Error =
    | NoError
    | Io
    | InvalidParam
    | Access
    | NoDevice
    | NotFound
    | Busy
    | Timeout
    | Overflow
    | Pipe
    | Interrupted
    | NoMem
    | NotSupported
    | Other

  /** The libusb status code behind each variant; the catch-all is LIBUSB_ERROR_OTHER. */
  function ErrorCode(e: Error): (c: i32)
    ensures c == LIBUSB_ERROR_OTHER <==> e == Other
    ensures c == 0 <==> e == NoError
    ensures e != Other ==> -12 <= c <= 0
  {
    match e
    case NoError => 0
    case Io => -1
    case InvalidParam => -2
    case Access => -3
    case NoDevice => -4
    case NotFound => -5
    case Busy => -6
    case Timeout => -7
    case Overflow => -8
    case Pipe => -9
    case Interrupted => -10
    case NoMem => -11
    case NotSupported => -12
    case Other => LIBUSB_ERROR_OTHER
  }

  /** Maps a native status code to an error: total, 0 is the only success, each
      code -1..-12 names its own variant, and every other code is `Other`. */
  function GetErrMsg(e: i32): (r: Error)
    ensures r == NoError <==> e == 0
    ensures r == Other <==> (e < -12 || e > 0)
    ensures -12 <= e <= 0 ==> ErrorCode(r) == e
  {
    match e
    case 0 => NoError
    case -1 => Io
    case -2 => InvalidParam
    case -3 => Access
    case -4 => NoDevice
    case -5 => NotFound
    case -6 => Busy
    case -7 => Timeout
    case -8 => Overflow
    case -9 => Pipe
    case -10 => Interrupted
    case -11 => NoMem
    case -12 => NotSupported
    case _ => Other
  }

  /** The status code of every variant maps back to that variant. */
  lemma ErrorCodeRoundTrip(e: Error)
    ensures GetErrMsg(ErrorCode(e)) == e
  {
  }

  /** Every one of the fourteen variants is produced by some status code. */
  lemma GetErrMsgSurjective(e: Error)
    ensures exists c: i32 :: GetErrMsg(c) == e
  {
    ErrorCodeRoundTrip(e);
    var c := ErrorCode(e);
    assert GetErrMsg(c) == e;
  }

  /** The thirteen defined codes 0..-12 give thirteen different errors. */
  lemma GetErrMsgInjectiveOnDefinedCodes(a: i32, b: i32)
    requires -12 <= a <= 0 && -12 <= b <= 0
    requires a != b
    ensures GetErrMsg(a) != GetErrMsg(b)
  {
  }

  // ---------------------------------------------------------------------------
  // Sampling modes

  datatype SamplingMode = None | IADC | QADC | Unknown

  /** `mode as i32`: the enum's discriminant. */
  function SamplingModeCode(m: SamplingMode): (c: i32)
    ensures 0 <= c <= 3
  {
    match m
    case None => 0
    case IADC => 1
    case QADC => 2
    case Unknown => 3
  }

  /** Decodes the driver's direct-sampling answer; anything but 0, 1 or 2 is `Unknown`. */
  function DecodeSamplingMode(c: i32): (m: SamplingMode)
    ensures m == SamplingMode.Unknown <==> !(0 <= c <= 2)
    ensures m != SamplingMode.Unknown ==> SamplingModeCode(m) == c
  {
    match c
    case 0 => None
    case 1 => IADC
    case 2 => QADC
    case _ => SamplingMode.Unknown
  }

  /** Decoding the encoding of a mode gives the mode back, for all four modes
      (the `Unknown` discriminant 3 falls into the decoder's catch-all). */
  lemma SamplingModeRoundTrip(m: SamplingMode)
    ensures DecodeSamplingMode(SamplingModeCode(m)) == m
  {
  }

  /** Encoding a decoded code returns the code exactly when it is a discriminant. */
  lemma SamplingCodeRoundTrip(c: i32)
    ensures SamplingModeCode(DecodeSamplingMode(c)) == c <==> 0 <= c <= 3
  {
  }

  /** Every mode is the answer to some driver code. */
  lemma EverySamplingModeDecodable(m: SamplingMode)
    ensures exists c: i32 :: DecodeSamplingMode(c) == m
  {
    SamplingModeRoundTrip(m);
    var c := SamplingModeCode(m);
    assert DecodeSamplingMode(c) == m;
  }

  // ---------------------------------------------------------------------------
  // Tuner types

  datatype RtlSdrTuner = Unknown | E4000 | FC0012 | FC0013 | FC2580 | R820T | R828D

  /** The label of a tuner type; an unknown tuner is a valid type with its own label. */
  function FromTunerType(t: RtlSdrTuner): (s: string)
    ensures s == "Unknown" <==> t == RtlSdrTuner.Unknown
  {
    match t
    case Unknown => "Unknown"
    case E4000 => "E4000"
    case FC0012 => "FC0012"
    case FC0013 => "FC0013"
    case FC2580 => "FC2580"
    case R820T => "R820T"
    case R828D => "R828D"
  }

  /** Different tuner types have different labels. */
  lemma FromTunerTypeInjective(a: RtlSdrTuner, b: RtlSdrTuner)
    ensures FromTunerType(a) == FromTunerType(b) ==> a == b
  {
  }

  // ---------------------------------------------------------------------------
  // Device

  /** An open device: a handle on the native driver. */
  class Device {
    const dev: Native.Driver

    constructor (dev: Native.Driver)
      ensures this.dev == dev
    {
      this.dev := dev;
    }

    /** Sends both frequencies to the driver as `u32` bit patterns. */
    method SetXtalFreq(rtlFreqHz: i32, tunerFreqHz: i32) returns (err: Error)
      modifies dev`rtlXtal, dev`tunerXtal, dev`calls
      ensures err == GetErrMsg(dev.status)
      ensures dev.calls == old(dev.calls) + [Native.XtalSet(I32AsU32(rtlFreqHz), I32AsU32(tunerFreqHz))]
      ensures dev.status == 0 ==> dev.rtlXtal == I32AsU32(rtlFreqHz) && dev.tunerXtal == I32AsU32(tunerFreqHz)
      ensures dev.status != 0 ==> dev.rtlXtal == old(dev.rtlXtal) && dev.tunerXtal == old(dev.tunerXtal)
    {
      var s := dev.SetXtalFreq(I32AsU32(rtlFreqHz), I32AsU32(tunerFreqHz));
      err := GetErrMsg(s);
    }

    /** Reads both frequencies into zero-initialised out-parameters and reinterprets
        whatever the call left in them as `i32`. */
    method GetXtalFreq() returns (rtlFreqHz: i32, tunerFreqHz: i32, err: Error)
      modifies dev`calls
      ensures err == GetErrMsg(dev.status)
      ensures dev.calls == old(dev.calls) + [Native.XtalGet]
      ensures dev.status == 0 ==> rtlFreqHz == U32AsI32(dev.rtlXtal) && tunerFreqHz == U32AsI32(dev.tunerXtal)
      ensures dev.status != 0 && dev.failedRtlXtal.Present? ==> rtlFreqHz == U32AsI32(dev.failedRtlXtal.value)
      ensures dev.status != 0 && dev.failedRtlXtal.Absent? ==> rtlFreqHz == 0
      ensures dev.status != 0 && dev.failedTunerXtal.Present? ==> tunerFreqHz == U32AsI32(dev.failedTunerXtal.value)
      ensures dev.status != 0 && dev.failedTunerXtal.Absent? ==> tunerFreqHz == 0
    {
      var rtl := new Native.Cell<u32>(0);
      var tuner := new Native.Cell<u32>(0);
      var s := dev.GetXtalFreq(rtl, tuner);
      rtlFreqHz, tunerFreqHz, err := U32AsI32(rtl.value), U32AsI32(tuner.value), GetErrMsg(s);
    }

    /** Sends `|data| mod 65536` as the length: the `usize` length is cast to `u16`. */
    method WriteEeprom(data: seq<u8>, offset: u8) returns (err: Error)
      modifies dev`eeprom, dev`calls
      ensures var len := UsizeAsU16(|data|);
        && err == GetErrMsg(old(dev.EepromReply(offset, len)))
        && dev.calls == old(dev.calls) + [Native.EepromWrite(offset, len)]
        && (old(dev.EepromReply(offset, len)) == 0 ==>
              dev.eeprom == old(dev.eeprom)[..offset] + data[..len] + old(dev.eeprom)[offset as int + len as int..])
        && var w := old(dev.EepromWritten(offset, len));
           dev.eeprom == if w == 0 then old(dev.eeprom)
                         else old(dev.eeprom)[..offset] + data[..w] + old(dev.eeprom)[offset as int + w..]
    {
      var s := dev.WriteEeprom(data, offset, UsizeAsU16(|data|));
      err := GetErrMsg(s);
    }

    /** Returns exactly `len` bytes from a zero-initialised buffer: the EEPROM region
        when the driver succeeds; for a refused range all zeros; otherwise whatever
        the failing call wrote, then zeros. */
    method ReadEeprom(offset: u8, len: u16) returns (v: seq<u8>, err: Error)
      modifies dev`calls
      ensures |v| == len as int
      ensures err == GetErrMsg(dev.EepromReply(offset, len))
      ensures dev.calls == old(dev.calls) + [Native.EepromRead(offset, len)]
      ensures dev.EepromReply(offset, len) == 0 ==> v == dev.eeprom[offset..offset as int + len as int]
      ensures dev.EepromReply(offset, len) != 0 && dev.EepromInRange(offset, len) ==> forall k :: 0 <= k < |v| ==>
        v[k] == if k < |dev.failedEepromRead| then dev.failedEepromRead[k] else 0
      ensures !dev.EepromInRange(offset, len) ==> forall k :: 0 <= k < |v| ==> v[k] == 0
    {
      var buf := new u8[len as int](_ => 0);
      var s := dev.ReadEeprom(buf, offset, len);
      v, err := buf[..], GetErrMsg(s);
    }

    /** The count-then-fill protocol: a non-positive count short-circuits with its
        mapped error and no fill call; otherwise a buffer of exactly `count`
        zero-initialised entries is filled, and the error only says whether the
        fill call answered a positive number. A count of 0 is mapped like any
        status, so it yields an empty list with `NoError`. */
    method GetTunerGains() returns (gains: seq<i32>, err: Error)
      modifies dev`calls
      ensures dev.gainCount <= 0 ==>
        && gains == []
        && err == GetErrMsg(dev.gainCount)
        && dev.calls == old(dev.calls) + [Native.GainCount]
      ensures dev.gainCount == 0 ==> gains == [] && err == NoError
      ensures dev.gainCount > 0 ==>
        && |gains| == dev.gainCount as int
        && dev.calls == old(dev.calls) + [Native.GainCount, Native.GainFill(dev.gainCount as int)]
        && (err == NoError <==> dev.gainFill > 0)
        && (err != NoError ==> err == Other)
        && forall k :: 0 <= k < |gains| ==>
             gains[k] == if k < |dev.gainTable| then dev.gainTable[k] else 0
    {
      var i := dev.CountGains();
      if i <= 0 {
        return [], GetErrMsg(i);
      }
      var v := new i32[i as int](_ => 0);
      i := dev.FillGains(v);
      err := if i <= 0 then Other else NoError;
      gains := v[..];
    }

    /** Sends the mode's discriminant. */
    method SetDirectSampling(mode: SamplingMode) returns (err: Error)
      modifies dev`directSampling, dev`calls
      ensures err == GetErrMsg(dev.status)
      ensures dev.calls == old(dev.calls) + [Native.DirectSamplingSet(SamplingModeCode(mode))]
      ensures dev.directSampling == if dev.status == 0 then SamplingModeCode(mode) else old(dev.directSampling)
    {
      var s := dev.SetDirectSampling(SamplingModeCode(mode));
      err := GetErrMsg(s);
    }

    method GetDirectSampling() returns (mode: SamplingMode)
      modifies dev`calls
      ensures dev.calls == old(dev.calls) + [Native.DirectSamplingGet]
      ensures mode == DecodeSamplingMode(dev.directSampling)
      ensures mode == SamplingMode.Unknown <==> !(0 <= dev.directSampling <= 2)
    {
      var c := dev.GetDirectSampling();
      mode := DecodeSamplingMode(c);
    }

    /** One synchronous read into a zero-initialised buffer of `len` bytes. The
        count the driver reports, on success or failure, may be smaller than `len`;
        the bytes it names head the buffer and the rest stay zero. */
    method ReadSync(len: i32) returns (buf: seq<u8>, nRead: i32, err: Error)
      requires len >= 0
      modifies dev`pending, dev`calls
      ensures |buf| == len as int
      ensures err == GetErrMsg(dev.status)
      ensures dev.calls == old(dev.calls) + [Native.SyncRead(len)]
      ensures nRead as int == old(dev.Transferred(len as int))
      ensures 0 <= nRead <= len && nRead as int <= |old(dev.pending)|
      ensures dev.status == 0 ==> nRead as int == Native.Min(len as int, |old(dev.pending)|)
      ensures buf[..nRead] == old(dev.pending)[..nRead]
      ensures forall k :: nRead as int <= k < |buf| ==> buf[k] == 0
      ensures dev.pending == old(dev.pending)[nRead..]
    {
      var b := new u8[len as int](_ => 0);
      var n := new Native.Cell<i32>(0);
      var s := dev.ReadSync(b, len, n);
      buf, nRead, err := b[..], n.value, GetErrMsg(s);
    }
  }

  /** Setting the crystal frequencies and reading them back returns the very
      `i32` values that were set: the `as u32` / `as i32` casts lose no bits. */
  method XtalFreqRoundTrip(d: Device, rtlFreqHz: i32, tunerFreqHz: i32)
      returns (rtlRead: i32, tunerRead: i32, err: Error)
    modifies d.dev`rtlXtal, d.dev`tunerXtal, d.dev`calls
    ensures err == GetErrMsg(d.dev.status)
    ensures d.dev.status == 0 ==> rtlRead == rtlFreqHz && tunerRead == tunerFreqHz
  {
    err := d.SetXtalFreq(rtlFreqHz, tunerFreqHz);
    rtlRead, tunerRead, err := d.GetXtalFreq();
    I32RoundTrip(rtlFreqHz);
    I32RoundTrip(tunerFreqHz);
  }

  /** Setting a direct-sampling mode and reading it back returns that mode. */
  method DirectSamplingRoundTrip(d: Device, mode: SamplingMode) returns (read: SamplingMode, err: Error)
    modifies d.dev`directSampling, d.dev`calls
    ensures err == GetErrMsg(d.dev.status)
    ensures d.dev.status == 0 ==> read == mode
  {
    err := d.SetDirectSampling(mode);
    read := d.GetDirectSampling();
    SamplingModeRoundTrip(mode);
  }
}
