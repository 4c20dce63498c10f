/**
 A stand-in for the native librtlsdr device that the Rust wrappers call. Its
 real behaviour is not visible to this model, so a `Driver` is an oracle: its
 fields hold what the driver will answer (a status code, the gain count and
 fill replies, the contents of its EEPROM, the samples waiting to be read, and
 what a failing call still writes into the caller's memory), and
 every call made through it is appended to the ghost log `calls`, so that a wrapper's contract can say which native calls
 it made, in which order and with which arguments.
 */
module Native {
  import opened CTypes

  /** Status the stand-in answers for an EEPROM range that does not fit its image. */
  const EEPROM_RANGE_ERROR: i32 := -2

  datatype Option<T> = Absent | Present(value: T)

  /** One native call as it crosses the boundary. */
  datatype Call =
    | GainCount                          // get_tuner_gains(dev, NULL)
    | GainFill(capacity: nat)            // get_tuner_gains(dev, buffer of `capacity` entries)
    | XtalSet(rtl: u32, tuner: u32)      // set_xtal_freq
    | XtalGet                            // get_xtal_freq
    | EepromRead(offset: u8, len: u16)   // read_eeprom
    | EepromWrite(offset: u8, len: u16)  // write_eeprom
    | DirectSamplingSet(on: i32)         // set_direct_sampling
    | DirectSamplingGet                  // get_direct_sampling
    | CenterFreqGet                      // get_center_freq
    | SyncRead(requested: i32)           // read_sync

  /** A caller-owned variable whose address is passed as a native out-parameter (`&mut x as *mut T`). */
  class Cell<T> {
    var value: T

    constructor (v: T)
      ensures value == v
    {
      value := v;
    }
  }

  function Min(a: nat, b: nat): (m: nat)
  {
    if a <= b then a else b
  }

  class Driver {
    /** Status code answered by every status-returning call below. */
    var status: i32
    /** Answer of the gain-count call, the one made with a null buffer. */
    var gainCount: i32
    /** Answer of the gain-fill call, the one made with a buffer. */
    var gainFill: i32
    /** Gains, in tenths of a dB, that the fill call writes, whatever it answers
        (empty when it writes nothing). */
    var gainTable: seq<i32>
    var rtlXtal: u32
    var tunerXtal: u32
    /** What a failing get_xtal_freq writes into its first out-parameter, if anything. */
    var failedRtlXtal: Option<u32>
    /** What a failing get_xtal_freq writes into its second out-parameter, if anything. */
    var failedTunerXtal: Option<u32>
    var directSampling: i32
    /** The `c_int` answered by get_center_freq. */
    var centerFreq: i32
    var eeprom: seq<u8>
    /** Bytes a failing in-range read_eeprom writes at the start of the caller's buffer. */
    var failedEepromRead: seq<u8>
    /** Bytes a failing in-range write_eeprom stores before it fails. */
    var failedEepromWritten: nat
    /** Samples waiting in the device's stream. */
    var pending: seq<u8>
    /** Samples a failing read_sync transfers before it fails (a timeout may end a partial transfer). */
    var failedTransfer: nat
    ghost var calls: seq<Call>

    /** Whether `len` bytes from `offset` lie inside the EEPROM image. */
    predicate EepromInRange(offset: u8, len: u16)
      reads this
    {
      offset as int + len as int <= |eeprom|
    }

    /** Status answered by read_eeprom and write_eeprom for this range. */
    function EepromReply(offset: u8, len: u16): (s: i32)
      reads this
      ensures s == 0 ==> EepromInRange(offset, len)
    {
      if EepromInRange(offset, len) then status else EEPROM_RANGE_ERROR
    }

    /** Number of bytes write_eeprom stores for this range: all of them on
        success, none for a refused range, a prefix for any other failure. */
    function EepromWritten(offset: u8, len: u16): (w: nat)
      reads this
      ensures w <= len as int
      ensures w > 0 ==> EepromInRange(offset, len)
      ensures EepromReply(offset, len) == 0 ==> w == len as int
    {
      if !EepromInRange(offset, len) then 0
      else if status == 0 then len as int
      else if failedEepromWritten < len as int then failedEepromWritten else len as int
    }

    /** Number of samples read_sync transfers for a request of `len` bytes. */
    function Transferred(len: nat): (k: nat)
      reads this
      ensures k <= len && k <= |pending|
      ensures status == 0 ==> k == len || k == |pending|
    {
      var limit := if status == 0 then |pending| else Min(|pending|, failedTransfer);
      Min(len, limit)
    }

    method CountGains() returns (n: i32)
      modifies this`calls
      ensures n == gainCount
      ensures calls == old(calls) + [GainCount]
    {
      n := gainCount;
      calls := calls + [GainCount];
    }

    method FillGains(buf: array<i32>) returns (n: i32)
      modifies this`calls, buf
      ensures n == gainFill
      ensures calls == old(calls) + [GainFill(buf.Length)]
      ensures forall k :: 0 <= k < buf.Length ==>
        buf[k] == if k < |gainTable| then gainTable[k] else old(buf[k])
    {
      forall k | 0 <= k < buf.Length && k < |gainTable| {
        buf[k] := gainTable[k];
      }
      n := gainFill;
      calls := calls + [GainFill(buf.Length)];
    }

    method SetXtalFreq(rtl: u32, tuner: u32) returns (s: i32)
      modifies this`rtlXtal, this`tunerXtal, this`calls
      ensures s == status
      ensures calls == old(calls) + [XtalSet(rtl, tuner)]
      ensures status == 0 ==> rtlXtal == rtl && tunerXtal == tuner
      ensures status != 0 ==> rtlXtal == old(rtlXtal) && tunerXtal == old(tunerXtal)
    {
      if status == 0 {
        rtlXtal, tunerXtal := rtl, tuner;
      }
      s := status;
      calls := calls + [XtalSet(rtl, tuner)];
    }

    /** On success writes the stored frequencies; on failure writes each out-parameter
        whose `failed…Xtal` value is present, and leaves the other alone. */
    method GetXtalFreq(rtl: Cell<u32>, tuner: Cell<u32>) returns (s: i32)
      requires rtl != tuner
      modifies rtl, tuner, this`calls
      ensures s == status
      ensures calls == old(calls) + [XtalGet]
      ensures status == 0 ==> rtl.value == rtlXtal && tuner.value == tunerXtal
      ensures status != 0 && failedRtlXtal.Present? ==> rtl.value == failedRtlXtal.value
      ensures status != 0 && failedRtlXtal.Absent? ==> rtl.value == old(rtl.value)
      ensures status != 0 && failedTunerXtal.Present? ==> tuner.value == failedTunerXtal.value
      ensures status != 0 && failedTunerXtal.Absent? ==> tuner.value == old(tuner.value)
    {
      if status == 0 {
        rtl.value := rtlXtal;
        tuner.value := tunerXtal;
      } else {
        if failedRtlXtal.Present? {
          rtl.value := failedRtlXtal.value;
        }
        if failedTunerXtal.Present? {
          tuner.value := failedTunerXtal.value;
        }
      }
      s := status;
      calls := calls + [XtalGet];
    }

    method ReadEeprom(buf: array<u8>, offset: u8, len: u16) returns (s: i32)
      requires len as int <= buf.Length
      modifies buf, this`calls
      ensures s == EepromReply(offset, len)
      ensures calls == old(calls) + [EepromRead(offset, len)]
      ensures s == 0 ==> forall k :: 0 <= k < buf.Length ==>
        buf[k] == if k < len as int then eeprom[offset as int + k] else old(buf[k])
      ensures s != 0 ==> forall k :: 0 <= k < buf.Length ==>
        buf[k] == if EepromInRange(offset, len) && k < len as int && k < |failedEepromRead| then failedEepromRead[k] else old(buf[k])
    {
      s := EepromReply(offset, len);
      if s == 0 {
        forall k | 0 <= k < len as int {
          buf[k] := eeprom[offset as int + k];
        }
      } else if EepromInRange(offset, len) {
        forall k | 0 <= k < len as int && k < |failedEepromRead| {
          buf[k] := failedEepromRead[k];
        }
      }
      calls := calls + [EepromRead(offset, len)];
    }

    /** Reads up to `len` bytes from `data` and stores them at `offset`. */
    method WriteEeprom(data: seq<u8>, offset: u8, len: u16) returns (s: i32)
      requires len as int <= |data|
      modifies this`eeprom, this`calls
      ensures s == old(EepromReply(offset, len))
      ensures calls == old(calls) + [EepromWrite(offset, len)]
      ensures var w := old(EepromWritten(offset, len));
        eeprom == if w == 0 then old(eeprom) else old(eeprom)[..offset] + data[..w] + old(eeprom)[offset as int + w..]
    {
      s := EepromReply(offset, len);
      var w := EepromWritten(offset, len);
      if w > 0 {
        eeprom := eeprom[..offset] + data[..w] + eeprom[offset as int + w..];
      }
      calls := calls + [EepromWrite(offset, len)];
    }

    method SetDirectSampling(on: i32) returns (s: i32)
      modifies this`directSampling, this`calls
      ensures s == status
      ensures calls == old(calls) + [DirectSamplingSet(on)]
      ensures directSampling == if status == 0 then on else old(directSampling)
    {
      if status == 0 {
        directSampling := on;
      }
      s := status;
      calls := calls + [DirectSamplingSet(on)];
    }

    method GetDirectSampling() returns (c: i32)
      modifies this`calls
      ensures c == directSampling
      ensures calls == old(calls) + [DirectSamplingGet]
    {
      c := directSampling;
      calls := calls + [DirectSamplingGet];
    }

    method GetCenterFreq() returns (c: i32)
      modifies this`calls
      ensures c == centerFreq
      ensures calls == old(calls) + [CenterFreqGet]
    {
      c := centerFreq;
      calls := calls + [CenterFreqGet];
    }

    /** Moves the transferred samples into `buf` and stores their number in `nRead`,
        on success and on failure alike. */
    method ReadSync(buf: array<u8>, len: i32, nRead: Cell<i32>) returns (s: i32)
      requires 0 <= len as int <= buf.Length
      modifies buf, nRead, this`pending, this`calls
      ensures s == status
      ensures calls == old(calls) + [SyncRead(len)]
      ensures var k := old(Transferred(len as int));
        && nRead.value as int == k
        && pending == old(pending)[k..]
        && forall j :: 0 <= j < buf.Length ==> buf[j] == if j < k then old(pending)[j] else old(buf[j])
    {
      var k := Transferred(len as int);
      forall j | 0 <= j < k {
        buf[j] := pending[j];
      }
      nRead.value := k as i32;
      pending := pending[k..];
      s := status;
      calls := calls + [SyncRead(len)];
    }
  }
}
