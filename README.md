# rust-rtlsdr binding core, modelled in Dafny

rust-rtlsdr binds the native librtlsdr driver of RTL2832-based USB software-defined
radios. Almost every operation is one call into the driver followed by
`get_err_msg`, which turns the driver's signed status code into one of fourteen
`Error` variants. This model covers the logic that sits on top of those calls:

- the status-code mapper and its duplicate in the second binding in src/ffi.rs;
- the direct-sampling encode/decode pair and the tuner-type labels;
- the integer reinterpretations at the boundary (`i32 as u32`, `u32 as i32`, `usize as u16`);
- the buffer constants;
- the wrappers whose control flow does more than forward a single call: the
  two-call "count then fill" protocol of `get_tuner_gains`, the zero-initialised
  buffers of `read_eeprom` and `read_sync`, and the mutable out-parameters of
  `get_xtal_freq`.

Files and modules:

- `ctypes.dfy` (`CTypes`): the fixed-width integer types and the Rust `as` casts,
  written as arithmetic modulo 2^16 or 2^32.
- `native.dfy` (`Native`): a stand-in for the native driver, which is not visible.
  A `Driver` object holds the answers the driver gives: a status code, the replies
  of the gain count and fill calls, the gain table, the crystal frequencies, the
  direct-sampling state, the EEPROM image and the pending samples, and also
  what a failing call still writes into the caller's memory (out-parameter
  values, a partial EEPROM read or write, a partial sample transfer). A ghost log
  `calls` records every call made to the driver, with its arguments. `Cell<T>` is a caller-owned variable whose address the wrapper
  passes as an out-parameter.
- `rtlsdr.dfy` (`RtlSdr`): the safe binding in src/lib.rs.
- `ffi.dfy` (`Ffi`): the second binding in src/ffi.rs, which src/lib.rs does not include as a module.

The wrappers are methods of a `Device` class over a `Driver`. Each one says which
native calls it made (through the log), what it returns and how the driver state
changed. The pure parts are functions whose contracts state their meaning, plus
lemmas: inverses (the code table `ErrorCode`, the encoder `SamplingModeCode`, the
reverse cast), round trips, injectivity, the 16-bit length wrap, and agreement
between the two bindings' mappers.

The `Error` enum has exactly fourteen variants ending in `Other`; this code has
no EEPROM descriptor codec.

## Model

| member | source | states |
|---|---|---|
| `CTypes.I32AsU32` | src/lib.rs:252-258 | a non-negative `i32` keeps its value as `u32`; a negative `x` becomes `x + 2^32` |
| `CTypes.U32AsI32` | src/lib.rs:262-270 | a `u32` below 2^31 keeps its value as `i32`; a larger `u` becomes `u - 2^32` |
| `CTypes.I32RoundTrip` | src/lib.rs:252-270 | for every 32-bit signed `x`, casting to `u32` and back gives `x` |
| `CTypes.U32RoundTrip` | src/lib.rs:262-270 | for every `u32` `u`, casting to `i32` and back gives `u` |
| `CTypes.I32AsU32Injective` | src/lib.rs:255-256 | two different `i32` frequencies never reach the driver as the same `u32` |
| `CTypes.UsizeAsU16` | src/lib.rs:297 | a length below 65536 is sent unchanged; the sent length never exceeds the real one and differs from it by a multiple of 65536 |
| `CTypes.UsizeAsU16Wraps` | src/lib.rs:297 | a buffer 65536 bytes longer is sent with the same 16-bit length |
| `RtlSdr.BufferLengthConstants` | src/lib.rs:26-29 | DEFAULT_BUF_LENGTH = 262144 = 16·32·512, is a multiple of MIN_BUF_LENGTH and lies in [MIN_BUF_LENGTH, MAX_BUF_LENGTH]; MAX_BUF_LENGTH is a multiple of MIN_BUF_LENGTH |
| `RtlSdr.ErrorCode` | src/lib.rs:30 | reference table of libusb codes: `Other` alone has LIBUSB_ERROR_OTHER (-99), `NoError` alone has 0, every other variant has a code in -12..-1 |
| `RtlSdr.GetErrMsg` | src/lib.rs:160-178 | total; `NoError` exactly for code 0; `Other` exactly for codes below -12 or above 0; each code in -12..0 gives the variant whose libusb code it is |
| `RtlSdr.ErrorCodeRoundTrip` | src/lib.rs:160-178 | mapping the libusb code of any variant gives that variant back, `Other` included via -99 |
| `RtlSdr.GetErrMsgSurjective` | src/lib.rs:64-79 | each of the fourteen variants is the result of some status code |
| `RtlSdr.GetErrMsgInjectiveOnDefinedCodes` | src/lib.rs:163-175 | two different codes in -12..0 give two different variants |
| `RtlSdr.SamplingModeCode` | src/lib.rs:13-18 | the discriminant sent for a sampling mode lies in 0..3 |
| `RtlSdr.DecodeSamplingMode` | src/lib.rs:430-439 | `Unknown` exactly for codes outside {0, 1, 2}; any other result is the mode whose discriminant is the code |
| `RtlSdr.SamplingModeRoundTrip` | src/lib.rs:425-439 | decoding the discriminant of any of the four modes gives that mode back |
| `RtlSdr.SamplingCodeRoundTrip` | src/lib.rs:430-437 | re-encoding a decoded code gives the code back exactly when the code is in 0..3 |
| `RtlSdr.EverySamplingModeDecodable` | src/lib.rs:432-437 | each of the four modes is the decoding of some driver answer |
| `RtlSdr.FromTunerType` | src/lib.rs:180-190 | the label is "Unknown" exactly for the unknown tuner, which is a value and not an error |
| `RtlSdr.FromTunerTypeInjective` | src/lib.rs:52-60 | different tuner types have different labels |
| `RtlSdr.Device.SetXtalFreq` | src/lib.rs:252-258 | sends exactly one set call carrying both frequencies cast to `u32`; the error is the mapped status |
| `RtlSdr.Device.GetXtalFreq` | src/lib.rs:262-271 | makes one get call into out-parameters that start at 0; on success returns the driver's frequencies cast to `i32`; on failure returns, cast to `i32`, each out-parameter the failing call wrote, and 0 for each one it did not write |
| `RtlSdr.XtalFreqRoundTrip` | src/lib.rs:252-270 | setting the crystal frequencies and reading them back returns the values set whenever the driver accepts the calls |
| `RtlSdr.Device.WriteEeprom` | src/lib.rs:292-299 | sends one write call whose length is the data length mod 65536; on success the EEPROM holds that prefix of the data at the offset; on failure it holds whatever prefix the driver stored; the error is the mapped status |
| `RtlSdr.Device.ReadEeprom` | src/lib.rs:302-309 | returns exactly `len` bytes from a zero-initialised buffer: the EEPROM region on success; all zeros for a range past the end of the image; on any other failure whatever the failing call wrote, then zeros; one read call with the caller's offset and length |
| `RtlSdr.Device.GetTunerGains` | src/lib.rs:338-351 | a count of 0 or less returns an empty list with the mapped count as error, and no fill call is made, so a count of 0 gives an empty list with `NoError` although the commented-out message at src/lib.rs:342 calls every count of 0 or less an error; otherwise one fill call is made with a buffer of exactly `count` entries, the list has `count` entries (what the fill call wrote, zeros where it wrote nothing), and the error is `NoError` if the fill answered a positive number, else `Other` |
| `RtlSdr.Device.SetDirectSampling` | src/lib.rs:425-427 | sends the mode's discriminant in one call; the error is the mapped status |
| `RtlSdr.Device.GetDirectSampling` | src/lib.rs:430-439 | makes one get call and returns the decoding of the driver's answer: `Unknown` exactly when the answer is outside {0, 1, 2} |
| `RtlSdr.DirectSamplingRoundTrip` | src/lib.rs:425-439 | setting a mode and reading it back returns that mode whenever the driver accepts the set call |
| `RtlSdr.Device.ReadSync` | src/lib.rs:459-470 | returns a buffer of exactly `len` bytes; the count is what the driver reported, between 0 and `len`, on success the smaller of `len` and the samples available; those samples head the buffer, the rest stays zero, and they leave the stream |
| `Ffi.GetErrMsg` | src/ffi.rs:135-153 | total; `NoError` exactly for code 0; `Other` exactly for codes below -12 or above 0 |
| `Ffi.GetErrMsgAgreesWithLib` | src/ffi.rs:135-153 | on every status code this mapper gives the same-named variant as the one in src/lib.rs |
| `Ffi.GetErrMsgInjectiveOnDefinedCodes` | src/ffi.rs:138-150 | two different codes in -12..0 give two different variants |
| `Ffi.Device.GetCenterFreq` | src/ffi.rs:230-235 | makes one get call and reinterprets the driver's `c_int` as `u32`: a non-negative answer is unchanged, a negative `v` becomes `v + 2^32` |

## Left out

- The `extern "C"` declarations (src/lib.rs:86-158, src/ffi.rs:61-133): the native driver is foreign code. It appears only as the `Native.Driver` stand-in, wherever a wrapper branches on or copies its answers.
- The stand-in's own behaviour is an assumption, not librtlsdr's: one status code answers every status-returning call; a successful `set_xtal_freq` or `set_direct_sampling` stores its argument and the matching getter returns it unchanged (`XtalFreqRoundTrip` and `DirectSamplingRoundTrip` rest on this), and a failing one leaves the stored value unchanged; an EEPROM range past the end of the image is refused with -2, and neither read_eeprom nor write_eeprom writes anything for it; a gain fill writes at most as many entries as the buffer holds; a read_sync never reports more than `len` bytes, a successful one transfers the smaller of `len` and the pending samples, and a failing one moves its partial transfer from the front of the pending samples.
- `read_async`, `cancel_async` and the callback type: cross-thread streaming and cancellation inside the driver are concurrency the model does not capture.
- `unsafe impl Send/Sync` and `Arc<Device>`: ownership and thread-safety claims, with no logic to verify.
- `from_pchar`, `get_device_name`, `get_device_usb_strings`, `get_usb_strings`: they dereference C string pointers and decode UTF-8.
- `open`, `close`, `get_device_count`, `get_index_by_serial`, `get_tuner_type` and the one-line getters and setters (center frequency, frequency correction, tuner gain, bandwidth, IF gain, gain mode, sample rate, test mode, AGC, offset tuning, buffer reset): each forwards one call, then applies `GetErrMsg`, `FromTunerType`, a `CTypes` cast, `bool as i32`, or nothing, and the first three are modelled.
- The `println!` in `get_tuner_gains`: it is output only.
- The EEPROM hardware-info codec: only its constants exist in this code (src/lib.rs:31-35), and they are declared as constants.
- The `main` demo in src/ffi.rs and examples/ex1.rs: sequential drivers for real hardware.
- RtlSdr.Device.ReadSync: requires `len >= 0`. For a negative `len` the source's `len as usize` is close to 2^64, and `vec!` panics with a capacity overflow, which the model does not represent.
- Ffi.GetErrMsg: its own contract names only the success and catch-all cases. The per-code variants are stated by `Ffi.GetErrMsgAgreesWithLib`, together with `RtlSdr.GetErrMsg`.
