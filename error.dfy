/** Errors reported by the library (src/error.rs): the integer codes of libsoundio's `SoundIoError`
    and the crate's `Error` enum, with the two `From` conversions between them. */
module Errors {

  /** A C `int` (32-bit signed). */
  type CInt = x: int | -0x8000_0000 <= x < 0x8000_0000

  datatype Error =
    | NoMem
    | InitAudioBackend
    | SystemResources
    | OpeningDevice
    | NoSuchDevice
    | Invalid
    | BackendUnavailable
    | Streaming
    | IncompatibleDevice
    | NoSuchClient
    | IncompatibleBackend
    | BackendDisconnected
    | Interrupted
    | Underflow
    | EncodingString
    | Unknown

  /** The crate's `Result<T>`, whose error side is always an `Error`. */
  datatype Result<+T> = Ok(value: T) | Err(error: Error)

  /** The named variants in declaration order; they follow `SoundIoErrorNoMem` .. `SoundIoErrorEncodingString`,
      whose C ordinals are 1 .. 15 because `SoundIoErrorNone` is 0. */
  const NamedErrors: seq<Error> := [NoMem, InitAudioBackend, SystemResources, OpeningDevice, NoSuchDevice,
    Invalid, BackendUnavailable, Streaming, IncompatibleDevice, NoSuchClient, IncompatibleBackend,
    BackendDisconnected, Interrupted, Underflow, EncodingString]

  /** `impl From<c_int> for Error`. */
  function FromCInt(err: CInt): (e: Error)
    ensures e == Unknown <==> !(1 <= err <= 15)
    ensures 1 <= err <= 15 ==> e == NamedErrors[err - 1]
  {
    match err
    case 1 => NoMem
    case 2 => InitAudioBackend
    case 3 => SystemResources
    case 4 => OpeningDevice
    case 5 => NoSuchDevice
    case 6 => Invalid
    case 7 => BackendUnavailable
    case 8 => Streaming
    case 9 => IncompatibleDevice
    case 10 => NoSuchClient
    case 11 => IncompatibleBackend
    case 12 => BackendDisconnected
    case 13 => Interrupted
    case 14 => Underflow
    case 15 => EncodingString
    case _ => Unknown
  }

  /** `impl From<Error> for c_int`. */
  function ToCInt(e: Error): (err: CInt)
    ensures e == Unknown <==> err == -1
    ensures e != Unknown ==> 1 <= err <= 15 && NamedErrors[err - 1] == e
  {
    match e
    case NoMem => 1
    case InitAudioBackend => 2
    case SystemResources => 3
    case OpeningDevice => 4
    case NoSuchDevice => 5
    case Invalid => 6
    case BackendUnavailable => 7
    case Streaming => 8
    case IncompatibleDevice => 9
    case NoSuchClient => 10
    case IncompatibleBackend => 11
    case BackendDisconnected => 12
    case Interrupted => 13
    case Underflow => 14
    case EncodingString => 15
    case Unknown => -1
  }

  /** Every error survives the trip through its integer code. */
  lemma ErrorRoundTrip(e: Error)
    ensures FromCInt(ToCInt(e)) == e
  {
  }

  /** A code survives the trip through `Error` exactly when it is one of the fifteen named codes;
      every other code comes back as -1. */
  lemma CodeRoundTrip(n: CInt)
    ensures ToCInt(FromCInt(n)) == (if 1 <= n <= 15 then n else -1)
  {
  }

  /** The codes are the positions of the named variants, in declaration order. */
  lemma CodesAreOrdinals(i: nat)
    requires i < |NamedErrors|
    ensures ToCInt(NamedErrors[i]) == i + 1
    ensures FromCInt(i + 1) == NamedErrors[i]
  {
  }
}
