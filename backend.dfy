/** Audio backends (src/backend.rs): the crate's `Backend`, libsoundio's `SoundIoBackend`, and the two `From`
    conversions between them. */
module Backends {

  datatype Backend = None | Jack | PulseAudio | Alsa | CoreAudio | Wasapi | Dummy

  /** A `SoundIoBackend` value: its C ordinal (libsoundio-sys/lib.rs:202-210). */
  type RawBackend = x: int | 0 <= x <= 6

  /** `SoundIoBackendNone`. */
  const RawNone: RawBackend := 0

  /** The variants of `Backend` in the order of `SoundIoBackend`: `RawOrder[n]` is the backend with C
      ordinal `n`. */
  const RawOrder: seq<Backend> := [None, Jack, PulseAudio, Alsa, CoreAudio, Wasapi, Dummy]

  /** `impl From<raw::SoundIoBackend> for Backend`: the six real backends by name, and everything else,
      that is `SoundIoBackendNone`, to `Backend::None`. */
  function FromRaw(n: RawBackend): (b: Backend)
    ensures b == RawOrder[n]
    ensures b == None <==> n == RawNone
  {
    match n
    case 1 => Jack
    case 2 => PulseAudio
    case 3 => Alsa
    case 4 => CoreAudio
    case 5 => Wasapi
    case 6 => Dummy
    case _ => None
  }

  /** `impl From<Backend> for raw::SoundIoBackend`: the inverse of `FromRaw`. */
  function ToRaw(b: Backend): (n: RawBackend)
    ensures RawOrder[n] == b
    ensures FromRaw(n) == b
    ensures b == None <==> n == RawNone
  {
    match b
    case Jack => 1
    case PulseAudio => 2
    case Alsa => 3
    case CoreAudio => 4
    case Wasapi => 5
    case Dummy => 6
    case _ => RawNone
  }

  /** Every `SoundIoBackend` survives the trip through `Backend`. */
  lemma RawBackendRoundTrip(n: RawBackend)
    ensures ToRaw(FromRaw(n)) == n
  {
  }
}
