/** Sample formats (src/format.rs): the `Format` enum, its endianness, its storage size, the conversions to
    and from libsoundio's `SoundIoFormat`, and the native/foreign endian aliases. */
module Formats {
  import opened Wrappers
  import opened Bytes
  import Sample
  import SampleRaw

  datatype Format =
    | Invalid
    | S8
    | U8
    | S16LE
    | S16BE
    | U16LE
    | U16BE
    | S24LE
    | S24BE
    | U24LE
    | U24BE
    | S32LE
    | S32BE
    | U32LE
    | U32BE
    | Float32LE
    | Float32BE
    | Float64LE
    | Float64BE

  datatype Endian = Big | Little

  /** A `SoundIoFormat` value: its C ordinal. */
  type RawFormat = x: int | 0 <= x <= 18

  /** The variants of `SoundIoFormat` in declaration order (libsoundio-sys/lib.rs:223-243): the ordinal of
      each is its position. */
  const RawOrder: seq<Format> := [Invalid, S8, U8, S16LE, S16BE, U16LE, U16BE, S24LE, S24BE, U24LE, U24BE,
    S32LE, S32BE, U32LE, U32BE, Float32LE, Float32BE, Float64LE, Float64BE]

  /** `impl From<raw::SoundIoFormat> for Format`. */
  function FromRaw(n: RawFormat): (f: Format)
    ensures f == RawOrder[n]
  {
    match n
    case 1 => S8
    case 2 => U8
    case 3 => S16LE
    case 4 => S16BE
    case 5 => U16LE
    case 6 => U16BE
    case 7 => S24LE
    case 8 => S24BE
    case 9 => U24LE
    case 10 => U24BE
    case 11 => S32LE
    case 12 => S32BE
    case 13 => U32LE
    case 14 => U32BE
    case 15 => Float32LE
    case 16 => Float32BE
    case 17 => Float64LE
    case 18 => Float64BE
    case _ => Invalid
  }

  /** `impl From<Format> for raw::SoundIoFormat`. */
  function ToRaw(f: Format): (n: RawFormat)
    ensures RawOrder[n] == f
  {
    match f
    case S8 => 1
    case U8 => 2
    case S16LE => 3
    case S16BE => 4
    case U16LE => 5
    case U16BE => 6
    case S24LE => 7
    case S24BE => 8
    case U24LE => 9
    case U24BE => 10
    case S32LE => 11
    case S32BE => 12
    case U32LE => 13
    case U32BE => 14
    case Float32LE => 15
    case Float32BE => 16
    case Float64LE => 17
    case Float64BE => 18
    case Invalid => 0
  }

  /** Every format, `Invalid` included, survives the trip through `SoundIoFormat`. */
  lemma FormatRoundTrip(f: Format)
    ensures FromRaw(ToRaw(f)) == f
  {
  }

  /** Every `SoundIoFormat` survives the trip through `Format`. */
  lemma RawFormatRoundTrip(n: RawFormat)
    ensures ToRaw(FromRaw(n)) == n
  {
  }

  /** `endianness`. In the C declaration order the big-endian variants are exactly those with an even
      ordinal from 4 on: every multi-byte encoding comes as a little-endian variant followed by its
      big-endian twin. */
  function Endianness(f: Format): (e: Endian)
    ensures e == Big <==> ToRaw(f) >= 4 && ToRaw(f) % 2 == 0
  {
    match f
    case Invalid | U8 | S8 | U16LE | S16LE | U24LE | S24LE | U32LE | S32LE | Float32LE | Float64LE => Little
    case U16BE | S16BE | U24BE | S24BE | U32BE | S32BE | Float32BE | Float64BE => Big
  }

  /** The examples of the doc comment of `endianness`. */
  lemma EndiannessExamples()
    ensures Endianness(S24LE) == Little && Endianness(U8) == Little && Endianness(Float64BE) == Big
  {
  }

  /** The integer type a format's samples are read and written as by `InStreamReader::sample` and
      `OutStreamWriter::set_sample` (src/instream.rs:373-391, src/outstream.rs:421-434); `None` for the
      float formats, which this model leaves out, and for `Invalid`, which both of them reject. */
  function WireType(f: Format): (t: Option<Sample.SampleType>)
    ensures t.Some? <==> 1 <= ToRaw(f) <= 14
  {
    match f
    case S8 => Some(Sample.I8)
    case U8 => Some(Sample.U8)
    case S16LE | S16BE => Some(Sample.I16)
    case U16LE | U16BE => Some(Sample.U16)
    case S24LE | S24BE => Some(Sample.I24)
    case U24LE | U24BE => Some(Sample.U24)
    case S32LE | S32BE => Some(Sample.I32)
    case U32LE | U32BE => Some(Sample.U32)
    case _ => None
  }

  /** In the C declaration order the integer formats come as a signed and an unsigned one of each width,
      the multi-byte ones each in a little- and a big-endian variant: the ordinal tells the signedness and
      the width of the type. */
  lemma WireTypeOfOrdinal(f: Format)
    requires WireType(f).Some?
    ensures var n, t := ToRaw(f), WireType(f).value;
      (t.IsSigned() <==> n == 1 || (n >= 3 && (n - 3) % 4 <= 1))
      && t.Bits() == if n <= 2 then 8 else 8 * ((n - 3) / 4 + 2)
  {
  }

  /** `soundio_get_bytes_per_sample`, as the table in the doc comment of `bytes_per_sample` gives it
      (src/format.rs:211-231): the storage size, so 4 for the 24-bit formats, and -1 for `Invalid`. */
  function BytesPerSampleC(f: Format): (n: int)
    ensures n == -1 <==> f == Invalid
    ensures WireType(f).Some? ==> n == SampleRaw.ReadWidth(WireType(f).value)
    ensures f == Float32LE || f == Float32BE ==> n == 4
    ensures f == Float64LE || f == Float64BE ==> n == 8
  {
    match f
    case Invalid => -1
    case S8 | U8 => 1
    case S16LE | S16BE | U16LE | U16BE => 2
    case S24LE | S24BE | U24LE | U24BE => 4
    case S32LE | S32BE | U32LE | U32BE => 4
    case Float32LE | Float32BE => 4
    case Float64LE | Float64BE => 8
  }

  /** `bytes_per_sample`: the C result cast `as usize`, so `Invalid`'s -1 becomes `usize::MAX`. */
  function BytesPerSample(f: Format): (n: nat)
    ensures n < UsizeModulus
    ensures f == Invalid ==> n == UsizeModulus - 1
    ensures f != Invalid ==> n == BytesPerSampleC(f) && n in {1, 2, 4, 8}
  {
    BytesPerSampleC(f) % UsizeModulus
  }

  /** `bytes_per_frame`: one sample of every channel. The `usize` product must not overflow, which Rust
      checks (a panic) in debug builds. */
  function BytesPerFrame(f: Format, channelCount: nat): (n: nat)
    requires BytesPerSample(f) * channelCount < UsizeModulus
    ensures n < UsizeModulus
    ensures f != Invalid ==> n >= channelCount
    ensures channelCount == 0 ==> n == 0
    ensures channelCount > 0 ==> n / channelCount == BytesPerSample(f) && n % channelCount == 0
  {
    ProductOfFactor(BytesPerSample(f), channelCount);
    BytesPerSample(f) * channelCount
  }

  /** `a * d` divided by a positive `d` is `a`, with no remainder. */
  lemma ProductOfFactor(a: nat, d: nat)
    ensures d > 0 ==> (a * d) / d == a && (a * d) % d == 0
  {
    if d > 0 {
      DivOfSum(a, 0, d);
      ModOfSum(a, 0, d);
    }
  }

  /** `bytes_per_second`: `sampleRate` frames. */
  function BytesPerSecond(f: Format, channelCount: nat, sampleRate: nat): (n: nat)
    requires BytesPerSample(f) * channelCount * sampleRate < UsizeModulus
    ensures n < UsizeModulus
  {
    BytesPerSample(f) * channelCount * sampleRate
  }

  /** A second of audio is `sampleRate` frames. */
  lemma BytesPerSecondIsFrames(f: Format, channelCount: nat, sampleRate: nat)
    requires BytesPerSample(f) * channelCount * sampleRate < UsizeModulus
    ensures BytesPerSample(f) * channelCount < UsizeModulus || sampleRate == 0
    ensures sampleRate > 0 ==> BytesPerSecond(f, channelCount, sampleRate) == BytesPerFrame(f, channelCount) * sampleRate
  {
  }

  /** The examples of the doc comments of `bytes_per_sample`, `bytes_per_frame` and `bytes_per_second`. */
  lemma SizeExamples()
    ensures BytesPerSample(S8) == 1 && BytesPerSample(Float64LE) == 8
    ensures BytesPerFrame(S8, 2) == 2 && BytesPerFrame(Float64LE, 4) == 32
    ensures BytesPerSecond(S8, 2, 8000) == 16000 && BytesPerSecond(Float64LE, 4, 4000) == 128000
  {
  }

  /** The sample encodings for which `native` defines a native-endian and a foreign-endian alias. */
  datatype Encoding = Signed16 | Unsigned16 | Signed24 | Unsigned24 | Signed32 | Unsigned32 | Float32 | Float64 {
    /** The position of the encoding in the declaration order of `SoundIoFormat`. */
    function Ordinal(): nat {
      match this
      case Signed16 => 0
      case Unsigned16 => 1
      case Signed24 => 2
      case Unsigned24 => 3
      case Signed32 => 4
      case Unsigned32 => 5
      case Float32 => 6
      case Float64 => 7
    }
  }

  /** The `*NE` alias of `native` on a target of byte order `target` (src/format.rs:75-152). */
  function NativeEndian(target: Endian, e: Encoding): (f: Format)
    ensures Endianness(f) == target
    ensures ToRaw(f) == 3 + 2 * e.Ordinal() + if target == Big then 1 else 0
  {
    match (target, e)
    case (Little, Signed16) => S16LE
    case (Little, Unsigned16) => U16LE
    case (Little, Signed24) => S24LE
    case (Little, Unsigned24) => U24LE
    case (Little, Signed32) => S32LE
    case (Little, Unsigned32) => U32LE
    case (Little, Float32) => Float32LE
    case (Little, Float64) => Float64LE
    case (Big, Signed16) => S16BE
    case (Big, Unsigned16) => U16BE
    case (Big, Signed24) => S24BE
    case (Big, Unsigned24) => U24BE
    case (Big, Signed32) => S32BE
    case (Big, Unsigned32) => U32BE
    case (Big, Float32) => Float32BE
    case (Big, Float64) => Float64BE
  }

  /** The `*FE` alias of `native` on a target of byte order `target`. */
  function ForeignEndian(target: Endian, e: Encoding): (f: Format)
    ensures Endianness(f) != target
    ensures ToRaw(f) == 3 + 2 * e.Ordinal() + if target == Big then 0 else 1
  {
    match (target, e)
    case (Little, Signed16) => S16BE
    case (Little, Unsigned16) => U16BE
    case (Little, Signed24) => S24BE
    case (Little, Unsigned24) => U24BE
    case (Little, Signed32) => S32BE
    case (Little, Unsigned32) => U32BE
    case (Little, Float32) => Float32BE
    case (Little, Float64) => Float64BE
    case (Big, Signed16) => S16LE
    case (Big, Unsigned16) => U16LE
    case (Big, Signed24) => S24LE
    case (Big, Unsigned24) => U24LE
    case (Big, Signed32) => S32LE
    case (Big, Unsigned32) => U32LE
    case (Big, Float32) => Float32LE
    case (Big, Float64) => Float64LE
  }

  /** The native and foreign aliases of an encoding are its two byte orders: they hold the same samples
      in the same number of bytes, and the native alias of one target is the foreign alias of the other. */
  lemma AliasesAreTwins(target: Endian, e: Encoding)
    ensures var ne, fe := NativeEndian(target, e), ForeignEndian(target, e);
      ne != fe && WireType(ne) == WireType(fe) && BytesPerSample(ne) == BytesPerSample(fe)
    ensures NativeEndian(target, e) == ForeignEndian(if target == Little then Big else Little, e)
  {
  }
}
