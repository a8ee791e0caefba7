/** Small value types (src/types.rs): the device aim and the sample-rate range, with their conversions to and
    from libsoundio's structs. */
module Types {
  import opened Errors

  datatype DeviceAim = Input | Output

  /** A `SoundIoDeviceAim` value: `SoundIoDeviceAimInput` is 0 and `SoundIoDeviceAimOutput` is 1
      (libsoundio-sys/lib.rs:214-217). */
  type RawDeviceAim = x: int | 0 <= x <= 1

  /** `impl From<raw::SoundIoDeviceAim> for DeviceAim`. */
  function AimFromRaw(n: RawDeviceAim): (a: DeviceAim)
    ensures a == Input <==> n == 0
  {
    match n
    case 0 => Input
    case 1 => Output
  }

  /** `impl From<DeviceAim> for raw::SoundIoDeviceAim`: the inverse of `AimFromRaw`. */
  function AimToRaw(a: DeviceAim): (n: RawDeviceAim)
    ensures AimFromRaw(n) == a
  {
    match a
    case Input => 0
    case Output => 1
  }

  /** Every `SoundIoDeviceAim` survives the trip through `DeviceAim`. */
  lemma RawAimRoundTrip(n: RawDeviceAim)
    ensures AimToRaw(AimFromRaw(n)) == n
  {
  }

  /** `SampleRateRange`, and libsoundio's `SoundIoSampleRateRange`, both a pair of C ints. */
  datatype SampleRateRange = SampleRateRange(min: CInt, max: CInt)
  datatype RawSampleRateRange = RawSampleRateRange(min: CInt, max: CInt)

  /** `impl From<raw::SoundIoSampleRateRange> for SampleRateRange`. */
  function RangeFromRaw(r: RawSampleRateRange): (s: SampleRateRange)
    ensures s.min == r.min && s.max == r.max
  {
    SampleRateRange(r.min, r.max)
  }

  /** `impl From<SampleRateRange> for raw::SoundIoSampleRateRange`. */
  function RangeToRaw(s: SampleRateRange): (r: RawSampleRateRange)
    ensures r.min == s.min && r.max == s.max
  {
    RawSampleRateRange(s.min, s.max)
  }

  /** The two conversions are inverse to each other. */
  lemma RangeRoundTrips(s: SampleRateRange, r: RawSampleRateRange)
    ensures RangeFromRaw(RangeToRaw(s)) == s
    ensures RangeToRaw(RangeFromRaw(r)) == r
  {
  }
}
