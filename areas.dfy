/** What the two per-callback buffer accessors, `OutStreamWriter` (src/outstream.rs) and `InStreamReader`
    (src/instream.rs), share: the channel areas libsoundio hands out, the address of a sample in them, and
    the format dispatch of `set_sample` and `sample`. The memory of a stream is one byte array; a channel
    area's `ptr` is an offset into it. */
module Areas {
  import opened Bytes
  import opened Sample
  import opened SampleRaw
  import Formats

  /** `SoundIoChannelArea` (libsoundio-sys/lib.rs:267-272): where the channel's first sample is, and how many
      bytes lie from one of its samples to the next. */
  datatype ChannelArea = ChannelArea(offset: nat, step: nat)

  /** `areas[channel].ptr.offset(frame * areas[channel].step)`. */
  function SampleOffset(area: ChannelArea, frame: nat): (p: nat)
    ensures p >= area.offset && (frame == 0 ==> p == area.offset)
  {
    area.offset + frame * area.step
  }

  /** Two frames of one channel are `step` bytes apart per frame, so with a step of at least the sample's
      width their samples do not overlap. */
  lemma FramesDoNotOverlap(area: ChannelArea, width: nat, i: nat, j: nat)
    requires width <= area.step && i < j
    ensures SampleOffset(area, j) == SampleOffset(area, i) + (j - i) * area.step
    ensures SampleOffset(area, i) + width <= SampleOffset(area, j)
  {
    var d := j - i;
    ProductOfSum(i, d, area.step);
    ProductOfSum(d - 1, 1, area.step);
  }

  lemma ProductOfSum(a: nat, b: nat, c: nat)
    ensures (a + b) * c == a * c + b * c
  {
  }

  /** The bytes one sample occupies in the stream's memory: `bytes_per_sample` of the stream's format. */
  function SampleBytes(f: Formats.Format): nat {
    if f == Formats.Invalid then 0 else Formats.BytesPerSample(f)
  }

  /** What libsoundio promises of the areas it hands out for `frames` frames: every sample lies inside the
      stream's memory of `size` bytes. */
  predicate AreasFit(areas: seq<ChannelArea>, frames: nat, width: nat, size: nat) {
    forall c, frame :: 0 <= c < |areas| && 0 <= frame < frames ==> SampleOffset(areas[c], frame) + width <= size
  }

  /** A format that `set_sample` and `sample` can serve: an integer format; they panic on `Invalid`, and the
      float formats are not part of this model. */
  predicate Served(f: Formats.Format) {
    Formats.WireType(f).Some?
  }

  function WireType(f: Formats.Format): SampleType
    requires Served(f)
  {
    Formats.WireType(f).value
  }

  function IsLittle(f: Formats.Format): bool {
    Formats.Endianness(f) == Formats.Little
  }

  /** The bytes the raw writer of `t` stores for `x`: `to_raw_le` or `to_raw_be`. */
  function StoreBytes(t: SampleType, little: bool, x: int): (bs: seq<Byte>)
    ensures |bs| == StoreWidth(t)
  {
    if little then EncodeLe(t, x) else EncodeBe(t, x)
  }

  /** Where in the sample's slot the raw writer of `t` puts those bytes. */
  function Lead(t: SampleType, little: bool): (k: nat)
    ensures k + StoreWidth(t) <= ReadWidth(t)
  {
    if little then 0 else BeLead(t)
  }

  /** The value the raw reader of `t` loads at `p`: `from_raw_le` or `from_raw_be`. */
  function LoadValue(t: SampleType, little: bool, buf: seq<Byte>, p: nat): (x: int)
    requires p + ReadWidth(t) <= |buf|
    ensures InRange(t, x)
  {
    if little then FromRawLe(t, buf, p) else FromRawBe(t, buf, p)
  }

  lemma LoadOfStore(t: SampleType, little: bool, x: int, buf: seq<Byte>, p: nat)
    requires InRange(t, x) && p + ReadWidth(t) <= |buf|
    ensures LoadValue(t, little, Splice(buf, p + Lead(t, little), StoreBytes(t, little, x)), p) == x
  {
    if little {
      RawLeRoundTrip(t, x, buf, p);
    } else {
      RawBeRoundTrip(t, x, buf, p);
    }
  }

  lemma LoadKeepsOthers(t: SampleType, little: bool, x: int, buf: seq<Byte>, p: nat, q: nat)
    requires p + ReadWidth(t) <= |buf| && q + ReadWidth(t) <= |buf|
    requires p + ReadWidth(t) <= q || q + ReadWidth(t) <= p
    ensures LoadValue(t, little, Splice(buf, p + Lead(t, little), StoreBytes(t, little, x)), q)
      == LoadValue(t, little, buf, q)
  {
    if little {
      LeKeepsOthers(t, x, buf, p, q);
    } else {
      BeKeepsOthers(t, x, buf, p, q);
    }
  }

  lemma LeKeepsOthers(t: SampleType, x: int, buf: seq<Byte>, p: nat, q: nat)
    requires p + ReadWidth(t) <= |buf| && q + ReadWidth(t) <= |buf|
    requires p + ReadWidth(t) <= q || q + ReadWidth(t) <= p
    ensures FromRawLe(t, Splice(buf, p, EncodeLe(t, x)), q) == FromRawLe(t, buf, q)
  {
    SpliceKeepsElsewhere(buf, p, EncodeLe(t, x), q, ReadWidth(t));
  }

  lemma BeKeepsOthers(t: SampleType, x: int, buf: seq<Byte>, p: nat, q: nat)
    requires p + ReadWidth(t) <= |buf| && q + ReadWidth(t) <= |buf|
    requires p + ReadWidth(t) <= q || q + ReadWidth(t) <= p
    ensures FromRawBe(t, Splice(buf, p + BeLead(t), EncodeBe(t, x)), q) == FromRawBe(t, buf, q)
  {
    SpliceKeepsElsewhere(buf, p + BeLead(t), EncodeBe(t, x), q + BeLead(t), StoreWidth(t));
  }

  lemma SampleBytesOfServed(f: Formats.Format)
    requires Served(f)
    ensures SampleBytes(f) == ReadWidth(WireType(f))
  {
  }

  /** The bytes the format arm of `set_sample` stores for a value `x` of the format's integer type
      (src/outstream.rs:421-434): `to_raw_le` for the one-byte and little-endian formats, `to_raw_be` for the
      big-endian ones. */
  function EncodeSample(f: Formats.Format, x: int): (bs: seq<Byte>)
    requires Served(f)
    ensures |bs| == StoreWidth(WireType(f)) <= SampleBytes(f)
  {
    SampleBytesOfServed(f);
    StoreBytes(WireType(f), IsLittle(f), x)
  }

  /** The memory after the format arm of `set_sample` has stored `x` in the slot at `p`: only bytes of that
      slot change. */
  function StoreSample(f: Formats.Format, buf: seq<Byte>, p: nat, x: int): (r: seq<Byte>)
    requires Served(f) && p + SampleBytes(f) <= |buf|
    ensures |r| == |buf|
    ensures forall i :: 0 <= i < |buf| && !(p <= i < p + SampleBytes(f)) ==> r[i] == buf[i]
  {
    SampleBytesOfServed(f);
    Splice(buf, p + Lead(WireType(f), IsLittle(f)), EncodeSample(f, x))
  }

  /** The value the format arm of `sample` loads at `p` (src/instream.rs:373-386), with the big-endian
      24-bit arms reading the low three bytes of the slot (see `SampleRaw.FromRawBe24AsWritten`). */
  function DecodeSample(f: Formats.Format, buf: seq<Byte>, p: nat): (x: int)
    requires Served(f) && p + SampleBytes(f) <= |buf|
    ensures InRange(WireType(f), x)
  {
    SampleBytesOfServed(f);
    LoadValue(WireType(f), IsLittle(f), buf, p)
  }

  /** A sample stored by the format dispatch of `set_sample` is loaded back unchanged by that of `sample`,
      for every integer format, the big-endian 24-bit ones with writer and reader corrected to the
      documented layout (see `SampleRaw.ToRawBe24AsWritten` and `SampleRaw.FromRawBe24AsWritten`). */
  lemma DecodeOfEncode(f: Formats.Format, x: int, buf: seq<Byte>, p: nat)
    requires Served(f) && InRange(WireType(f), x) && p + SampleBytes(f) <= |buf|
    ensures DecodeSample(f, StoreSample(f, buf, p, x), p) == x
  {
    SampleBytesOfServed(f);
    LoadOfStore(WireType(f), IsLittle(f), x, buf, p);
  }

  /** Storing one sample leaves every sample whose bytes lie elsewhere as it was. */
  lemma EncodeKeepsOthers(f: Formats.Format, x: int, buf: seq<Byte>, p: nat, q: nat)
    requires Served(f) && p + SampleBytes(f) <= |buf| && q + SampleBytes(f) <= |buf|
    requires p + SampleBytes(f) <= q || q + SampleBytes(f) <= p
    ensures DecodeSample(f, StoreSample(f, buf, p, x), q) == DecodeSample(f, buf, q)
  {
    SampleBytesOfServed(f);
    LoadKeepsOthers(WireType(f), IsLittle(f), x, buf, p, q);
  }

  /** A store leaves the bytes of a window it does not touch as they were. */
  lemma SpliceKeepsElsewhere(buf: seq<Byte>, p: nat, e: seq<Byte>, q: nat, w: nat)
    requires p + |e| <= |buf| && q + w <= |buf|
    requires p + |e| <= q || q + w <= p
    ensures Splice(buf, p, e)[q..q + w] == buf[q..q + w]
  {
  }
}
