# soundio-rs core, modelled in Dafny

This project models the computational core of soundio-rs. soundio-rs is the Rust wrapper around the libsoundio
audio library. The model covers:

- **Sample conversion** (`Sample`, `SampleRaw`). The `Sample` trait's integer conversions between u8, u16, u24,
  u32, i8, i16, i24 and i32 are shifts, wrapping half-range offsets and two's-complement casts. The raw
  little- and big-endian readers and writers work on a byte buffer. `Bytes` holds the byte-level arithmetic:
  little/big-endian values, `Splice` for a store into a window, and the `usize` modulus.
- **The per-callback buffer accessors** (`Areas`, `OutStreams`, `InStreams`):
  - `OutStreamWriter` and `InStreamReader` are classes, with their started flag, their granted frame count and
    their channel areas.
  - `begin_*`, `end_*`, `frame_count`, `set_sample` / `sample` and `Drop` are modelled.
  - The libsoundio side of a stream (`RawOutStream`, `RawInStream`) answers nondeterministically within what
    libsoundio promises: a frame count no larger than requested, and channel areas that fit the stream's memory.
    For an in-stream those areas may instead be NULL: a hole in the buffer, whose size is the frame count.
  - A channel area is an (offset, step) pair into the stream's one byte array.
- **The value tables**:
  - `Formats`: formats, endianness, byte sizes, native-endian aliases;
  - `Layouts`: channel layouts, their fixed 24-slot C form, equality that ignores the name, best match,
    `find_channel`, the stable `sort`, layout ids;
  - `Channels`, `Errors`, `Backends` and `Types`: the enum mappings.
- **The string helpers** (`Util`): `latin1_to_string`, and `utf8_to_string` with a UTF-8 codec as in section 3
  of RFC 3629.
- **The context logic** (`Contexts`):
  - the application name, with its ':' filter and its default "SoundIo";
  - the mapping of libsoundio's device answers (a device pointer, its probe error, a default index, a count)
    to the crate's `Option` and `Result` values.

Rust's fixed-width integers are unbounded `int`s here. Every `as` cast that can change a value is written out
as a two's-complement truncation (`Sample.AsU8`, `Sample.AsI32`, …). A `usize` result is reduced modulo
2^64 (`Bytes.UsizeModulus`).

C calls and results the core only passes on become parameters:
- the device lookup of `soundio_get_*_device`;
- the raw count and default index;
- what `soundio_parse_channel_id` answers;
- the transport calls of a stream.

## Model

| member | source | states |
|---|---|---|
| Errors.FromCInt | src/error.rs:57-78 | codes 1..15 map in order to the named errors, and every other code (0 and negatives included) maps to `Unknown`, in both directions of that iff |
| Errors.ToCInt | src/error.rs:80-101 | `Unknown` maps to -1 and only it does; each named error maps to its position 1..15 in the declaration order |
| Errors.ErrorRoundTrip | src/error.rs:57-101 | `Error::from(c_int::from(e)) == e` for every error |
| Errors.CodeRoundTrip | src/error.rs:57-101 | `c_int::from(Error::from(n))` is `n` for 1..15 and -1 for every other code |
| Errors.CodesAreOrdinals | libsoundio-sys/lib.rs:50-81 | the i-th named error has code i+1, the ordinal of the matching `SoundIoError` |
| Backends.FromRaw | src/backend.rs:35-47 | raw backend `n` maps to the `n`-th backend of `SoundIoBackend`'s declaration order (libsoundio-sys/lib.rs:202-210), so only raw `None` maps to `Backend::None` |
| Backends.ToRaw | src/backend.rs:49-61 | each backend maps to the ordinal that names it in that order; mapping back gives the backend again; `None` maps to raw `None` and only it does |
| Backends.RawBackendRoundTrip | src/backend.rs:35-61 | raw → backend → raw is the identity for every raw backend |
| Types.AimFromRaw | src/types.rs:15-22 | `SoundIoDeviceAimInput` (ordinal 0), and only it, maps to `Input` |
| Types.AimToRaw | src/types.rs:24-31 | mapping back gives the aim again (aim → raw → aim is the identity) |
| Types.RawAimRoundTrip | src/types.rs:15-31 | raw → aim → raw is the identity |
| Types.RangeFromRaw | src/types.rs:41-48 | `min` and `max` are kept |
| Types.RangeToRaw | src/types.rs:50-57 | `min` and `max` are kept |
| Types.RangeRoundTrips | src/types.rs:41-57 | both compositions of the sample-rate-range conversions are the identity |
| Channels.FromRaw | src/channels.rs:105-179 | raw id `n` maps to the `n`-th variant of `SoundIoChannelId`'s declaration order (libsoundio-sys/lib.rs:86-166), 0 to `Invalid` |
| Channels.ToRaw | src/channels.rs:181-255 | each id maps to the ordinal that names it in that order |
| Channels.ChannelRoundTrip | src/channels.rs:105-255 | ChannelId → raw → ChannelId is the identity for all 69 ids, `Invalid` included |
| Channels.RawChannelRoundTrip | src/channels.rs:105-255 | raw → ChannelId → raw is the identity for every raw id 0..68 |
| Channels.Parse | src/channels.rs:280-285 | no id exactly when libsoundio's parser answers `Invalid`; otherwise a valid id that maps back to the parser's answer |
| Formats.FromRaw | src/format.rs:154-178 | each raw ordinal maps to the format at that position in libsoundio's declaration order |
| Formats.ToRaw | src/format.rs:180-204 | each format maps to the ordinal that names it in that order |
| Formats.FormatRoundTrip | src/format.rs:154-204 | Format → raw → Format is the identity for every format, `Invalid` included |
| Formats.RawFormatRoundTrip | src/format.rs:154-204 | raw → Format → raw is the identity |
| Formats.Endianness | src/format.rs:67-72 | `Big` exactly for the formats at the even ordinals from 4 on, i.e. every `*BE`; `Little` for `Invalid`, `S8`, `U8` and every `*LE` |
| Formats.EndiannessExamples | src/format.rs:62-66 | the doc example: S24LE and U8 are little-endian, Float64BE is big-endian |
| Formats.WireType | src/outstream.rs:420-439 | an integer sample type exactly for the 14 integer formats (ordinals 1..14), none for `Invalid` and the floats |
| Formats.WireTypeOfOrdinal | libsoundio-sys/lib.rs:223-243 | the integer type of each integer format has the signedness and width that its name and its ordinal in `SoundIoFormat` give |
| Formats.BytesPerSampleC | src/format.rs:207-231 | the documented table: -1 for `Invalid` only, 1/2/4/4 for the 8/16/24/32-bit formats (24-bit formats use a 4-byte word), 4 for Float32 and 8 for Float64 |
| Formats.BytesPerSample | src/format.rs:241-243 | libsoundio's count cast to `usize`: the `-1` of `Invalid` becomes 2^64-1; any other format has 1, 2, 4 or 8 |
| Formats.BytesPerFrame | src/format.rs:257-259 | a fitting `usize`, at least the channel count for a valid format; divided by a positive channel count it gives the sample size with no remainder |
| Formats.BytesPerSecond | src/format.rs:272-274 | the product fits a `usize` when the caller's operands do |
| Formats.BytesPerSecondIsFrames | src/format.rs:261-274 | bytes per second is bytes per frame times the sample rate, and the frame product fits whenever the second product does and the rate is positive |
| Formats.SizeExamples | src/format.rs:233-270 | the doc examples: S8 1, Float64LE 8; frames S8×2 = 2, Float64LE×4 = 32; seconds (S8, 2, 8000) = 16000, (Float64LE, 4, 4000) = 128000 |
| Formats.NativeEndian | src/format.rs:114-152 | the `*NE` alias has the target's endianness and is the variant of the given encoding with that endianness |
| Formats.ForeignEndian | src/format.rs:75-112 | the `*FE` alias has the other endianness and is the variant of the given encoding with it |
| Formats.AliasesAreTwins | src/format.rs:75-152 | native and foreign aliases are distinct but carry the same sample type and size; native on one target is foreign on the other |
| Sample.UnsignedFromUnsigned | src/sample.rs:234-281 | every unsigned value converts to a value in range of the unsigned target |
| Sample.SignedFromSigned | src/sample.rs:283-328 | every signed value converts to a value in range of the signed target |
| Sample.SignedToUnsignedOffset | src/sample.rs:217-224 | the half-range flip of a signed value lands in range of the unsigned type of the same width |
| Sample.UnsignedToSignedOffset | src/sample.rs:226-233 | the half-range flip of an unsigned value lands in range of the signed type of the same width (with the corrected, sign-extending `i24::from_u24`) |
| Sample.FromSample | src/sample.rs:101-116 | `dst::from_src(v)` (= `src::to_dst(v)`) maps every value of `src` into the range of `dst` |
| Sample.SignExtendOfWord | src/sample.rs:139 | `((w << 8) as i32) >> 8` is the sign extension from bit 23 |
| Sample.SignedFlipIsShift | src/sample.rs:219-222 | `(v as uN).wrapping_add(half)` is `v - MIN`, an order-preserving shift and not just some in-range value |
| Sample.UnsignedFlipIsShift | src/sample.rs:228-231 | `(v.wrapping_add(half)) as iN` is `v + iN::MIN` (with the corrected `i24::from_u24`) |
| Sample.ToU8KeepsLevel | src/sample.rs:235-240 | `u8::from_u*` is the reference rescaling onto u8 |
| Sample.ToU16KeepsLevel | src/sample.rs:247-252 | `u16::from_u*` is the reference rescaling onto u16 |
| Sample.ToU24KeepsLevel | src/sample.rs:259-264 | `u24::from_u*` is the reference rescaling onto u24 |
| Sample.ToU32KeepsLevel | src/sample.rs:271-276 | `u32::from_u*` is the reference rescaling onto u32 |
| Sample.UnsignedConversionKeepsLevel | src/sample.rs:234-281 | every unsigned-to-unsigned conversion is the reference rescaling |
| Sample.ToI8KeepsLevel | src/sample.rs:283-288 | `i8::from_i*` is the reference rescaling onto i8 |
| Sample.ToI16KeepsLevel | src/sample.rs:294-299 | `i16::from_i*` is the reference rescaling onto i16 |
| Sample.ToI24KeepsLevel | src/sample.rs:306-311 | `i24::from_i*` is the reference rescaling onto i24 |
| Sample.ToI32KeepsLevel | src/sample.rs:318-323 | `i32::from_i*` is the reference rescaling onto i32 |
| Sample.SignedConversionKeepsLevel | src/sample.rs:283-328 | every signed-to-signed conversion is the reference rescaling |
| Sample.ConversionIsRescaling | src/sample.rs:7-9 | every integer conversion, across signedness too, maps a value to the value at the same position of the full range on a common 32-bit scale, so the full range is always used |
| Sample.WideningIsLossless | src/sample.rs:388-413 | converting to a type at least as wide (signedness changed or not) and back gives every value back: the sign flip, `u8::from_i16(i16::from_u8(v))`, `u16::from_i24(..)`, `u24::from_i32(..)` (with the corrected `i24::from_u24`) |
| Sample.ConversionIsMonotone | src/sample.rs:217-328 | every conversion preserves order (with the corrected `i24::from_u24`) |
| Sample.ConversionKeepsMinimum | src/sample.rs:7-9 | the minimum maps to the minimum at every width, e.g. `0u16.to_i8()` is -128 (with the corrected `i24::from_u24`) |
| Sample.NarrowingKeepsMaximum | src/sample.rs:234-328 | narrowing maps the maximum to the maximum |
| Sample.WideningMaximum | src/sample.rs:234-328 | widening maps the maximum to the target maximum less the low bits a shift leaves zero |
| Sample.I24FromU24AsWritten | src/sample.rs:230 | `i24::from_u24` as written: a 24-bit word, the corrected value plus 2^24 for the lower half of the range |
| Sample.I24FromU24AsWrittenIsWrong | src/sample.rs:230 | `i24::from_u24(u24(0))` holds 0x800000, outside the i24 range and above the value for 0x800000, so the conversion is not monotone |
| Sample.I24FromU24AsWrittenAgreesElsewhere | src/sample.rs:397-399 | the wrong word is hidden by every consumer that masks or shifts it: `u24::from_i24` (the tested sign round trip), `i8`, `i16` and `i32::from_i24` all give the corrected results |
| SampleRaw.FromWord | src/sample.rs:121-139 | the value the type reads from a little-endian word lies in range |
| SampleRaw.EncodeLe | src/sample.rs:118-156 | the little-endian writer stores exactly the type's width: 1, 2, 3 (24-bit types) or 4 bytes |
| SampleRaw.EncodeBe | src/sample.rs:118-156 | the big-endian writer stores exactly the type's width of bytes, most significant first |
| SampleRaw.FromRawLe | src/sample.rs:120-140 | the little-endian reader yields an in-range value |
| SampleRaw.FromRawBe | src/sample.rs:123-131 | the big-endian reader yields an in-range value; for the 24-bit types it is the corrected reader of the low three bytes of the slot |
| SampleRaw.FromRawBe24AsWritten | src/sample.rs:141-144 | the 24-bit `from_raw_be` as written is the little-endian read of the word three bytes further on, which ends three bytes past the slot |
| SampleRaw.ToRawLe | src/sample.rs:118-156 | `to_raw_le` changes exactly the type's width of bytes at the pointer, to the little-endian bytes, and no other byte |
| SampleRaw.ToRawBe | src/sample.rs:118-156 | `to_raw_be` changes exactly the type's width of bytes, to the big-endian bytes, and no other byte: at the pointer, or for the 24-bit types (corrected) one byte in, in the low three bytes of the 32-bit slot |
| SampleRaw.ToRawBe24AsWritten | src/sample.rs:150-154 | the 24-bit `to_raw_be` as written changes exactly the three bytes at the pointer, to the big-endian bytes, and no other byte |
| SampleRaw.FromRawLe24IgnoresFourthByte | src/sample.rs:137-140 | the 24-bit `from_raw_le` depends on the three low bytes only: unsigned is their value, signed is that value sign-extended from bit 23 |
| SampleRaw.RawLeRoundTrip | src/sample.rs:459-487 | `from_raw_le(to_raw_le(v)) == v` for every value of every integer type, whatever the buffer held |
| SampleRaw.RawBeRoundTrip | src/sample.rs:123-154 | `from_raw_be(to_raw_be(v)) == v` for every type, the 24-bit writer and reader both corrected to the low three bytes of the slot (libsoundio-sys/lib.rs:231-234) |
| SampleRaw.BeReadOfLeBytes | src/sample.rs:465-479 | reading little-endian bytes with `from_raw_be` gives `v.swap_bytes()`, which is `v` for one-byte types |
| SampleRaw.FromRawBe24AsWrittenIsWrong | src/sample.rs:141-144 | u24 0x100 in the low three bytes of a zeroed slot reads back as 0 with the as-written reader and as 0x100 with the corrected one |
| SampleRaw.ToRawBe24AsWrittenIsWrong | src/sample.rs:150-154 | u24 1 stored by the as-written writer at the start of a zeroed slot reads back as 0x100 from the low three bytes; stored there by the corrected writer, as 1 |
| Bytes.Splice | src/sample.rs:145-154 | a store into a window keeps the length, puts the new bytes in the window and keeps every byte outside it |
| Bytes.LeRoundTrip | src/sample.rs:126-128 | the little-endian bytes of `x` read back as `x` modulo 256^n |
| Bytes.BeRoundTrip | src/sample.rs:129-131 | the big-endian bytes of `x` read back as `x` modulo 256^n |
| Areas.SampleOffset | src/outstream.rs:418 | `ptr.offset(frame * step)`: never before the channel's first sample, and at it for frame 0 (the same address as src/instream.rs:369) |
| Areas.FramesDoNotOverlap | src/outstream.rs:418 | frames of one channel are `step` bytes apart per frame, so with a step at least the sample width their samples do not overlap |
| Areas.EncodeSample | src/outstream.rs:420-434 | the bytes `set_sample` stores for an integer format are exactly its type's width, never more than the format's sample size |
| Areas.StoreSample | src/outstream.rs:418-434 | the memory after `set_sample`'s format arm has the same length, and no byte outside the sample's slot changes |
| Areas.DecodeSample | src/instream.rs:371-385 | the value `sample` loads for an integer format lies in range of the format's type (with the corrected big-endian 24-bit reader) |
| Areas.DecodeOfEncode | src/instream.rs:371-385 | a sample stored by `set_sample`'s dispatch loads back unchanged through `sample`'s dispatch, for every integer format (with the corrected big-endian 24-bit writer and reader) |
| Areas.EncodeKeepsOthers | src/outstream.rs:418-434 | storing one sample leaves the value of every sample whose bytes lie elsewhere unchanged |
| Areas.LoadOfStore | src/sample.rs:118-156 | for either byte order, the reader of a type loads back what its writer stored (with the corrected big-endian 24-bit writer and reader) |
| Areas.LoadKeepsOthers | src/sample.rs:118-156 | for either byte order, a store leaves every read of a disjoint window unchanged |
| OutStreams.RawOutStream.BeginWrite | src/outstream.rs:269-270 | libsoundio's promise: on success a frame count no larger than requested and one area per channel, all fitting the stream's memory; the outcome is recorded |
| OutStreams.RawOutStream.EndWrite | src/outstream.rs:324 | one more commit, and its code recorded |
| OutStreams.OutStreamWriter.constructor | src/outstream.rs:21-29 | a fresh writer is not started, has no areas and a frame count of 0 |
| OutStreams.OutStreamWriter.ChannelCount | src/outstream.rs:360-365 | the layout's channel count, at least 1 as documented, and one channel area per channel once frames are granted |
| OutStreams.OutStreamWriter.FrameCount | src/outstream.rs:348-351 | needs a started write; the granted count |
| OutStreams.OutStreamWriter.BeginWrite | src/outstream.rs:287-308 | requires min ≤ n ≤ max (the assertion). On success: started, the granted count (≤ n) stored and returned, and a zero grant keeps the old areas. On error: `Err` of the code, with flag, count and areas unchanged |
| OutStreams.OutStreamWriter.EndWrite | src/outstream.rs:321-330 | no call and no change without a started write; otherwise one commit, and the write stays started exactly when the commit fails |
| OutStreams.OutStreamWriter.SetSample | src/outstream.rs:411-442 | requires a started write, channel < count and frame < frame count; the memory afterwards is the old memory with the converted sample stored in its slot at `offset + frame * step` by the format's writer, and no other byte changed |
| OutStreams.OutStreamWriter.Drop | src/outstream.rs:455-464 | commits exactly when a write is still started |
| InStreams.RawInStream.BeginRead | libsoundio-sys/lib.rs:1057-1087 | libsoundio's promise: on success a frame count no larger than requested, and either NULL areas (a hole) or one area per channel that fits; the outcome is recorded |
| InStreams.RawInStream.EndRead | src/instream.rs:277 | one more release, and its code recorded |
| InStreams.InStreamReader.constructor | src/instream.rs:21-29 | a fresh reader is not started, has no areas and a frame count of 0 |
| InStreams.InStreamReader.ChannelCount | src/instream.rs:313-318 | the layout's channel count, at least 1 as documented, and one channel area per channel once frames are granted outside a hole |
| InStreams.InStreamReader.FrameCount | src/instream.rs:301-304 | needs a started read; the granted count |
| InStreams.InStreamReader.BeginRead | src/instream.rs:240-261 | requires min ≤ n ≤ max. On success: started, the granted count (≤ n) stored and returned, and a zero grant keeps the old areas. A hole leaves no areas, and every other answer gives the areas the source copies. On error: `Err` of the code, with the reader unchanged (with the hole handled, see Findings) |
| InStreams.CopyAreasAsWritten | src/instream.rs:250-256 | the areas the source holds after a successful answer: the old ones after a zero grant, the `cc` areas behind the pointer otherwise, and a read through NULL exactly at a hole |
| InStreams.CopyAreasAsWrittenReadsNull | src/instream.rs:254-256 | a hole of any size, for any channel count, makes the source read through the null pointer |
| InStreams.InStreamReader.EndRead | src/instream.rs:274-283 | no call and no change without a started read; otherwise one release, and the read stays started exactly when it fails |
| InStreams.InStreamReader.SampleValue | src/instream.rs:362-393 | requires a started read, channel and frame in range, and no hole (indexing the empty areas panics); a value in range of the type asked for, read without changing memory or reader |
| InStreams.InStreamReader.SampleOfStored | src/instream.rs:362-393 | where `set_sample`'s dispatch stored `x`, `sample` returns `x` converted to the type asked for (with the corrected big-endian 24-bit writer and reader) |
| InStreams.InStreamReader.Drop | src/instream.rs:406-415 | releases exactly when a read is still started |
| InStreams.SampleRoundTrip | src/instream.rs:371-385 | `set_sample::<T>` followed by `sample::<T>` at the same address gives the value back whenever the format's type is at least as wide as `T` (with the corrected big-endian 24-bit writer and reader, and the corrected `i24::from_u24`) |
| Util.Terminated | src/util.rs:32 | what `CStr::from_ptr` needs: a null pointer, or memory with a NUL byte somewhere |
| Util.ToBytes | src/util.rs:32 | `CStr::to_bytes`: the bytes before the first NUL, none of them NUL |
| Util.Latin1ToString | src/util.rs:28-35 | null gives ""; otherwise one char per byte before the NUL, each char's code equal to its byte |
| Util.Latin1Range | src/util.rs:32-34 | the Latin-1 result has no U+0000 and no char above U+00FF |
| Util.Latin1RoundTrip | src/util.rs:32-34 | the one-byte-per-char encoding of a Latin-1 string without U+0000 reads back as that string |
| Util.Latin1Example | src/util.rs:24-26 | the bytes of "£µ±«" read back as "£µ±«" |
| Util.DecodeChar | src/util.rs:45 | one decoded character consumes 1 to 4 bytes, never more than there are |
| Util.Decode | src/util.rs:45 | a decoded text has at most as many chars as there were bytes, and is empty only for no bytes |
| Util.EncodeChar | src/util.rs:43-45 | one character encodes to 1 to 4 bytes, which contain a NUL exactly for U+0000 |
| Util.Encode | src/util.rs:43-45 | the UTF-8 encoding contains a NUL byte exactly when the text contains U+0000 |
| Util.DecodeOfEncode | src/util.rs:43-45 | UTF-8 decoding inverts encoding for every string |
| Util.EncodeOfDecode | src/util.rs:43-45 | every byte sequence the decoder accepts is the encoding of what it decodes to, so the decoder accepts only well-formed UTF-8 |
| Util.Utf8ToString | src/util.rs:39-46 | null gives ""; valid UTF-8 before the NUL gives the decoded text; invalid UTF-8 gives "" |
| Util.Utf8RoundTrip | src/util.rs:39-46 | the UTF-8 bytes of a text without U+0000, then a NUL, read back as that text |
| Util.Utf8ReadsEncoding | src/util.rs:39-46 | a non-empty result is the text exactly when the bytes before the NUL are its encoding |
| Util.Utf8Rejects | src/util.rs:45 | an overlong NUL, a surrogate and a code point above U+10FFFF all give "" |
| Layouts.TakenSlots | src/layout.rs:34 | `take(channel_count as usize)`: the count when it is 0..24; never more than the 24 slots |
| Layouts.FromRaw | src/layout.rs:30-37 | the Latin-1 name and exactly the first `channel_count` ids (capped at 24), each mapped, in order |
| Layouts.RawOf | src/layout.rs:39-57 | the C layout of a layout: well formed, null name, count min(len, 24), the first ids in order, `Invalid` in every other slot |
| Layouts.ToRaw | src/layout.rs:39-57 | a null name, count min(len, 24), the first entries copied in order, and `Invalid` in every other slot |
| Layouts.RawRoundTrip | src/layout.rs:30-57 | through the C layout, a layout comes back nameless with its first 24 channels, so it equals the original exactly when it has at most 24 |
| Layouts.LayoutRawRoundTrip | src/layout.rs:30-57 | a well-formed C layout keeps its count and its first `channel_count` ids through the crate's layout |
| Layouts.Equal | src/layout.rs:214-219 | two layouts are equal exactly when they have the same ids in the same order |
| Layouts.EqualIgnoresName | src/layout.rs:198-219 | equality ignores the name, is an equivalence, keeps channel order significant, and holds for the doc example |
| Layouts.Contains | src/layout.rs:130 | `contains` under that equality: a layout in the list is contained, a layout is contained only if some entry has its channels, and an empty list contains nothing |
| Layouts.BestMatching | src/layout.rs:128-135 | the first preferred layout equal to some available one, and `None` exactly when there is none |
| Layouts.Position | src/layout.rs:151 | `iter().position`: the index of the first occurrence, and `None` exactly when the element is absent |
| Layouts.FindChannel | src/layout.rs:149-152 | the index of the first matching channel, and `None` exactly when the channel is absent |
| Layouts.FindChannelExample | src/layout.rs:141-147 | in stereo, FrontLeft is at 0 and FrontCenter is absent |
| Layouts.GroupOfAppend | src/layout.rs:192-195 | the sub-sequence of layouts with one channel count distributes over concatenation |
| Layouts.SwapKeepsGroups | src/layout.rs:192-195 | swapping neighbours with different channel counts keeps the per-count order |
| Layouts.GroupsArePermutation | src/layout.rs:192-195 | equal per-count sub-sequences mean the same multiset of layouts |
| Layouts.Sort | src/layout.rs:192-195 | non-decreasing channel counts; stable (equal counts keep their order); a permutation |
| Layouts.Insert | src/layout.rs:192-195 | one insertion step: the prefix sorted one further, per-count order kept |
| Layouts.LayoutIdFromRaw | src/layout.rs:264-295 | each raw layout id maps to the id at that position in libsoundio's order |
| Layouts.LayoutIdToRaw | src/layout.rs:297-328 | each id maps to the ordinal that names it |
| Layouts.LayoutIdRoundTrip | src/layout.rs:264-328 | id → raw → id is the identity |
| Layouts.RawLayoutIdRoundTrip | src/layout.rs:264-328 | raw → id → raw is the identity |
| Contexts.RemoveColons | src/context.rs:226 | the stored name contains no ':' and is no longer than the given one |
| Contexts.RemoveColonsOfAppend | src/context.rs:226 | the filter works piecewise, so it keeps the order of what it keeps |
| Contexts.RemoveColonsIsIdentity | src/context.rs:226 | a name is stored unchanged exactly when it has no ':' |
| Contexts.RemoveColonsIsIdempotent | src/context.rs:226 | setting the stored name again changes nothing |
| Contexts.RemoveColonsKeepsOthers | src/context.rs:226 | every char other than ':' occurs as often in the stored name as in the given one |
| Contexts.AppNameExample | src/context.rs:236-237 | ":::My App:::" is stored as "My App" |
| Contexts.DefaultAppNameIsKept | src/context.rs:119 | the default "SoundIo" passes the filter unchanged |
| Contexts.AppNameMemoryAsWritten | src/context.rs:227 | what the pointer given to libsoundio reaches: the UTF-8 bytes of the stored name, at least one byte per char |
| Contexts.AppNameAsWrittenIsUnterminated | src/context.rs:227 | for a name without U+0000 those bytes hold no NUL, so the C string libsoundio reads is unterminated |
| Contexts.AppNameCString | src/context.rs:225-228 | the corrected C string of a name is a pointer to memory that ends in a NUL |
| Contexts.AppNameCStringReadsBack | src/context.rs:225-228 | the corrected C string is terminated and libsoundio reads back exactly the stored name |
| Contexts.Context.constructor | src/context.rs:110-119 | a fresh context's name is "SoundIo" |
| Contexts.Context.SetAppName | src/context.rs:225-228 | the stored name is the given one without ':', and libsoundio gets it as a terminated C string |
| Contexts.Context.AppName | src/context.rs:239-241 | the stored name has no ':', and unless it holds U+0000 it is what libsoundio reads from its C string |
| Contexts.DeviceIndexArgument | src/context.rs:443 | `index as c_int` keeps indices below 2^31 and otherwise agrees with the index modulo 2^32 |
| Contexts.OpenResult | src/context.rs:442-458 | `Ok` exactly for a non-null device without probe error, holding that device; null gives `Err(OpeningDevice)`; a probe error gives `Err(Error::from(probe_error))` |
| Contexts.ProbeErrorIsReported | src/context.rs:448-452 | a probe error is never a success, and a named code comes back as its own error |
| Contexts.GetDevice | src/context.rs:480-496 | for an index that fits a `c_int`, the result logic applied to libsoundio's answer for that index |
| Contexts.DeviceCount | src/context.rs:501-514 | requires the count not to be -1 (the assertion); a count ≥ 0 is kept, a negative one wraps to `usize` |
| Contexts.DefaultDeviceIndex | src/context.rs:536-570 | `None` exactly for -1; a non-negative index is kept, and every result passes back to libsoundio as the same `c_int` |
| Contexts.DefaultDevice | src/context.rs:637-666 | `Err(NoSuchDevice)` when libsoundio names no default; otherwise the result logic for the default index |
| Contexts.AllDevices | src/context.rs:588-620 | `Ok` exactly when every index opens, and then every device in index order; otherwise the error of the first index that fails |

## Left out

- Floating point: the float conversions of `Sample` (src/sample.rs:158-215, 332-380) and the float arms of
  `set_sample` / `sample`. `Areas.Served` restricts both to the integer formats. The Float32/Float64 sizes
  are kept in `Formats.BytesPerSampleC`.
- Foreign calls whose answer the crate does not interpret:
  - the `Display`/`description` string lookups;
  - `get_all_builtin`, `get_builtin`, `get_default` and `detect_builtin` of layouts;
  - connect/flush/wait/wakeup;
  - `start`, `pause`, `clear_buffer`, the `supports_*` queries, `nearest_sample_rate`;
  - `get_latency` and `software_latency`, which are also f64.
  `bytes_per_sample` and `soundio_parse_channel_id` are such calls too. The first is modelled by its documented
  table. The second is a parameter of `Channels.Parse`.
- The callback trampolines through `userdata` pointers (src/outstream.rs:16-56, src/instream.rs:16-56,
  src/context.rs:43-80), and `Send`/`Sync` of `Context`. These are concurrency and pointer glue. Each
  writer's and reader's constructor models only the seeding the trampoline does.
- src/device.rs, src/stream.rs, src/lib.rs, libsoundio-sys/build.rs and the examples. They are stream
  opening, stubs, version wrappers, the build and file I/O. libsoundio-sys/lib.rs contributes only its
  constants and enum ordinals.
- Printing: the errors `end_write`, `end_read` and `Drop` print are only recorded in the raw stream.
- The "call only once per callback, otherwise it panics" remark on `begin_write`/`begin_read`
  (src/outstream.rs:264, src/instream.rs:223). The code has no such check, so no precondition is added.
- Panics in debug builds on arithmetic overflow, and overflow of the pointer arithmetic
  `ptr.offset(frame * step)`. The transport's promise that the channel areas fit the memory covers the
  offsets.
- OutStreams.RawOutStream.BeginWrite: does not model a negative frame count from libsoundio, because
  libsoundio never grants fewer than 0 frames. The `c_int` to `usize` cast of the count is therefore the
  identity here. The same holds for the writer's `frame_count_min`/`frame_count_max`, which are taken as
  non-negative `c_int`s.
- InStreams.RawInStream.BeginRead: the same assumption of a non-negative granted count.
- InStreams.InStreamReader.EndRead: releases the frames after a zero-frame grant too, as
  src/instream.rs:248-253 and 275-277 do, although libsoundio asks not to be called when the buffer is empty
  (libsoundio-sys/lib.rs:1075-1077). The model keeps the source's behaviour and does not check that request.
- Sample.FromSample: the `u24`/`i24` newtypes are modelled by their in-range values only. Every constructor
  in src/sample.rs yields one, except the as-written `i24::from_u24` (see Findings).
- The doc comment of `sort` (src/layout.rs:178) says "descending". The code and its doctest sort by
  ascending channel count, and `Layouts.Sort` follows the code.
- Sample.UnsignedToSignedOffset: the `u24` arm sign-extends the masked word from bit 23, where
  src/sample.rs:230 casts it to `i32` without sign extension. The as-written word is
  `Sample.I24FromU24AsWritten` (see Findings). Every conversion lemma that passes through this arm
  (`UnsignedFlipIsShift`, `ConversionIsRescaling`, `WideningIsLossless`, `ConversionIsMonotone`,
  `ConversionKeepsMinimum`) is stated of the corrected arm.
- Areas.DecodeSample: reads the big-endian 24-bit formats with the corrected reader
  (`SampleRaw.FromRawBe`), from the low three bytes of the slot, not with the as-written one (see Findings).
- OutStreams.OutStreamWriter.SetSample: stores the big-endian 24-bit formats with the corrected writer
  (`SampleRaw.ToRawBe`, through `Areas.StoreSample`), in the low three bytes of the slot, not with the
  as-written one, which fills the high three (see Findings).
- Areas.ChannelArea: `step` is a `c_int` in `SoundIoChannelArea` (libsoundio-sys/lib.rs:267-272), but
  the model takes it as non-negative. Negative steps, which `step as usize` would turn into huge ones, are
  not modelled.
- Formats.BytesPerFrame: requires the `usize` product to fit. A release build wraps
  `bytes_per_sample() * channel_count` modulo 2^64 (for example `Invalid` with 2 channels), and such
  overflowing products are excluded rather than modelled. The same holds for `Formats.BytesPerSecond`.
- Contexts.Context.SetAppName: gives libsoundio the corrected, terminated C string, not the as-written
  pointer (see Findings).

## Findings

| source | as written | input that shows it | evidently intended | confidence | as-written member | corrected member |
|---|---|---|---|---|---|---|
| src/sample.rs:230 | `i24::from_u24` builds `i24((v.0.wrapping_add(0x800000) & 0xFFFFFF) as i32)` with no sign extension, so the i24 holds a 24-bit word 0..2^24 | `i24::from_u24(u24(0))` holds 0x800000, not -0x800000; the result is out of the i24 range and not monotone | the signed value sign-extended from bit 23 (-0x800000 for 0) | not executed | Sample.I24FromU24AsWrittenIsWrong | Sample.ConversionIsRescaling |
| src/sample.rs:141-144 | the 24-bit `from_raw_be` reads the little-endian word at `ptr + 3`, bytes 3 to 6, which end three bytes past the sample's 4-byte slot | u24 0x100 in the low three bytes of zeroed memory (00 00 01 00 00 00 00 00) reads back as 0 | the low three bytes of the big-endian 32-bit word at `ptr`, that is bytes 1 to 3, most significant first: the layout documented for S24BE/U24BE (libsoundio-sys/lib.rs:232, 234; src/format.rs:25-30) | not executed | SampleRaw.FromRawBe24AsWrittenIsWrong | SampleRaw.RawBeRoundTrip |
| src/sample.rs:150-154 | the 24-bit `to_raw_be` stores the three bytes at `ptr`, `ptr + 1` and `ptr + 2`, the high three bytes of the big-endian slot | u24 1 stored into a zeroed slot gives 00 00 01 00, whose low three bytes read as 0x100 | the three bytes at `ptr + 1` to `ptr + 3`, the low three of the slot, where `sample` and libsoundio look for them | not executed | SampleRaw.ToRawBe24AsWrittenIsWrong | Areas.DecodeOfEncode |
| src/instream.rs:254-256 | after a successful `soundio_instream_begin_read` of more than zero frames, `begin_read` copies `cc` areas with `slice::from_raw_parts(areas, cc)` without checking `areas` for NULL | a hole: error 0, `areas` NULL and `frame_count` 5, as libsoundio-sys/lib.rs:1060-1063 documents; the copy reads through the null pointer | `Ok(frame_count)`, the read started, no areas held, so that `sample` panics on the empty areas instead of reading | not executed | InStreams.CopyAreasAsWrittenReadsNull | InStreams.InStreamReader.BeginRead |
| src/context.rs:227 | `set_app_name` gives libsoundio `self.app_name.as_ptr()`, the bytes of a Rust `String`, which has no NUL terminator | any name, e.g. "My App": the memory reached holds no NUL | a NUL-terminated C string of the name (a `CString` kept alive) | not executed | Contexts.AppNameAsWrittenIsUnterminated | Contexts.AppNameCStringReadsBack |
