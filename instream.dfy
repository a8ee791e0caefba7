/** The input side of a stream (src/instream.rs): `InStreamReader`, the object the read callback gets, with
    its `begin_read` / `end_read` state machine and `sample`. libsoundio's side of the stream is
    `RawInStream`: its calls answer with whatever libsoundio promises, and it records their results so that
    the reader's contracts can speak of them. */
module InStreams {
  import opened Bytes
  import opened Wrappers
  import opened Errors
  import opened Sample
  import opened Areas
  import Formats

  /** A `SoundIoInStream`: its format, its layout's channel count, the memory its channel areas point into,
      and the outcome of the latest `soundio_instream_begin_read` and `soundio_instream_end_read`. */
  class RawInStream {
    const format: Formats.Format
    const channelCount: nat
    const memory: array<Byte>
    /** The error code, frame count and areas of the latest `soundio_instream_begin_read`; `None` stands for
        the NULL areas of a hole. */
    var lastBeginError: CInt
    var lastGranted: nat
    var lastAreas: Option<seq<ChannelArea>>
    /** The number of `soundio_instream_end_read` calls so far, and the error code of the latest. */
    var endReads: nat
    var lastEndError: CInt

    constructor (format: Formats.Format, channelCount: nat, memory: array<Byte>)
      ensures this.format == format && this.channelCount == channelCount && this.memory == memory
      ensures endReads == 0
    {
      this.format := format;
      this.channelCount := channelCount;
      this.memory := memory;
      lastBeginError, lastGranted, lastAreas := 0, 0, None;
      endReads, lastEndError := 0, 0;
    }

    /** `soundio_instream_begin_read`: an error code and, on success, a frame count no larger than the one
        asked for. The areas are either NULL, for a hole in the buffer that many frames long, or one area
        per channel in which that many frames lie. */
    method BeginRead(requested: nat) returns (err: CInt, granted: nat, areas: Option<seq<ChannelArea>>)
      modifies this
      ensures err == 0 ==> granted <= requested
      ensures err == 0 && areas.Some? ==> (|areas.value| == channelCount
        && AreasFit(areas.value, granted, SampleBytes(format), memory.Length))
      ensures lastBeginError == err && lastGranted == granted && lastAreas == areas
      ensures endReads == old(endReads) && lastEndError == old(lastEndError)
    {
      err :| true;
      granted, areas :| err == 0 ==> (granted <= requested && (areas.Some? ==> (|areas.value| == channelCount
        && AreasFit(areas.value, granted, SampleBytes(format), memory.Length))));
      lastBeginError, lastGranted, lastAreas := err, granted, areas;
    }

    /** `soundio_instream_end_read`: an error code. */
    method EndRead() returns (err: CInt)
      modifies this
      ensures endReads == old(endReads) + 1 && lastEndError == err
      ensures lastBeginError == old(lastBeginError) && lastGranted == old(lastGranted) && lastAreas == old(lastAreas)
    {
      err :| true;
      endReads, lastEndError := endReads + 1, err;
    }
  }

  /** `InStreamReader`. The frame counts come from a `c_int`, so they fit in one. */
  class InStreamReader {
    const stream: RawInStream
    const frameCountMin: nat
    const frameCountMax: nat
    var readStarted: bool
    var channelAreas: seq<ChannelArea>
    var frameCount: nat

    /** The stream has at least one channel, and once frames are granted the reader holds either no areas
        (a hole) or one area per channel of the latest grant, fitting it. */
    predicate Valid()
      reads this, stream
    {
      frameCountMax < 0x8000_0000 && stream.channelCount >= 1
      && (frameCount > 0 ==> (channelAreas == [] || (|channelAreas| == stream.channelCount
          && AreasFit(channelAreas, frameCount, SampleBytes(stream.format), stream.memory.Length))))
    }

    /** The granted frames are a hole in the buffer: there are frames but no areas to read them from. */
    predicate AtHole()
      reads this
    {
      frameCount > 0 && channelAreas == []
    }

    /** The reader `instream_read_callback` builds for each callback (src/instream.rs:21-29). */
    constructor (stream: RawInStream, frameCountMin: nat, frameCountMax: nat)
      requires frameCountMax < 0x8000_0000 && stream.channelCount >= 1
      ensures Valid()
      ensures this.stream == stream && this.frameCountMin == frameCountMin && this.frameCountMax == frameCountMax
      ensures !readStarted && channelAreas == [] && frameCount == 0
    {
      this.stream := stream;
      this.frameCountMin := frameCountMin;
      this.frameCountMax := frameCountMax;
      readStarted := false;
      channelAreas := [];
      frameCount := 0;
    }

    /** `channel_count`: the channel count of the stream's layout, which libsoundio guarantees to be at least
        1; once frames are granted outside a hole, there is one channel area per channel. */
    function ChannelCount(): (n: nat)
      reads this, stream
      ensures Valid() ==> n >= 1 && (frameCount > 0 && !AtHole() ==> n == |channelAreas|)
    {
      stream.channelCount
    }

    /** `frame_count`: the granted count; it panics unless a read is started. */
    function FrameCount(): (n: nat)
      requires readStarted
      reads this
      ensures n == frameCount
    {
      frameCount
    }

    /** `begin_read`, with the hole handled. A count outside [min, max] panics before libsoundio is called.
        On success the read is started and the granted count, which is at most the one asked for, is kept and
        returned; a grant of zero frames keeps the old areas, and a hole leaves the reader with none, where
        src/instream.rs:254-256 copies them through the NULL pointer (`CopyAreasAsWritten`). Everywhere else
        the areas are those the source copies. On failure the reader is as it was. */
    method BeginRead(n: nat) returns (r: Result<nat>)
      requires Valid() && frameCountMin <= n <= frameCountMax
      modifies this, stream
      ensures Valid()
      ensures stream.endReads == old(stream.endReads)
      ensures stream.lastBeginError == 0 && stream.lastAreas.Some? ==> |stream.lastAreas.value| == stream.channelCount
      ensures stream.lastBeginError == 0 ==> (r == Ok(stream.lastGranted) && r.value <= n
        && readStarted && frameCount == stream.lastGranted
        && channelAreas == if stream.lastGranted == 0 then old(channelAreas)
                           else if stream.lastAreas.None? then [] else stream.lastAreas.value)
      ensures stream.lastBeginError == 0 && stream.lastGranted > 0 && stream.lastAreas.None? ==> AtHole()
      ensures stream.lastBeginError == 0 && !AtHole() ==>
        CopyAreasAsWritten(stream.lastGranted, stream.lastAreas, stream.channelCount, old(channelAreas)) == Copied(channelAreas)
      ensures stream.lastBeginError != 0 ==> (r == Err(FromCInt(stream.lastBeginError))
        && readStarted == old(readStarted) && frameCount == old(frameCount) && channelAreas == old(channelAreas))
    {
      var err, granted, areas := stream.BeginRead(n);
      if err == 0 {
        readStarted := true;
        frameCount := granted;
        if granted <= 0 {
          return Ok(0);
        }
        var cc := ChannelCount();
        match areas {
          case None =>
            channelAreas := [];
          case Some(a) =>
            channelAreas := a[..cc];
        }
        return Ok(granted);
      } else {
        return Err(FromCInt(err));
      }
    }

    /** `end_read`: libsoundio is called only when a read is started, and the read stays started only when
        releasing the frames fails (the error is printed). */
    method EndRead()
      requires Valid()
      modifies this, stream
      ensures Valid()
      ensures channelAreas == old(channelAreas) && frameCount == old(frameCount)
      ensures !old(readStarted) ==> !readStarted && unchanged(stream)
      ensures old(readStarted) ==> (stream.endReads == old(stream.endReads) + 1
        && (readStarted <==> stream.lastEndError != 0))
      ensures stream.lastBeginError == old(stream.lastBeginError)
    {
      if readStarted {
        var err := stream.EndRead();
        if err == 0 {
          readStarted := false;
        }
      }
    }

    /** `sample::<T>(channel, frame)` for the type `dst` that `T` stands for: the value stored at the
        sample's address in the format's integer type, converted to `dst`. It panics unless a read is
        started and the channel and frame are in range, and at a hole, where there is no area to index. */
    function SampleValue(channel: nat, frame: nat, dst: SampleType): (v: int)
      requires Valid() && readStarted
      requires channel < ChannelCount() && frame < FrameCount() && !AtHole()
      requires Served(stream.format)
      reads this, stream, stream.memory
      ensures InRange(dst, v)
    {
      var p := SampleOffset(channelAreas[channel], frame);
      FromSample(dst, WireType(stream.format), DecodeSample(stream.format, stream.memory[..], p))
    }

    /** What `sample` returns where some value `x` of the format's integer type was stored by
        `set_sample`'s dispatch: `x`, converted to the type asked for. */
    lemma SampleOfStored(channel: nat, frame: nat, dst: SampleType, buf: seq<Byte>, x: int)
      requires Valid() && readStarted
      requires channel < ChannelCount() && frame < FrameCount() && !AtHole()
      requires Served(stream.format) && InRange(WireType(stream.format), x)
      requires |buf| == stream.memory.Length
      requires stream.memory[..] == StoreSample(stream.format, buf, SampleOffset(channelAreas[channel], frame), x)
      ensures SampleValue(channel, frame, dst) == FromSample(dst, WireType(stream.format), x)
    {
      DecodeOfEncode(stream.format, x, buf, SampleOffset(channelAreas[channel], frame));
    }

    /** `Drop`: a read still started is released; its error is printed, never returned. */
    method Drop()
      modifies stream
      ensures stream.endReads == old(stream.endReads) + if readStarted then 1 else 0
    {
      if readStarted {
        var _ := stream.EndRead();
      }
    }
  }

  /** What the copy at src/instream.rs:254-256 makes of a successful answer: the first `cc` areas behind
      the pointer, or a read through a null pointer. */
  datatype AreaCopy = Copied(areas: seq<ChannelArea>) | ReadsNull

  /** The areas `begin_read` as written holds after a successful answer of `granted` frames with the areas
      `answer`, when it held `kept` before: a zero grant returns early and keeps them, and any other grant
      copies `cc` areas from the pointer without checking it for NULL. */
  function CopyAreasAsWritten(granted: nat, answer: Option<seq<ChannelArea>>, cc: nat, kept: seq<ChannelArea>): (c: AreaCopy)
    requires answer.Some? ==> cc <= |answer.value|
    ensures c.ReadsNull? <==> granted > 0 && answer.None?
    ensures granted == 0 ==> c == Copied(kept)
    ensures granted > 0 && answer.Some? ==> c == Copied(answer.value[..cc])
  {
    if granted == 0 then Copied(kept)
    else if answer.None? then ReadsNull
    else Copied(answer.value[..cc])
  }

  /** A hole, which libsoundio reports as success with NULL areas and the hole's size as the frame count,
      makes `begin_read` as written read `cc` areas through the null pointer, for every channel count. */
  lemma CopyAreasAsWrittenReadsNull(holeFrames: nat, cc: nat, kept: seq<ChannelArea>)
    requires holeFrames > 0
    ensures CopyAreasAsWritten(holeFrames, None, cc, kept) == ReadsNull
    ensures CopyAreasAsWritten(holeFrames, None, cc, kept) != Copied(kept)
  {
  }

  /** A value `set_sample::<T>` stores is the value `sample::<T>` reads back at the same address whenever the
      stream's integer format is at least as wide as `T`: the conversion into the format and back is
      lossless then. */
  lemma SampleRoundTrip(f: Formats.Format, src: SampleType, v: int, buf: seq<Byte>, p: nat)
    requires Served(f) && InRange(src, v) && src.Bits() <= WireType(f).Bits()
    requires p + SampleBytes(f) <= |buf|
    ensures FromSample(src, WireType(f), DecodeSample(f, StoreSample(f, buf, p, FromSample(WireType(f), src, v)), p)) == v
  {
    var x := FromSample(WireType(f), src, v);
    DecodeOfEncode(f, x, buf, p);
    WideningIsLossless(src, WireType(f), v);
  }
}
