/** The output side of a stream (src/outstream.rs): `OutStreamWriter`, the object the write callback gets,
    with its `begin_write` / `end_write` state machine and `set_sample`. libsoundio's side of the stream is
    `RawOutStream`: its calls answer with whatever libsoundio promises, and it records their results so
    that the writer's contracts can speak of them. */
module OutStreams {
  import opened Bytes
  import opened Wrappers
  import opened Errors
  import opened Sample
  import opened Areas
  import Formats

  /** A `SoundIoOutStream`: its format, its layout's channel count, the memory its channel areas point
      into, and the outcome of the latest `soundio_outstream_begin_write` and `soundio_outstream_end_write`. */
  class RawOutStream {
    const format: Formats.Format
    const channelCount: nat
    const memory: array<Byte>
    /** The error code, frame count and areas of the latest `soundio_outstream_begin_write`. */
    var lastBeginError: CInt
    var lastGranted: nat
    var lastAreas: seq<ChannelArea>
    /** The number of `soundio_outstream_end_write` calls so far, and the error code of the latest. */
    var endWrites: nat
    var lastEndError: CInt

    constructor (format: Formats.Format, channelCount: nat, memory: array<Byte>)
      ensures this.format == format && this.channelCount == channelCount && this.memory == memory
      ensures endWrites == 0
    {
      this.format := format;
      this.channelCount := channelCount;
      this.memory := memory;
      lastBeginError, lastGranted, lastAreas := 0, 0, [];
      endWrites, lastEndError := 0, 0;
    }

    /** `soundio_outstream_begin_write`: an error code and, on success, a frame count no larger than the
        one asked for and one area per channel into which that many frames fit. */
    method BeginWrite(requested: nat) returns (err: CInt, granted: nat, areas: seq<ChannelArea>)
      modifies this
      ensures err == 0 ==> (granted <= requested && |areas| == channelCount
        && AreasFit(areas, granted, SampleBytes(format), memory.Length))
      ensures lastBeginError == err && lastGranted == granted && lastAreas == areas
      ensures endWrites == old(endWrites) && lastEndError == old(lastEndError)
    {
      err :| true;
      var none := seq(channelCount, _ => ChannelArea(0, 0));
      assert AreasFit(none, 0, SampleBytes(format), memory.Length);
      granted, areas :| err == 0 ==> (granted <= requested && |areas| == channelCount
        && AreasFit(areas, granted, SampleBytes(format), memory.Length));
      lastBeginError, lastGranted, lastAreas := err, granted, areas;
    }

    /** `soundio_outstream_end_write`: an error code. */
    method EndWrite() returns (err: CInt)
      modifies this
      ensures endWrites == old(endWrites) + 1 && lastEndError == err
      ensures lastBeginError == old(lastBeginError) && lastGranted == old(lastGranted) && lastAreas == old(lastAreas)
    {
      err :| true;
      endWrites, lastEndError := endWrites + 1, err;
    }
  }

  /** `OutStreamWriter`. The frame counts come from a `c_int`, so they fit in one. */
  class OutStreamWriter {
    const stream: RawOutStream
    const frameCountMin: nat
    const frameCountMax: nat
    var writeStarted: bool
    var channelAreas: seq<ChannelArea>
    var frameCount: nat

    /** The stream has at least one channel, and the areas held are those of the latest grant of at least
        one frame, and they fit it. */
    predicate Valid()
      reads this, stream
    {
      frameCountMax < 0x8000_0000 && stream.channelCount >= 1
      && (frameCount > 0 ==> (|channelAreas| == stream.channelCount
          && AreasFit(channelAreas, frameCount, SampleBytes(stream.format), stream.memory.Length)))
    }

    /** The writer `outstream_write_callback` builds for each callback (src/outstream.rs:21-29). */
    constructor (stream: RawOutStream, frameCountMin: nat, frameCountMax: nat)
      requires frameCountMax < 0x8000_0000 && stream.channelCount >= 1
      ensures Valid()
      ensures this.stream == stream && this.frameCountMin == frameCountMin && this.frameCountMax == frameCountMax
      ensures !writeStarted && channelAreas == [] && frameCount == 0
    {
      this.stream := stream;
      this.frameCountMin := frameCountMin;
      this.frameCountMax := frameCountMax;
      writeStarted := false;
      channelAreas := [];
      frameCount := 0;
    }

    /** `channel_count`: the channel count of the stream's layout, which libsoundio guarantees to be at least
        1; once frames are granted, there is one channel area per channel. */
    function ChannelCount(): (n: nat)
      reads this, stream
      ensures Valid() ==> n >= 1 && (frameCount > 0 ==> n == |channelAreas|)
    {
      stream.channelCount
    }

    /** `frame_count`: the granted count; it panics unless a write is started. */
    function FrameCount(): (n: nat)
      requires writeStarted
      reads this
      ensures n == frameCount
    {
      frameCount
    }

    /** `begin_write`. A count outside [min, max] panics before libsoundio is called. On success the write
        is started and the granted count, which is at most the one asked for, is kept and returned; a grant
        of zero frames keeps the old areas. On failure the writer is as it was. */
    method BeginWrite(n: nat) returns (r: Result<nat>)
      requires Valid() && frameCountMin <= n <= frameCountMax
      modifies this, stream
      ensures Valid()
      ensures stream.endWrites == old(stream.endWrites)
      ensures stream.lastBeginError == 0 ==> (r == Ok(stream.lastGranted) && r.value <= n
        && writeStarted && frameCount == stream.lastGranted
        && channelAreas == if stream.lastGranted == 0 then old(channelAreas) else stream.lastAreas)
      ensures stream.lastBeginError != 0 ==> (r == Err(FromCInt(stream.lastBeginError))
        && writeStarted == old(writeStarted) && frameCount == old(frameCount) && channelAreas == old(channelAreas))
    {
      var err, granted, areas := stream.BeginWrite(n);
      if err == 0 {
        writeStarted := true;
        frameCount := granted;
        if granted <= 0 {
          return Ok(0);
        }
        var cc := ChannelCount();
        channelAreas := areas[..cc];
        return Ok(granted);
      } else {
        return Err(FromCInt(err));
      }
    }

    /** `end_write`: libsoundio is called only when a write is started, and the write stays started only
        when the commit fails (the error is printed). */
    method EndWrite()
      requires Valid()
      modifies this, stream
      ensures Valid()
      ensures channelAreas == old(channelAreas) && frameCount == old(frameCount)
      ensures !old(writeStarted) ==> !writeStarted && unchanged(stream)
      ensures old(writeStarted) ==> (stream.endWrites == old(stream.endWrites) + 1
        && (writeStarted <==> stream.lastEndError != 0))
      ensures stream.lastBeginError == old(stream.lastBeginError)
    {
      if writeStarted {
        var err := stream.EndWrite();
        if err == 0 {
          writeStarted := false;
        }
      }
    }

    /** `set_sample::<T>(channel, frame, v)` for a value `v` of the type `src` that `T` stands for: the value
        is converted to the format's integer type and stored at the sample's address, and no other byte of
        the stream's memory changes. It panics unless a write is started and the channel and frame are in
        range. */
    method SetSample(channel: nat, frame: nat, src: SampleType, v: int)
      requires Valid() && writeStarted
      requires channel < ChannelCount() && frame < FrameCount()
      requires InRange(src, v) && Served(stream.format)
      modifies stream.memory
      ensures Valid()
      ensures stream.memory[..] == StoreSample(stream.format, old(stream.memory[..]),
        SampleOffset(channelAreas[channel], frame), FromSample(WireType(stream.format), src, v))
    {
      var p := SampleOffset(channelAreas[channel], frame);
      var t := WireType(stream.format);
      var x := FromSample(t, src, v);
      assert p + SampleBytes(stream.format) <= stream.memory.Length;
      if Formats.Endianness(stream.format) == Formats.Little {
        SampleRaw.ToRawLe(t, x, stream.memory, p);
      } else {
        SampleRaw.ToRawBe(t, x, stream.memory, p);
      }
    }

    /** `Drop`: a write still started is committed; its error is printed, never returned. */
    method Drop()
      modifies stream
      ensures stream.endWrites == old(stream.endWrites) + if writeStarted then 1 else 0
    {
      if writeStarted {
        var _ := stream.EndWrite();
      }
    }
  }
}
