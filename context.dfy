/** The library context (src/context.rs): the application name it hands to libsoundio, and the mapping of
    libsoundio's answers about devices (an index, a count, a device pointer and its probe error) to the
    crate's `Option` and `Result` values. What libsoundio answers is a parameter: `lookup` stands for
    `soundio_get_input_device` or `soundio_get_output_device`, and the raw integers for the other C calls. */
module Contexts {
  import opened Wrappers
  import opened Bytes
  import opened Errors
  import opened Util
  import Sample

  /** libsoundio's default application name, which `Context::new` replicates (src/context.rs:119). */
  const DefaultAppName: string := "SoundIo"

  /** The `chars().filter(|&x| x != ':')` of `set_app_name`. */
  function RemoveColons(s: string): (r: string)
    ensures ':' !in r && |r| <= |s|
  {
    if |s| == 0 then [] else (if s[0] == ':' then [] else [s[0]]) + RemoveColons(s[1..])
  }

  /** Filtering works piecewise, so it keeps every character other than ':' in its order. */
  lemma {:induction false} RemoveColonsOfAppend(a: string, b: string)
    ensures RemoveColons(a + b) == RemoveColons(a) + RemoveColons(b)
    decreases |a|
  {
    if |a| == 0 {
      assert a + b == b;
    } else {
      assert (a + b)[0] == a[0] && (a + b)[1..] == a[1..] + b;
      RemoveColonsOfAppend(a[1..], b);
    }
  }

  /** A name without ':' is stored unchanged, and only such a name is. */
  lemma {:induction false} RemoveColonsIsIdentity(s: string)
    ensures RemoveColons(s) == s <==> ':' !in s
  {
    if |s| > 0 {
      RemoveColonsIsIdentity(s[1..]);
      assert s == [s[0]] + s[1..];
      if s[0] == ':' {
        assert |RemoveColons(s)| < |s| by {
          assert |RemoveColons(s[1..])| <= |s[1..]|;
        }
      }
    }
  }

  /** Setting the stored name again is a no-op. */
  lemma RemoveColonsIsIdempotent(s: string)
    ensures RemoveColons(RemoveColons(s)) == RemoveColons(s)
  {
    RemoveColonsIsIdentity(RemoveColons(s));
  }

  /** Every character other than ':' occurs as often in the stored name as in the given one. */
  lemma {:induction false} RemoveColonsKeepsOthers(s: string, c: char)
    requires c != ':'
    ensures multiset(RemoveColons(s))[c] == multiset(s)[c]
  {
    if |s| > 0 {
      assert s == [s[0]] + s[1..];
      RemoveColonsKeepsOthers(s[1..], c);
    }
  }

  /** The doc example of `app_name`. */
  lemma AppNameExample()
    ensures RemoveColons(":::My App:::") == "My App"
  {
    var colons, app := ":::", "My App";
    var prefix := colons + app;
    assert ":::My App:::" == prefix + colons;
    ColonsVanish();
    NoColonIn(app);
    RemoveColonsIsIdentity(app);
    RemoveColonsOfAppend(colons, app);
    assert RemoveColons(prefix) == app;
    RemoveColonsOfAppend(prefix, colons);
    assert RemoveColons(prefix + colons) == app + "";
  }

  /** The default name has no ':', so `set_app_name` would keep it as it is. */
  lemma DefaultAppNameIsKept()
    ensures RemoveColons(DefaultAppName) == DefaultAppName
  {
    NoColonIn(DefaultAppName);
    RemoveColonsIsIdentity(DefaultAppName);
  }

  lemma DefaultAppNameHasNoColon()
    ensures ':' !in DefaultAppName
  {
    DefaultAppNameIsKept();
  }

  lemma ColonsVanish()
    ensures RemoveColons(":::") == ""
  {
    var s := ":::";
    assert s[1..] == "::" && s[1..][1..] == ":" && s[1..][1..][1..] == "";
  }

  lemma NoColonIn(s: string)
    requires forall i :: 0 <= i < |s| ==> s[i] != ':'
    ensures ':' !in s
  {
  }

  /** What the memory at `(*soundio).app_name` holds after `set_app_name(name)` as written: the pointer is
      `String::as_ptr` of the stored name, whose allocation holds the UTF-8 bytes of the text and no NUL. */
  function AppNameMemoryAsWritten(name: string): (mem: seq<Byte>)
    ensures |mem| >= |RemoveColons(name)|
  {
    var t := RemoveColons(name);
    assert |Encode(t)| >= |t| by { EncodeIsLonger(t); }
    Encode(t)
  }

  lemma {:induction false} EncodeIsLonger(t: string)
    ensures |Encode(t)| >= |t|
  {
    if |t| > 0 {
      EncodeIsLonger(t[1..]);
    }
  }

  /** For a name without U+0000, the memory the pointer reaches holds no NUL: libsoundio, which reads a C
      string, runs past the end of the allocation. */
  lemma AppNameAsWrittenIsUnterminated(name: string)
    requires forall i :: 0 <= i < |name| ==> name[i] as int != 0
    ensures !Terminated(At(AppNameMemoryAsWritten(name)))
  {
    var t := RemoveColons(name);
    forall i | 0 <= i < |t|
      ensures t[i] as int != 0
    {
      NoNulSurvives(name, t[i]);
    }
  }

  lemma NoNulSurvives(name: string, c: char)
    requires forall i :: 0 <= i < |name| ==> name[i] as int != 0
    requires c in RemoveColons(name)
    ensures c as int != 0
  {
    RemoveColonsKeepsOthers(name, c);
    assert c in multiset(name);
    var i :| 0 <= i < |name| && name[i] == c;
  }

  /** The same name as a C string: its UTF-8 bytes and a NUL. */
  function AppNameCString(name: string): (c: CString)
    ensures c.At? && |c.mem| > 0 && c.mem[|c.mem| - 1] == 0 && Terminated(c)
  {
    At(Encode(RemoveColons(name)) + [0])
  }

  /** The C string of a name without U+0000 is terminated, and libsoundio reads back exactly the stored
      name from it. */
  lemma AppNameCStringReadsBack(name: string)
    requires forall i :: 0 <= i < |name| ==> name[i] as int != 0
    ensures Terminated(AppNameCString(name))
    ensures Utf8ToString(AppNameCString(name)) == RemoveColons(name)
  {
    var t := RemoveColons(name);
    forall i | 0 <= i < |t|
      ensures t[i] as int != 0
    {
      NoNulSurvives(name, t[i]);
    }
    assert Encode(t) + [0] == Encode(t) + [0] + [];
    Utf8RoundTrip(t, []);
  }

  /** `Context`. Only the application name is state of the crate's own; what libsoundio holds is reached
      through the functions below. */
  class Context {
    /** `app_name`: the name `app_name()` returns. */
    var appName: string
    /** What `(*soundio).app_name` points to. */
    var cAppName: CString

    /** The stored name has no ':', and libsoundio holds it as a C string. */
    predicate Valid()
      reads this
    {
      ':' !in appName && cAppName == AppNameCString(appName)
    }

    /** `Context::new`, once `soundio_create` has succeeded. */
    constructor ()
      ensures Valid()
      ensures appName == DefaultAppName && cAppName == AppNameCString(DefaultAppName)
    {
      DefaultAppNameHasNoColon();
      appName := DefaultAppName;
      cAppName := AppNameCString(DefaultAppName);
    }

    /** `set_app_name`: every ':' is removed, and libsoundio is given the name as a terminated C string. */
    method SetAppName(name: string)
      modifies this
      ensures Valid()
      ensures appName == RemoveColons(name)
      ensures cAppName == AppNameCString(name)
    {
      appName := RemoveColons(name);
      cAppName := AppNameCString(name);
      RemoveColonsIsIdempotent(name);
    }

    /** `app_name`: the stored name, which has no ':' and, unless it holds U+0000, is what libsoundio reads
        from its C string. */
    function AppName(): (s: string)
      reads this
      ensures Valid() ==> ':' !in s
      ensures Valid() && (forall i :: 0 <= i < |appName| ==> appName[i] as int != 0) ==> Utf8ToString(cAppName) == s
    {
      if Valid() && forall i :: 0 <= i < |appName| ==> appName[i] as int != 0 then
        AppNameCStringReadsBack(appName);
        RemoveColonsIsIdentity(appName);
        appName
      else
        appName
    }
  }

  // ---------------------------------------------------------------- devices

  /** A non-null `*mut SoundIoDevice`, as far as the crate looks into it. */
  datatype RawDevice = RawDevice(probeError: CInt)

  /** `Device`: the wrapped pointer. */
  datatype Device = Device(raw: RawDevice)

  /** `index as c_int` on a `usize`: the low 32 bits, as a two's complement number. */
  function DeviceIndexArgument(index: nat): (n: CInt)
    ensures index < 0x8000_0000 ==> n == index
    ensures (n - index) % 0x1_0000_0000 == 0
  {
    Sample.AsI32(index)
  }

  /** The result logic of `input_device` and `output_device`, given what the C lookup returned. */
  function OpenResult(found: Option<RawDevice>): (r: Result<Device>)
    ensures r.Ok? <==> found.Some? && found.value.probeError == 0
    ensures r.Ok? ==> r.value.raw == found.value
    ensures found.None? ==> r == Err(OpeningDevice)
    ensures found.Some? && found.value.probeError != 0 ==> r == Err(FromCInt(found.value.probeError))
  {
    match found
    case None => Err(OpeningDevice)
    case Some(d) => if d.probeError != 0 then Err(FromCInt(d.probeError)) else Ok(Device(d))
  }

  /** A probe error never comes back as a success, and a named code comes back as its error: the `Err` of
      `input_device` tells the caller what libsoundio reported. */
  lemma ProbeErrorIsReported(d: RawDevice)
    requires d.probeError != 0
    ensures OpenResult(Some(d)).Err?
    ensures 1 <= d.probeError <= 15 ==> ToCInt(OpenResult(Some(d)).error) == d.probeError
    ensures !(1 <= d.probeError <= 15) ==> OpenResult(Some(d)).error == Unknown
  {
    CodeRoundTrip(d.probeError);
  }

  /** `input_device(index)` / `output_device(index)`. */
  function GetDevice(lookup: CInt -> Option<RawDevice>, index: nat): (r: Result<Device>)
    ensures DeviceIndexArgument(index) == index ==> r == OpenResult(lookup(index))
  {
    OpenResult(lookup(DeviceIndexArgument(index)))
  }

  /** `input_device_count` / `output_device_count`: the count of libsoundio, which must not be -1 (the
      events were never flushed), cast to `usize`. */
  function DeviceCount(raw: CInt): (n: nat)
    requires raw != -1
    ensures n < UsizeModulus
    ensures raw >= 0 ==> n == raw
    ensures raw < 0 ==> n == raw + UsizeModulus
  {
    raw % UsizeModulus
  }

  /** `default_input_device_index` / `default_output_device_index`: -1 means none, anything else is the
      index cast to `usize`. */
  function DefaultDeviceIndex(raw: CInt): (r: Option<nat>)
    ensures r.None? <==> raw == -1
    ensures r.Some? && raw >= 0 ==> r.value == raw
    ensures r.Some? ==> r.value < UsizeModulus && DeviceIndexArgument(r.value) == raw
  {
    if raw == -1 then None
    else
      assert DeviceIndexArgument(raw % UsizeModulus) == raw by {
        if raw < 0 {
          assert raw % UsizeModulus == raw + 0x1_0000_0000 * 0x1_0000_0000;
        }
      }
      Some(raw % UsizeModulus)
  }

  /** `default_input_device` / `default_output_device`: no device when libsoundio names none, otherwise the
      device at the index it names. */
  function DefaultDevice(rawIndex: CInt, lookup: CInt -> Option<RawDevice>): (r: Result<Device>)
    ensures rawIndex == -1 ==> r == Err(NoSuchDevice)
    ensures rawIndex != -1 ==> r == OpenResult(lookup(rawIndex))
  {
    match DefaultDeviceIndex(rawIndex)
    case None => Err(NoSuchDevice)
    case Some(index) => GetDevice(lookup, index)
  }

  /** `input_devices` / `output_devices`: every device in index order, or the error of the first that
      cannot be opened. */
  method AllDevices(rawCount: CInt, lookup: CInt -> Option<RawDevice>) returns (r: Result<seq<Device>>)
    requires rawCount != -1
    ensures r.Ok? <==> forall i :: 0 <= i < DeviceCount(rawCount) ==> GetDevice(lookup, i).Ok?
    ensures r.Ok? ==> (|r.value| == DeviceCount(rawCount)
      && forall i :: 0 <= i < |r.value| ==> r.value[i] == GetDevice(lookup, i).value)
    ensures r.Err? ==> exists k :: (0 <= k < DeviceCount(rawCount) && GetDevice(lookup, k) == Err(r.error)
      && forall i :: 0 <= i < k ==> GetDevice(lookup, i).Ok?)
  {
    var count := DeviceCount(rawCount);
    var devices := [];
    for i := 0 to count
      invariant |devices| == i
      invariant forall k :: 0 <= k < i ==> GetDevice(lookup, k).Ok? && devices[k] == GetDevice(lookup, k).value
    {
      var d := GetDevice(lookup, i);
      if d.Err? {
        return Err(d.error);
      }
      devices := devices + [d.value];
    }
    return Ok(devices);
  }
}
