/** Channel ids (src/channels.rs): the crate's `ChannelId`, libsoundio's `SoundIoChannelId`, the two `From`
    conversions between them, and the result mapping of `ChannelId::parse`. */
module Channels {
  import opened Wrappers

  datatype ChannelId =
    | Invalid
    | FrontLeft
    | FrontRight
    | FrontCenter
    | Lfe
    | BackLeft
    | BackRight
    | FrontLeftCenter
    | FrontRightCenter
    | BackCenter
    | SideLeft
    | SideRight
    | TopCenter
    | TopFrontLeft
    | TopFrontCenter
    | TopFrontRight
    | TopBackLeft
    | TopBackCenter
    | TopBackRight
    | BackLeftCenter
    | BackRightCenter
    | FrontLeftWide
    | FrontRightWide
    | FrontLeftHigh
    | FrontCenterHigh
    | FrontRightHigh
    | TopFrontLeftCenter
    | TopFrontRightCenter
    | TopSideLeft
    | TopSideRight
    | LeftLfe
    | RightLfe
    | Lfe2
    | BottomCenter
    | BottomLeftCenter
    | BottomRightCenter
    | MsMid
    | MsSide
    | AmbisonicW
    | AmbisonicX
    | AmbisonicY
    | AmbisonicZ
    | XyX
    | XyY
    | HeadphonesLeft
    | HeadphonesRight
    | ClickTrack
    | ForeignLanguage
    | HearingImpaired
    | Narration
    | Haptic
    | DialogCentricMix
    | Aux
    | Aux0
    | Aux1
    | Aux2
    | Aux3
    | Aux4
    | Aux5
    | Aux6
    | Aux7
    | Aux8
    | Aux9
    | Aux10
    | Aux11
    | Aux12
    | Aux13
    | Aux14
    | Aux15

  /** A `SoundIoChannelId` value: its C ordinal. The variants of `ChannelId` are declared in the order of
      those of `SoundIoChannelId` (libsoundio-sys/lib.rs:86-166), so the two conversions map the `i`-th
      variant of one to the `i`-th of the other. */
  type RawChannelId = x: int | 0 <= x < 69

  /** The variants of `ChannelId` in the order of `SoundIoChannelId`: `RawOrder[n]` is the id with C ordinal
      `n`. */
  const RawOrder: seq<ChannelId> :=
    [Invalid, FrontLeft, FrontRight, FrontCenter, Lfe, BackLeft, BackRight, FrontLeftCenter,
      FrontRightCenter, BackCenter, SideLeft, SideRight]
    + [TopCenter, TopFrontLeft, TopFrontCenter, TopFrontRight, TopBackLeft, TopBackCenter, TopBackRight,
      BackLeftCenter, BackRightCenter, FrontLeftWide, FrontRightWide, FrontLeftHigh]
    + [FrontCenterHigh, FrontRightHigh, TopFrontLeftCenter, TopFrontRightCenter, TopSideLeft, TopSideRight,
      LeftLfe, RightLfe, Lfe2, BottomCenter, BottomLeftCenter, BottomRightCenter]
    + [MsMid, MsSide, AmbisonicW, AmbisonicX, AmbisonicY, AmbisonicZ, XyX, XyY, HeadphonesLeft,
      HeadphonesRight, ClickTrack, ForeignLanguage]
    + [HearingImpaired, Narration, Haptic, DialogCentricMix, Aux, Aux0, Aux1, Aux2, Aux3, Aux4, Aux5, Aux6]
    + [Aux7, Aux8, Aux9, Aux10, Aux11, Aux12, Aux13, Aux14, Aux15]

  /** `impl From<raw::SoundIoChannelId> for ChannelId`. */
  function FromRaw(n: RawChannelId): (c: ChannelId)
    ensures c == RawOrder[n]
  {
    match n
    case 1 => FrontLeft
    case 2 => FrontRight
    case 3 => FrontCenter
    case 4 => Lfe
    case 5 => BackLeft
    case 6 => BackRight
    case 7 => FrontLeftCenter
    case 8 => FrontRightCenter
    case 9 => BackCenter
    case 10 => SideLeft
    case 11 => SideRight
    case 12 => TopCenter
    case 13 => TopFrontLeft
    case 14 => TopFrontCenter
    case 15 => TopFrontRight
    case 16 => TopBackLeft
    case 17 => TopBackCenter
    case 18 => TopBackRight
    case 19 => BackLeftCenter
    case 20 => BackRightCenter
    case 21 => FrontLeftWide
    case 22 => FrontRightWide
    case 23 => FrontLeftHigh
    case 24 => FrontCenterHigh
    case 25 => FrontRightHigh
    case 26 => TopFrontLeftCenter
    case 27 => TopFrontRightCenter
    case 28 => TopSideLeft
    case 29 => TopSideRight
    case 30 => LeftLfe
    case 31 => RightLfe
    case 32 => Lfe2
    case 33 => BottomCenter
    case 34 => BottomLeftCenter
    case 35 => BottomRightCenter
    case 36 => MsMid
    case 37 => MsSide
    case 38 => AmbisonicW
    case 39 => AmbisonicX
    case 40 => AmbisonicY
    case 41 => AmbisonicZ
    case 42 => XyX
    case 43 => XyY
    case 44 => HeadphonesLeft
    case 45 => HeadphonesRight
    case 46 => ClickTrack
    case 47 => ForeignLanguage
    case 48 => HearingImpaired
    case 49 => Narration
    case 50 => Haptic
    case 51 => DialogCentricMix
    case 52 => Aux
    case 53 => Aux0
    case 54 => Aux1
    case 55 => Aux2
    case 56 => Aux3
    case 57 => Aux4
    case 58 => Aux5
    case 59 => Aux6
    case 60 => Aux7
    case 61 => Aux8
    case 62 => Aux9
    case 63 => Aux10
    case 64 => Aux11
    case 65 => Aux12
    case 66 => Aux13
    case 67 => Aux14
    case 68 => Aux15
    case _ => Invalid
  }

  /** `impl From<ChannelId> for raw::SoundIoChannelId`. */
  function ToRaw(c: ChannelId): (n: RawChannelId)
    ensures RawOrder[n] == c
  {
    match c
    case FrontLeft => 1
    case FrontRight => 2
    case FrontCenter => 3
    case Lfe => 4
    case BackLeft => 5
    case BackRight => 6
    case FrontLeftCenter => 7
    case FrontRightCenter => 8
    case BackCenter => 9
    case SideLeft => 10
    case SideRight => 11
    case TopCenter => 12
    case TopFrontLeft => 13
    case TopFrontCenter => 14
    case TopFrontRight => 15
    case TopBackLeft => 16
    case TopBackCenter => 17
    case TopBackRight => 18
    case BackLeftCenter => 19
    case BackRightCenter => 20
    case FrontLeftWide => 21
    case FrontRightWide => 22
    case FrontLeftHigh => 23
    case FrontCenterHigh => 24
    case FrontRightHigh => 25
    case TopFrontLeftCenter => 26
    case TopFrontRightCenter => 27
    case TopSideLeft => 28
    case TopSideRight => 29
    case LeftLfe => 30
    case RightLfe => 31
    case Lfe2 => 32
    case BottomCenter => 33
    case BottomLeftCenter => 34
    case BottomRightCenter => 35
    case MsMid => 36
    case MsSide => 37
    case AmbisonicW => 38
    case AmbisonicX => 39
    case AmbisonicY => 40
    case AmbisonicZ => 41
    case XyX => 42
    case XyY => 43
    case HeadphonesLeft => 44
    case HeadphonesRight => 45
    case ClickTrack => 46
    case ForeignLanguage => 47
    case HearingImpaired => 48
    case Narration => 49
    case Haptic => 50
    case DialogCentricMix => 51
    case Aux => 52
    case Aux0 => 53
    case Aux1 => 54
    case Aux2 => 55
    case Aux3 => 56
    case Aux4 => 57
    case Aux5 => 58
    case Aux6 => 59
    case Aux7 => 60
    case Aux8 => 61
    case Aux9 => 62
    case Aux10 => 63
    case Aux11 => 64
    case Aux12 => 65
    case Aux13 => 66
    case Aux14 => 67
    case Aux15 => 68
    case Invalid => 0
  }

  /** Every channel id, `Invalid` included, survives the trip through `SoundIoChannelId`. */
  lemma ChannelRoundTrip(c: ChannelId)
    ensures FromRaw(ToRaw(c)) == c
  {
  }

  /** Every `SoundIoChannelId` survives the trip through `ChannelId`. */
  lemma RawChannelRoundTrip(n: RawChannelId)
    ensures ToRaw(FromRaw(n)) == n
  {
    if n < 6 {
      RawIdsFrom0(n);
    } else if n < 12 {
      RawIdsFrom6(n);
    } else if n < 18 {
      RawIdsFrom12(n);
    } else if n < 24 {
      RawIdsFrom18(n);
    } else if n < 30 {
      RawIdsFrom24(n);
    } else if n < 36 {
      RawIdsFrom30(n);
    } else if n < 42 {
      RawIdsFrom36(n);
    } else if n < 48 {
      RawIdsFrom42(n);
    } else if n < 54 {
      RawIdsFrom48(n);
    } else if n < 60 {
      RawIdsFrom54(n);
    } else if n < 66 {
      RawIdsFrom60(n);
    } else {
      RawIdsFrom66(n);
    }
  }

  // The raw round trip, six ordinals at a time (one proof for all 69 is too large for the solver).

  lemma RawIdsFrom0(n: RawChannelId)
    requires 0 <= n < 6
    ensures ToRaw(FromRaw(n)) == n
  {
  }

  lemma RawIdsFrom6(n: RawChannelId)
    requires 6 <= n < 12
    ensures ToRaw(FromRaw(n)) == n
  {
  }

  lemma RawIdsFrom12(n: RawChannelId)
    requires 12 <= n < 18
    ensures ToRaw(FromRaw(n)) == n
  {
  }

  lemma RawIdsFrom18(n: RawChannelId)
    requires 18 <= n < 24
    ensures ToRaw(FromRaw(n)) == n
  {
  }

  lemma RawIdsFrom24(n: RawChannelId)
    requires 24 <= n < 30
    ensures ToRaw(FromRaw(n)) == n
  {
  }

  lemma RawIdsFrom30(n: RawChannelId)
    requires 30 <= n < 36
    ensures ToRaw(FromRaw(n)) == n
  {
  }

  lemma RawIdsFrom36(n: RawChannelId)
    requires 36 <= n < 42
    ensures ToRaw(FromRaw(n)) == n
  {
  }

  lemma RawIdsFrom42(n: RawChannelId)
    requires 42 <= n < 48
    ensures ToRaw(FromRaw(n)) == n
  {
  }

  lemma RawIdsFrom48(n: RawChannelId)
    requires 48 <= n < 54
    ensures ToRaw(FromRaw(n)) == n
  {
  }

  lemma RawIdsFrom54(n: RawChannelId)
    requires 54 <= n < 60
    ensures ToRaw(FromRaw(n)) == n
  {
  }

  lemma RawIdsFrom60(n: RawChannelId)
    requires 60 <= n < 66
    ensures ToRaw(FromRaw(n)) == n
  {
  }

  lemma RawIdsFrom66(n: RawChannelId)
    requires 66 <= n < 69
    ensures ToRaw(FromRaw(n)) == n
  {
  }

  /** `ChannelId::parse`, given what `soundio_parse_channel_id` returned for the text: no id for
      `SoundIoChannelIdInvalid`, otherwise the id it names. */
  function Parse(parsed: RawChannelId): (c: Option<ChannelId>)
    ensures c.None? <==> parsed == ToRaw(Invalid)
    ensures c.Some? ==> c.value != Invalid && ToRaw(c.value) == parsed
  {
    if parsed == 0 then None else RawChannelRoundTrip(parsed); Some(FromRaw(parsed))
  }
}
