/** The integer half of the `Sample` trait (src/sample.rs): conversions among u8, u16, u24, u32, i8, i16, i24
    and i32. Values are modelled as mathematical integers; every Rust cast, wrapping add and shift is written
    out (a shift left is a multiplication that the following cast wraps, a shift right is a division, and
    Dafny's division by a positive constant is the floor, i.e. the arithmetic shift of a signed value). */
module Sample {
  import opened Bytes

  /** The integer types that implement `Sample`. `u24` and `i24` are newtypes over `u32` and `i32`. */
  datatype SampleType = U8 | U16 | U24 | U32 | I8 | I16 | I24 | I32 {

    predicate IsSigned() {
      I8? || I16? || I24? || I32?
    }

    function Bits(): nat {
      match this
      case U8 | I8 => 8
      case U16 | I16 => 16
      case U24 | I24 => 24
      case U32 | I32 => 32
    }

    /** The documented range of the type (sample.rs:13-29). */
    function MinValue(): int {
      match this
      case U8 | U16 | U24 | U32 => 0
      case I8 => -0x80
      case I16 => -0x8000
      case I24 => -0x80_0000
      case I32 => -0x8000_0000
    }

    function MaxValue(): int {
      match this
      case U8 => 0xFF
      case U16 => 0xFFFF
      case U24 => 0xFF_FFFF
      case U32 => 0xFFFF_FFFF
      case I8 => 0x7F
      case I16 => 0x7FFF
      case I24 => 0x7F_FFFF
      case I32 => 0x7FFF_FFFF
    }

    /** The unsigned type of the same width. */
    function AsUnsigned(): SampleType {
      match this
      case U8 | I8 => U8
      case U16 | I16 => U16
      case U24 | I24 => U24
      case U32 | I32 => U32
    }

    /** The signed type of the same width. */
    function AsSigned(): SampleType {
      match this
      case U8 | I8 => I8
      case U16 | I16 => I16
      case U24 | I24 => I24
      case U32 | I32 => I32
    }
  }

  /** A value of type `t`. The fields of `u24` and `i24` are private to sample.rs, and every conversion there
      (with the correction recorded for `i24::from_u24`) yields a value of the documented 24-bit range, so the
      wider values of the backing word are never constructed. */
  predicate InRange(t: SampleType, v: int) {
    t.MinValue() <= v <= t.MaxValue()
  }

  // Rust's `as` casts between integer types: two's complement truncation to the target width.

  function AsU8(x: int): (r: int)
    ensures 0 <= r < 0x100
    ensures 0 <= x < 0x100 ==> r == x
  {
    x % 0x100
  }

  function AsU16(x: int): (r: int)
    ensures 0 <= r < 0x1_0000
    ensures 0 <= x < 0x1_0000 ==> r == x
  {
    x % 0x1_0000
  }

  function AsU32(x: int): (r: int)
    ensures 0 <= r < 0x1_0000_0000
    ensures 0 <= x < 0x1_0000_0000 ==> r == x
  {
    x % 0x1_0000_0000
  }

  function AsI8(x: int): (r: int)
    ensures -0x80 <= r < 0x80
    ensures -0x80 <= x < 0x80 ==> r == x
  {
    var u := x % 0x100;
    if u < 0x80 then u else u - 0x100
  }

  function AsI16(x: int): (r: int)
    ensures -0x8000 <= r < 0x8000
    ensures -0x8000 <= x < 0x8000 ==> r == x
  {
    var u := x % 0x1_0000;
    if u < 0x8000 then u else u - 0x1_0000
  }

  function AsI32(x: int): (r: int)
    ensures -0x8000_0000 <= r < 0x8000_0000
    ensures -0x8000_0000 <= x < 0x8000_0000 ==> r == x
  {
    var u := x % 0x1_0000_0000;
    if u < 0x8000_0000 then u else u - 0x1_0000_0000
  }

  /** `((x << 8) as i32) >> 8` on a `u32` word: keep the low 24 bits and sign-extend bit 23. */
  function SignExtend24(x: int): (r: int)
    ensures -0x80_0000 <= r < 0x80_0000
  {
    AsI32(AsU32(x * 0x100)) / 0x100
  }

  /** `((x << 8) as u32) >> 8` on a `u32` word: keep the low 24 bits. */
  function Low24(x: int): (r: int)
    ensures 0 <= r < 0x100_0000
  {
    AsU32(x * 0x100) / 0x100
  }

  /** `dst::from_src(v)` for unsigned `dst` and `src`: the hand-written arms of `impl Sample for u8` .. `u32`
      (sample.rs:235-281), a left shift when widening and a right shift when narrowing. */
  function UnsignedFromUnsigned(dst: SampleType, src: SampleType, v: int): (r: int)
    requires !dst.IsSigned() && !src.IsSigned() && InRange(src, v)
    ensures InRange(dst, r)
  {
    match dst
    case U8 => (
      match src
      case U8 => v
      case U16 => AsU8(v / 0x100)
      case U24 => AsU8(v / 0x1_0000)
      case U32 => AsU8(v / 0x100_0000))
    case U16 => (
      match src
      case U8 => AsU16(v * 0x100)
      case U16 => v
      case U24 => AsU16(v / 0x100)
      case U32 => AsU16(v / 0x1_0000))
    case U24 => (
      match src
      case U8 => AsU32(v * 0x1_0000)
      case U16 => AsU32(v * 0x100)
      case U24 => v
      case U32 => v / 0x100)
    case U32 => (
      match src
      case U8 => AsU32(v * 0x100_0000)
      case U16 => AsU32(v * 0x1_0000)
      case U24 => AsU32(v * 0x100)
      case U32 => v)
  }

  /** `dst::from_src(v)` for signed `dst` and `src`: the arms of `impl Sample for i8` .. `i32`
      (sample.rs:283-328). */
  function SignedFromSigned(dst: SampleType, src: SampleType, v: int): (r: int)
    requires dst.IsSigned() && src.IsSigned() && InRange(src, v)
    ensures InRange(dst, r)
  {
    match dst
    case I8 => (
      match src
      case I8 => v
      case I16 => AsI8(v / 0x100)
      case I24 => AsI8(v / 0x1_0000)
      case I32 => AsI8(v / 0x100_0000))
    case I16 => (
      match src
      case I8 => AsI16(v * 0x100)
      case I16 => v
      case I24 => AsI16(v / 0x100)
      case I32 => AsI16(v / 0x1_0000))
    case I24 => (
      match src
      case I8 => AsI32(v * 0x1_0000)
      case I16 => AsI32(v * 0x100)
      case I24 => v
      case I32 => v / 0x100)
    case I32 => (
      match src
      case I8 => AsI32(v * 0x100_0000)
      case I16 => AsI32(v * 0x1_0000)
      case I24 => AsI32(v * 0x100)
      case I32 => v)
  }

  /** The half-range offset that `impl_from_signed_methods!` applies before delegating to `from_u*`
      (sample.rs:219-222): `(v as uN).wrapping_add(half)`, masked to 24 bits for `i24`. */
  function SignedToUnsignedOffset(src: SampleType, v: int): (r: int)
    requires src.IsSigned() && InRange(src, v)
    ensures InRange(src.AsUnsigned(), r)
  {
    match src
    case I8 => AsU8(AsU8(v) + 0x80)
    case I16 => AsU16(AsU16(v) + 0x8000)
    case I24 => AsU32(AsU32(v) + 0x80_0000) % 0x100_0000
    case I32 => AsU32(AsU32(v) + 0x8000_0000)
  }

  /** The half-range offset that `impl_from_unsigned_methods!` applies before delegating to `from_i*`
      (sample.rs:228-231): `v.wrapping_add(half) as iN`. For `u24` the masked word is sign-extended
      from bit 23; the source casts it to `i32` without sign extension (see `I24FromU24AsWritten`). */
  function UnsignedToSignedOffset(src: SampleType, v: int): (r: int)
    requires !src.IsSigned() && InRange(src, v)
    ensures InRange(src.AsSigned(), r)
  {
    match src
    case U8 => AsI8(AsU8(v + 0x80))
    case U16 => AsI16(AsU16(v + 0x8000))
    case U24 => SignExtend24(AsU32(v + 0x80_0000) % 0x100_0000)
    case U32 => AsI32(AsU32(v + 0x8000_0000))
  }

  /** `dst::from_src(v)`, which is also `src::to_dst(v)` (`impl_to_methods!`, sample.rs:101-116). A
      conversion that changes signedness first flips at the source width and then shifts. Every value of
      `src` becomes a value of `dst`. */
  function FromSample(dst: SampleType, src: SampleType, v: int): (r: int)
    requires InRange(src, v)
    ensures InRange(dst, r)
  {
    if !dst.IsSigned() then
      if !src.IsSigned() then UnsignedFromUnsigned(dst, src, v)
      else UnsignedFromUnsigned(dst, src.AsUnsigned(), SignedToUnsignedOffset(src, v))
    else
      if src.IsSigned() then SignedFromSigned(dst, src, v)
      else SignedFromSigned(dst, src.AsSigned(), UnsignedToSignedOffset(src, v))
  }

  // A width-independent reference: the position of a value on a 32-bit scale that spans the whole
  // range of every type ("the full range of the integer sample formats is always used", sample.rs:7-9).

  /** 2^(32 - bits): the weight of the least significant bit of `t` on the 32-bit scale. */
  function Scale(t: SampleType): nat {
    match t
    case U8 | I8 => 0x100_0000
    case U16 | I16 => 0x1_0000
    case U24 | I24 => 0x100
    case U32 | I32 => 1
  }

  /** 2^bits: the number of values of `t`. */
  function Span(t: SampleType): (n: nat)
    ensures n * Scale(t) == 0x1_0000_0000
    ensures n == t.MaxValue() - t.MinValue() + 1
  {
    match t
    case U8 | I8 => 0x100
    case U16 | I16 => 0x1_0000
    case U24 | I24 => 0x100_0000
    case U32 | I32 => 0x1_0000_0000
  }

  /** 2^(bits of `b` - bits of `a`): how many steps of the wider `b` make one step of `a`. */
  function Ratio(a: SampleType, b: SampleType): (r: nat)
    requires a.Bits() <= b.Bits()
    ensures r >= 1 && Scale(a) == r * Scale(b)
  {
    match b.Bits() - a.Bits()
    case 0 => 1
    case 8 => 0x100
    case 16 => 0x1_0000
    case 24 => 0x100_0000
  }

  /** The position of `v` on the 32-bit scale: the minimum of every type is 0, the maximum is just below 2^32. */
  function Level(t: SampleType, v: int): (l: int)
    requires InRange(t, v)
    ensures 0 <= l < 0x1_0000_0000
  {
    (v - t.MinValue()) * Scale(t)
  }

  /** The value of `t` whose level is the largest one at or below `l`. */
  function FromLevel(t: SampleType, l: int): (v: int)
    requires 0 <= l < 0x1_0000_0000
    ensures InRange(t, v)
  {
    l / Scale(t) + t.MinValue()
  }

  /** Sign extension of a 24-bit word: values with bit 23 set are negative. */
  lemma SignExtendOfWord(x: int)
    requires 0 <= x < 0x100_0000
    ensures SignExtend24(x) == if x < 0x80_0000 then x else x - 0x100_0000
  {
    var w := x * 0x100;
    assert 0 <= w < 0x1_0000_0000;
    assert AsU32(w) == w;
    if x < 0x80_0000 {
      assert AsI32(w) == w;
    } else {
      assert AsI32(w) == w - 0x1_0000_0000;
    }
  }

  /** The bit flip from signed to unsigned is a shift by half the range: the result is at the same level. */
  lemma SignedFlipIsShift(t: SampleType, v: int)
    requires t.IsSigned() && InRange(t, v)
    ensures SignedToUnsignedOffset(t, v) == v - t.MinValue()
  {
    match t
    case I8 =>
      if v < 0 { assert AsU8(v) == v + 0x100; }
    case I16 =>
      if v < 0 { assert AsU16(v) == v + 0x1_0000; }
    case I24 =>
      if v < 0 { assert AsU32(v) == v + 0x1_0000_0000; }
      assert AsU32(AsU32(v) + 0x80_0000) == v + 0x80_0000;
    case I32 =>
      if v < 0 { assert AsU32(v) == v + 0x1_0000_0000; }
  }

  /** The bit flip from unsigned to signed is the opposite shift. */
  lemma UnsignedFlipIsShift(t: SampleType, v: int)
    requires !t.IsSigned() && InRange(t, v)
    ensures UnsignedToSignedOffset(t, v) == v + t.AsSigned().MinValue()
  {
    match t
    case U8 =>
      var u := (v + 0x80) % 0x100;
      assert u == if v < 0x80 then v + 0x80 else v - 0x80;
    case U16 =>
      var u := (v + 0x8000) % 0x1_0000;
      assert u == if v < 0x8000 then v + 0x8000 else v - 0x8000;
    case U24 =>
      assert AsU32(v + 0x80_0000) == v + 0x80_0000;
      var x := (v + 0x80_0000) % 0x100_0000;
      assert x == if v < 0x80_0000 then v + 0x80_0000 else v - 0x80_0000;
      SignExtendOfWord(x);
    case U32 =>
      var u := (v + 0x8000_0000) % 0x1_0000_0000;
      assert u == if v < 0x8000_0000 then v + 0x8000_0000 else v - 0x8000_0000;
  }

  // Every conversion keeps the level: widening moves the value up to the same position on the 32-bit
  // scale, narrowing drops the low bits (the largest level of `dst` at or below the level of `v`). One
  // lemma per target type, then one per signedness.

  lemma ToU8KeepsLevel(src: SampleType, v: int)
    requires !src.IsSigned() && InRange(src, v)
    ensures UnsignedFromUnsigned(U8, src, v) == FromLevel(U8, Level(src, v))
  {
    match src
    case U8 => DivOfSum(v, 0, 0x100_0000);
    case U16 => DivOfSum(v / 0x100, v % 0x100 * 0x1_0000, 0x100_0000);
    case U24 => DivOfSum(v / 0x1_0000, v % 0x1_0000 * 0x100, 0x100_0000);
    case U32 => DivOfSum(v / 0x100_0000, v % 0x100_0000, 0x100_0000);
  }

  lemma ToU16KeepsLevel(src: SampleType, v: int)
    requires !src.IsSigned() && InRange(src, v)
    ensures UnsignedFromUnsigned(U16, src, v) == FromLevel(U16, Level(src, v))
  {
    match src
    case U8 => DivOfSum(v * 0x100, 0, 0x1_0000);
    case U16 => DivOfSum(v, 0, 0x1_0000);
    case U24 => DivOfSum(v / 0x100, v % 0x100 * 0x100, 0x1_0000);
    case U32 => DivOfSum(v / 0x1_0000, v % 0x1_0000, 0x1_0000);
  }

  lemma ToU24KeepsLevel(src: SampleType, v: int)
    requires !src.IsSigned() && InRange(src, v)
    ensures UnsignedFromUnsigned(U24, src, v) == FromLevel(U24, Level(src, v))
  {
    match src
    case U8 => DivOfSum(v * 0x1_0000, 0, 0x100);
    case U16 => DivOfSum(v * 0x100, 0, 0x100);
    case U24 => DivOfSum(v, 0, 0x100);
    case U32 => DivOfSum(v / 0x100, v % 0x100, 0x100);
  }

  lemma ToU32KeepsLevel(src: SampleType, v: int)
    requires !src.IsSigned() && InRange(src, v)
    ensures UnsignedFromUnsigned(U32, src, v) == FromLevel(U32, Level(src, v))
  {
    match src
    case U8 => DivOfSum(v * 0x100_0000, 0, 0x1);
    case U16 => DivOfSum(v * 0x1_0000, 0, 0x1);
    case U24 => DivOfSum(v * 0x100, 0, 0x1);
    case U32 => DivOfSum(v, 0, 0x1);
  }

  lemma UnsignedConversionKeepsLevel(dst: SampleType, src: SampleType, v: int)
    requires !dst.IsSigned() && !src.IsSigned() && InRange(src, v)
    ensures UnsignedFromUnsigned(dst, src, v) == FromLevel(dst, Level(src, v))
  {
    match dst
    case U8 => ToU8KeepsLevel(src, v);
    case U16 => ToU16KeepsLevel(src, v);
    case U24 => ToU24KeepsLevel(src, v);
    case U32 => ToU32KeepsLevel(src, v);
  }

  lemma ToI8KeepsLevel(src: SampleType, v: int)
    requires src.IsSigned() && InRange(src, v)
    ensures SignedFromSigned(I8, src, v) == FromLevel(I8, Level(src, v))
  {
    match src
    case I8 => DivOfSum((v + 0x80), 0, 0x100_0000);
    case I16 => DivOfSum(v / 0x100 + 0x80, v % 0x100 * 0x1_0000, 0x100_0000);
    case I24 => DivOfSum(v / 0x1_0000 + 0x80, v % 0x1_0000 * 0x100, 0x100_0000);
    case I32 => DivOfSum(v / 0x100_0000 + 0x80, v % 0x100_0000, 0x100_0000);
  }

  lemma ToI16KeepsLevel(src: SampleType, v: int)
    requires src.IsSigned() && InRange(src, v)
    ensures SignedFromSigned(I16, src, v) == FromLevel(I16, Level(src, v))
  {
    match src
    case I8 => DivOfSum((v + 0x80) * 0x100, 0, 0x1_0000);
    case I16 => DivOfSum((v + 0x8000), 0, 0x1_0000);
    case I24 => DivOfSum(v / 0x100 + 0x8000, v % 0x100 * 0x100, 0x1_0000);
    case I32 => DivOfSum(v / 0x1_0000 + 0x8000, v % 0x1_0000, 0x1_0000);
  }

  lemma ToI24KeepsLevel(src: SampleType, v: int)
    requires src.IsSigned() && InRange(src, v)
    ensures SignedFromSigned(I24, src, v) == FromLevel(I24, Level(src, v))
  {
    match src
    case I8 => DivOfSum((v + 0x80) * 0x1_0000, 0, 0x100);
    case I16 => DivOfSum((v + 0x8000) * 0x100, 0, 0x100);
    case I24 => DivOfSum((v + 0x80_0000), 0, 0x100);
    case I32 => DivOfSum(v / 0x100 + 0x80_0000, v % 0x100, 0x100);
  }

  lemma ToI32KeepsLevel(src: SampleType, v: int)
    requires src.IsSigned() && InRange(src, v)
    ensures SignedFromSigned(I32, src, v) == FromLevel(I32, Level(src, v))
  {
    match src
    case I8 => DivOfSum((v + 0x80) * 0x100_0000, 0, 0x1);
    case I16 => DivOfSum((v + 0x8000) * 0x1_0000, 0, 0x1);
    case I24 => DivOfSum((v + 0x80_0000) * 0x100, 0, 0x1);
    case I32 => DivOfSum((v + 0x8000_0000), 0, 0x1);
  }

  lemma SignedConversionKeepsLevel(dst: SampleType, src: SampleType, v: int)
    requires dst.IsSigned() && src.IsSigned() && InRange(src, v)
    ensures SignedFromSigned(dst, src, v) == FromLevel(dst, Level(src, v))
  {
    match dst
    case I8 => ToI8KeepsLevel(src, v);
    case I16 => ToI16KeepsLevel(src, v);
    case I24 => ToI24KeepsLevel(src, v);
    case I32 => ToI32KeepsLevel(src, v);
  }

  /** Every integer conversion is the rescaling of the 32-bit level: the value of `dst` whose level is the
      largest one at or below the level of `v`. */
  lemma ConversionIsRescaling(dst: SampleType, src: SampleType, v: int)
    requires InRange(src, v)
    ensures FromSample(dst, src, v) == FromLevel(dst, Level(src, v))
  {
    if !dst.IsSigned() {
      if !src.IsSigned() {
        UnsignedConversionKeepsLevel(dst, src, v);
      } else {
        SignedFlipIsShift(src, v);
        UnsignedConversionKeepsLevel(dst, src.AsUnsigned(), SignedToUnsignedOffset(src, v));
      }
    } else {
      if src.IsSigned() {
        SignedConversionKeepsLevel(dst, src, v);
      } else {
        UnsignedFlipIsShift(src, v);
        SignedConversionKeepsLevel(dst, src.AsSigned(), UnsignedToSignedOffset(src, v));
      }
    }
  }

  lemma LevelRoundTrip(t: SampleType, v: int)
    requires InRange(t, v)
    ensures FromLevel(t, Level(t, v)) == v
  {
    DivOfSum(v - t.MinValue(), 0, Scale(t));
  }

  /** A level that is a whole number of steps of `t` is the level of the value it reads back as. */
  lemma LevelOfFromLevel(t: SampleType, q: int)
    requires 0 <= q * Scale(t) < 0x1_0000_0000
    ensures Level(t, FromLevel(t, q * Scale(t))) == q * Scale(t)
  {
    DivOfSum(q, 0, Scale(t));
  }

  /** Converting to a type at least as wide and back gives the value back: "converting between signed and
      unsigned of the same size is lossless, as is increasing the bit depth" (sample.rs:7-9, and the tests
      `sign_conversion_lossless` and `increased_precision_lossless`). */
  lemma WideningIsLossless(narrow: SampleType, wide: SampleType, v: int)
    requires InRange(narrow, v) && narrow.Bits() <= wide.Bits()
    ensures FromSample(narrow, wide, FromSample(wide, narrow, v)) == v
  {
    var l := Level(narrow, v);
    var k := Ratio(narrow, wide);
    var q := (v - narrow.MinValue()) * k;
    assert l == q * Scale(wide);
    ConversionIsRescaling(wide, narrow, v);
    var w := FromSample(wide, narrow, v);
    LevelOfFromLevel(wide, q);
    ConversionIsRescaling(narrow, wide, w);
    LevelRoundTrip(narrow, v);
  }

  lemma LevelIsMonotone(t: SampleType, v1: int, v2: int)
    requires InRange(t, v1) && InRange(t, v2) && v1 <= v2
    ensures Level(t, v1) <= Level(t, v2)
  {
    match t
    case U8 | I8 =>
    case U16 | I16 =>
    case U24 | I24 =>
    case U32 | I32 =>
  }

  lemma FromLevelIsMonotone(t: SampleType, l1: int, l2: int)
    requires 0 <= l1 <= l2 < 0x1_0000_0000
    ensures FromLevel(t, l1) <= FromLevel(t, l2)
  {
    match t
    case U8 | I8 =>
    case U16 | I16 =>
    case U24 | I24 =>
    case U32 | I32 =>
  }

  /** Conversions preserve the order of samples. */
  lemma ConversionIsMonotone(dst: SampleType, src: SampleType, v1: int, v2: int)
    requires InRange(src, v1) && InRange(src, v2) && v1 <= v2
    ensures FromSample(dst, src, v1) <= FromSample(dst, src, v2)
  {
    ConversionIsRescaling(dst, src, v1);
    ConversionIsRescaling(dst, src, v2);
    LevelIsMonotone(src, v1, v2);
    FromLevelIsMonotone(dst, Level(src, v1), Level(src, v2));
  }

  /** The minimum of every type maps to the minimum of every other ("`0u16.to_i8()` is -128"). */
  lemma ConversionKeepsMinimum(dst: SampleType, src: SampleType)
    ensures FromSample(dst, src, src.MinValue()) == dst.MinValue()
  {
    ConversionIsRescaling(dst, src, src.MinValue());
    assert Level(src, src.MinValue()) == 0;
    FromLevelOfZero(dst);
  }

  lemma FromLevelOfZero(t: SampleType)
    ensures FromLevel(t, 0) == t.MinValue()
  {
    match t
    case U8 | I8 =>
    case U16 | I16 =>
    case U24 | I24 =>
    case U32 | I32 =>
  }

  /** The maximum maps to the maximum of a type at most as wide. */
  lemma NarrowingKeepsMaximum(dst: SampleType, src: SampleType)
    requires dst.Bits() <= src.Bits()
    ensures FromSample(dst, src, src.MaxValue()) == dst.MaxValue()
  {
    ConversionIsRescaling(dst, src, src.MaxValue());
    var j := Span(dst);
    var k := Ratio(dst, src);
    assert Level(src, src.MaxValue()) == (Span(src) - 1) * Scale(src);
    assert Span(src) * Scale(src) == j * Scale(dst);
    assert Level(src, src.MaxValue()) == (j - 1) * Scale(dst) + (Scale(dst) - Scale(src));
    DivOfSum(j - 1, Scale(dst) - Scale(src), Scale(dst));
  }

  /** Towards a wider type the maximum keeps its bits and the low bits it lacks are zero
      (`0xFFu8` becomes `0xFF00u16`), one step of the source below the maximum of the target. */
  lemma WideningMaximum(dst: SampleType, src: SampleType)
    requires src.Bits() < dst.Bits()
    ensures FromSample(dst, src, src.MaxValue()) == dst.MaxValue() - (Ratio(src, dst) - 1)
  {
    ConversionIsRescaling(dst, src, src.MaxValue());
    var j := Span(dst);
    var m := Ratio(src, dst);
    assert Level(src, src.MaxValue()) == (Span(src) - 1) * Scale(src);
    assert Span(src) * Scale(src) == j * Scale(dst);
    assert Level(src, src.MaxValue()) == (j - m) * Scale(dst) + 0;
    DivOfSum(j - m, 0, Scale(dst));
  }

  // The conversion from `u24` to `i24` as written: `i24((v.0.wrapping_add(0x800000) & 0x00FFFFFF) as i32)`
  // (sample.rs:230, followed by the identity `i24::from_i24`, sample.rs:309). The masked word is at most
  // 0xFFFFFF, so the cast to `i32` keeps it non-negative and bit 23 is never extended.

  /** The backing `i32` of `i24::from_u24(v)` as written: congruent to the intended value modulo 2^24 but
      outside the `i24` range for every `v` below 0x800000. */
  function I24FromU24AsWritten(v: int): (r: int)
    requires InRange(U24, v)
    ensures 0 <= r < 0x100_0000
    ensures r == FromSample(I24, U24, v) + (if v < 0x80_0000 then 0x100_0000 else 0)
  {
    UnsignedFlipIsShift(U24, v);
    AsU32(v + 0x80_0000) % 0x100_0000
  }

  /** `i24::from_u24(u24(0))` should be the minimum -0x800000 but is 0x800000, out of range, and the order
      of the two halves of the range is swapped (`i24` derives `Ord` from its backing word). */
  lemma I24FromU24AsWrittenIsWrong()
    ensures I24FromU24AsWritten(0) == 0x80_0000 && !InRange(I24, I24FromU24AsWritten(0))
    ensures FromSample(I24, U24, 0) == -0x80_0000
    ensures FromSample(I24, U24, 0) < FromSample(I24, U24, 0x80_0000)
    ensures I24FromU24AsWritten(0) > I24FromU24AsWritten(0x80_0000)
  {
    ConversionKeepsMinimum(I24, U24);
  }

  /** Everything that reads only the low 24 bits of the word, or shifts it down to i8/i16/i32 with a
      truncating cast, sees the intended value; this is why the lossless tests pass as written. */
  lemma I24FromU24AsWrittenAgreesElsewhere(v: int)
    requires InRange(U24, v)
    ensures AsU32(AsU32(I24FromU24AsWritten(v)) + 0x80_0000) % 0x100_0000 == v
    ensures AsI8(I24FromU24AsWritten(v) / 0x1_0000) == FromSample(I8, U24, v)
    ensures AsI16(I24FromU24AsWritten(v) / 0x100) == FromSample(I16, U24, v)
    ensures AsI32(I24FromU24AsWritten(v) * 0x100) == FromSample(I32, U24, v)
  {
    var w := I24FromU24AsWritten(v);
    var c := FromSample(I24, U24, v);
    UnsignedFlipIsShift(U24, v);
    if v < 0x80_0000 {
      assert w == c + 0x100_0000;
      assert w / 0x1_0000 == c / 0x1_0000 + 0x100;
      assert w / 0x100 == c / 0x100 + 0x1_0000;
      assert w * 0x100 == c * 0x100 + 0x1_0000_0000;
    }
  }
}
