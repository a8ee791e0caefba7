/** The raw half of `Sample` for the integer types (`impl_raw_methods!` and `impl_raw_methods_24!`,
    src/sample.rs:116-156): a sample is stored at a byte offset of a buffer, little or big endian. The 8-,
    16- and 32-bit types store and load their whole word. A 24-bit sample occupies the low three bytes of a
    32-bit word (libsoundio-sys/lib.rs:231-234): the first three bytes of its slot little endian, the last
    three big endian. The 24-bit writers store those three bytes one at a time; the little-endian reader
    loads the whole word and shifts its top byte out. */
module SampleRaw {
  import opened Sample
  import opened Bytes

  /** The number of bytes `to_raw_le` and `to_raw_be` write. */
  function StoreWidth(t: SampleType): nat {
    match t
    case U8 | I8 => 1
    case U16 | I16 => 2
    case U24 | I24 => 3
    case U32 | I32 => 4
  }

  /** The number of bytes `from_raw_le` reads: the 24-bit types read a whole `u32`. */
  function ReadWidth(t: SampleType): nat {
    if t == U24 || t == I24 then 4 else StoreWidth(t)
  }

  predicate Is24(t: SampleType) {
    t == U24 || t == I24
  }

  /** Where in its slot a big-endian sample's bytes begin: one byte in for the 24-bit types, whose unused
      top byte comes first, and at the slot itself for the others. */
  function BeLead(t: SampleType): (k: nat)
    ensures k + StoreWidth(t) == ReadWidth(t)
  {
    if Is24(t) then 1 else 0
  }

  /** The sample a loaded unsigned word stands for: the word itself for unsigned types, its two's complement
      reading for signed ones, and for a 24-bit type `((w << 8) as u32 / i32) >> 8` (sample.rs:139). */
  function FromWord(t: SampleType, w: int): (v: int)
    ensures InRange(t, v)
  {
    match t
    case U8 => AsU8(w)
    case U16 => AsU16(w)
    case U24 => Low24(w)
    case U32 => AsU32(w)
    case I8 => AsI8(w)
    case I16 => AsI16(w)
    case I24 => SignExtend24(w)
    case I32 => AsI32(w)
  }

  /** The bytes `to_raw_le` stores: the low bytes of the backing word, least significant first. */
  function EncodeLe(t: SampleType, v: int): (bs: seq<Byte>)
    ensures |bs| == StoreWidth(t)
  {
    LeBytes(v, StoreWidth(t))
  }

  /** The bytes `to_raw_be` stores: the low bytes of the backing word, most significant first. */
  function EncodeBe(t: SampleType, v: int): (bs: seq<Byte>)
    ensures |bs| == StoreWidth(t)
  {
    BeBytes(v, StoreWidth(t))
  }

  /** `from_raw_le`: the little-endian word at `p`, four bytes wide for the 24-bit types. */
  function FromRawLe(t: SampleType, buf: seq<Byte>, p: nat): (v: int)
    requires p + ReadWidth(t) <= |buf|
    ensures InRange(t, v)
  {
    FromWord(t, LeValue(buf[p..p + ReadWidth(t)]))
  }

  /** `from_raw_be` for the 8-, 16- and 32-bit types (`Self::from_be` of the stored word), and the intended
      reading for the 24-bit types: the low three bytes of the big-endian word at `p`, that is the bytes at
      `p + 1`, `p + 2` and `p + 3`, most significant first. */
  function FromRawBe(t: SampleType, buf: seq<Byte>, p: nat): (v: int)
    requires p + ReadWidth(t) <= |buf|
    ensures InRange(t, v)
  {
    FromWord(t, BeValue(buf[p + BeLead(t)..p + ReadWidth(t)]))
  }

  /** The 24-bit `from_raw_be` as written (sample.rs:141-144): the little-endian `u32` at `p + 3`, which
      reaches three bytes past the sample's 4-byte slot. */
  function FromRawBe24AsWritten(t: SampleType, buf: seq<Byte>, p: nat): (v: int)
    requires Is24(t) && p + 7 <= |buf|
    ensures InRange(t, v)
    ensures v == FromRawLe(t, buf, p + 3)
  {
    FromWord(t, LeValue(buf[p + 3..p + 7]))
  }

  /** `v.swap_bytes()`: the value of the same type whose stored bytes are those of `v` in reverse order. */
  function SwapBytes(t: SampleType, v: int): (r: int)
    requires !Is24(t)
  {
    FromWord(t, LeValue(Reverse(LeBytes(v, StoreWidth(t)))))
  }

  /** `to_raw_le(v, ptr + p)`: one store of the whole word, or three byte stores for the 24-bit types. */
  method ToRawLe(t: SampleType, v: int, buf: array<Byte>, p: nat)
    requires InRange(t, v) && p + StoreWidth(t) <= buf.Length
    modifies buf
    ensures buf[..] == Splice(old(buf[..]), p, EncodeLe(t, v))
  {
    if Is24(t) {
      buf[p] := v % 0x100;
      buf[p + 1] := (v / 0x100) % 0x100;
      buf[p + 2] := (v / 0x1_0000) % 0x100;
      ShiftTwice(v);
      assert LeBytes(v, 3) == [v % 0x100] + LeBytes(v / 0x100, 2);
      assert LeBytes(v / 0x100, 2) == [(v / 0x100) % 0x100] + LeBytes(v / 0x100 / 0x100, 1);
      assert LeBytes(v / 0x100 / 0x100, 1) == [(v / 0x1_0000) % 0x100];
      assert EncodeLe(t, v) == [v % 0x100, (v / 0x100) % 0x100, (v / 0x1_0000) % 0x100];
    } else {
      var e := EncodeLe(t, v);
      forall i | p <= i < p + |e| {
        buf[i] := e[i - p];
      }
    }
    assert buf[..] == Splice(old(buf[..]), p, EncodeLe(t, v));
  }

  /** `to_raw_be(v, ptr + p)`: one store of the whole word, or, for the 24-bit types, the three byte stores
      of `ToRawBe24AsWritten` into the low three bytes of the slot. */
  method ToRawBe(t: SampleType, v: int, buf: array<Byte>, p: nat)
    requires InRange(t, v) && p + ReadWidth(t) <= buf.Length
    modifies buf
    ensures buf[..] == Splice(old(buf[..]), p + BeLead(t), EncodeBe(t, v))
  {
    if Is24(t) {
      ToRawBe24AsWritten(t, v, buf, p + 1);
    } else {
      var e := EncodeBe(t, v);
      forall i | p <= i < p + |e| {
        buf[i] := e[i - p];
      }
      assert buf[..] == Splice(old(buf[..]), p, EncodeBe(t, v));
    }
  }

  /** The 24-bit `to_raw_be` as written (sample.rs:150-154): the three bytes, most significant first, at
      `p`, `p + 1` and `p + 2`, the high three bytes of the slot rather than its low three. */
  method ToRawBe24AsWritten(t: SampleType, v: int, buf: array<Byte>, p: nat)
    requires Is24(t) && InRange(t, v) && p + StoreWidth(t) <= buf.Length
    modifies buf
    ensures buf[..] == Splice(old(buf[..]), p, EncodeBe(t, v))
  {
    buf[p] := (v / 0x1_0000) % 0x100;
    buf[p + 1] := (v / 0x100) % 0x100;
    buf[p + 2] := v % 0x100;
    ShiftTwice(v);
    assert BeBytes(v, 3) == BeBytes(v / 0x100, 2) + [v % 0x100];
    assert BeBytes(v / 0x100, 2) == BeBytes(v / 0x100 / 0x100, 1) + [(v / 0x100) % 0x100];
    assert BeBytes(v / 0x100 / 0x100, 1) == [(v / 0x1_0000) % 0x100];
    assert EncodeBe(t, v) == [(v / 0x1_0000) % 0x100, (v / 0x100) % 0x100, v % 0x100];
    assert buf[..] == Splice(old(buf[..]), p, EncodeBe(t, v));
  }

  /** `(x >> 8) >> 8 == x >> 16`. */
  lemma ShiftTwice(x: int)
    ensures (x / 0x100) / 0x100 == x / 0x1_0000
  {
    var q := x / 0x1_0000;
    var r := x % 0x1_0000;
    assert x == (q * 0x100 + r / 0x100) * 0x100 + r % 0x100;
    DivOfSum(q * 0x100 + r / 0x100, r % 0x100, 0x100);
    DivOfSum(q, r / 0x100, 0x100);
  }

  // A loaded word only matters modulo 256^(stored width): the cast or the 24-bit shift drops the rest.
  // One lemma per width keeps each proof's arithmetic on constants.

  lemma FromWordOfResidue8(t: SampleType, x: int, k: int)
    requires (t == U8 || t == I8) && 0 <= x < Pow256(StoreWidth(t))
    ensures FromWord(t, x + Pow256(StoreWidth(t)) * k) == FromWord(t, x)
  {
    assert Pow256(1) == 0x100;
    ModOfSum(k, x, 0x100);
  }

  lemma FromWordOfResidue16(t: SampleType, x: int, k: int)
    requires (t == U16 || t == I16) && 0 <= x < Pow256(StoreWidth(t))
    ensures FromWord(t, x + Pow256(StoreWidth(t)) * k) == FromWord(t, x)
  {
    assert Pow256(2) == 0x1_0000;
    ModOfSum(k, x, 0x1_0000);
  }

  lemma FromWordOfResidue32(t: SampleType, x: int, k: int)
    requires (t == U32 || t == I32) && 0 <= x < Pow256(StoreWidth(t))
    ensures FromWord(t, x + Pow256(StoreWidth(t)) * k) == FromWord(t, x)
  {
    assert Pow256(4) == 0x1_0000_0000;
    ModOfSum(k, x, 0x1_0000_0000);
  }

  lemma FromWordOfResidue24(t: SampleType, x: int, k: int)
    requires Is24(t) && 0 <= x < Pow256(StoreWidth(t))
    ensures FromWord(t, x + Pow256(StoreWidth(t)) * k) == FromWord(t, x)
  {
    assert Pow256(3) == 0x100_0000;
    assert (x + 0x100_0000 * k) * 0x100 == 0x1_0000_0000 * k + x * 0x100;
    ModOfSum(k, x * 0x100, 0x1_0000_0000);
    assert AsU32((x + 0x100_0000 * k) * 0x100) == x * 0x100 == AsU32(x * 0x100);
  }

  lemma FromWordOfResidue(t: SampleType, x: int, k: int)
    requires 0 <= x < Pow256(StoreWidth(t))
    ensures FromWord(t, x + Pow256(StoreWidth(t)) * k) == FromWord(t, x)
  {
    match t
    case U8 | I8 => FromWordOfResidue8(t, x, k);
    case U16 | I16 => FromWordOfResidue16(t, x, k);
    case U24 | I24 => FromWordOfResidue24(t, x, k);
    case U32 | I32 => FromWordOfResidue32(t, x, k);
  }

  /** Loading the stored bytes of an in-range `v`, as the word they form, gives `v` back. */
  lemma FromWordOfStoredBits(t: SampleType, v: int)
    requires InRange(t, v)
    ensures FromWord(t, v % Pow256(StoreWidth(t))) == v
  {
    var m := Pow256(StoreWidth(t));
    var x := v % m;
    assert v == x + m * (v / m);
    FromWordOfResidue(t, x, v / m);
    StoredBitsAreValue(t, v);
  }

  /** An in-range value is read back from its own word. */
  lemma StoredBitsAreValue(t: SampleType, v: int)
    requires InRange(t, v)
    ensures FromWord(t, v) == v
  {
    if Is24(t) {
      var x := v % 0x100_0000;
      assert v == x || v == x - 0x100_0000;
      assert (x + 0x100_0000 * (-1)) * 0x100 == x * 0x100 - 0x1_0000_0000;
      if t == I24 && v < 0 {
        assert Pow256(3) == 0x100_0000;
        FromWordOfResidue24(t, x, -1);
        SignExtendOfWord(x);
      } else if t == I24 {
        SignExtendOfWord(v);
      }
    }
  }

  /** The 24-bit `from_raw_le` ignores the fourth byte of the word it loads: it yields the low three bytes,
      as a `u24` in [0, 2^24) or as an `i24` sign-extended from bit 23 (sample.rs:137-140). */
  lemma FromRawLe24IgnoresFourthByte(t: SampleType, buf: seq<Byte>, p: nat)
    requires Is24(t) && p + 4 <= |buf|
    ensures FromRawLe(t, buf, p) == FromWord(t, LeValue(buf[p..p + 3]))
    ensures t == U24 ==> FromRawLe(t, buf, p) == LeValue(buf[p..p + 3])
    ensures t == I24 ==>
      FromRawLe(t, buf, p) == LeValue(buf[p..p + 3]) - (if LeValue(buf[p..p + 3]) < 0x80_0000 then 0 else 0x100_0000)
  {
    var w := buf[p..p + 4];
    assert w == buf[p..p + 3] + [buf[p + 3]];
    LeValueOfAppend(buf[p..p + 3], [buf[p + 3]]);
    assert Pow256(3) == 0x100_0000;
    var x := LeValue(buf[p..p + 3]);
    assert LeValue([buf[p + 3]]) == buf[p + 3];
    FromWordOfResidue(t, x, buf[p + 3]);
    if t == I24 {
      SignExtendOfWord(x);
    }
  }

  /** `from_raw_le(to_raw_le(v))` is `v` for every type and value: the test `raw_lossless`
      (sample.rs:458-489), over the whole range of every type. */
  lemma RawLeRoundTrip(t: SampleType, v: int, buf: seq<Byte>, p: nat)
    requires InRange(t, v) && p + ReadWidth(t) <= |buf|
    ensures FromRawLe(t, Splice(buf, p, EncodeLe(t, v)), p) == v
  {
    var s := Splice(buf, p, EncodeLe(t, v));
    LeRoundTrip(v, StoreWidth(t));
    FromWordOfStoredBits(t, v);
    if Is24(t) {
      FromRawLe24IgnoresFourthByte(t, s, p);
    }
  }

  /** The big-endian round trip for every type, with the 24-bit writer and reader both at the low three
      bytes of the slot. */
  lemma RawBeRoundTrip(t: SampleType, v: int, buf: seq<Byte>, p: nat)
    requires InRange(t, v) && p + ReadWidth(t) <= |buf|
    ensures FromRawBe(t, Splice(buf, p + BeLead(t), EncodeBe(t, v)), p) == v
  {
    BeRoundTrip(v, StoreWidth(t));
    FromWordOfStoredBits(t, v);
  }

  /** Reading the little-endian bytes of `v` big endian gives `v.swap_bytes()`, as `raw_lossless` checks for
      u8, i8 and u16; for the one-byte types that is `v` itself. */
  lemma BeReadOfLeBytes(t: SampleType, v: int, buf: seq<Byte>, p: nat)
    requires !Is24(t) && InRange(t, v) && p + StoreWidth(t) <= |buf|
    ensures FromRawBe(t, Splice(buf, p, EncodeLe(t, v)), p) == SwapBytes(t, v)
    ensures StoreWidth(t) == 1 ==> SwapBytes(t, v) == v
  {
    var e := EncodeLe(t, v);
    assert Reverse(Reverse(e)) == e;
    BeValueOfReverse(Reverse(e));
    if StoreWidth(t) == 1 {
      assert Reverse(e) == e;
      RawLeRoundTrip(t, v, buf, p);
    }
  }

  /** The 24-bit big-endian reader as written misses a stored sample: with `u24(0x100)` in the low three
      bytes of the first slot of zeroed memory, it reads 0, the bytes that follow the slot. */
  lemma FromRawBe24AsWrittenIsWrong()
    ensures FromRawBe24AsWritten(U24, Splice(seq(8, i => 0), 1, EncodeBe(U24, 0x100)), 0) == 0
    ensures FromRawBe(U24, Splice(seq(8, i => 0), 1, EncodeBe(U24, 0x100)), 0) == 0x100
  {
    var s := Splice(seq(8, i => 0), 1, EncodeBe(U24, 0x100));
    assert EncodeBe(U24, 0x100) == [0, 1, 0];
    assert s == [0, 0, 1, 0, 0, 0, 0, 0];
    assert s[3..7] == [0, 0, 0, 0];
    assert LeValue([0, 0, 0, 0]) == 0;
    RawBeRoundTrip(U24, 0x100, seq(8, i => 0), 0);
  }

  /** The 24-bit big-endian writer as written puts a sample where the slot's reader does not find it:
      `u24(1)` stored at the start of a zeroed slot reads back as 0x100. */
  lemma ToRawBe24AsWrittenIsWrong()
    ensures FromRawBe(U24, Splice(seq(4, i => 0), 0, EncodeBe(U24, 1)), 0) == 0x100
    ensures FromRawBe(U24, Splice(seq(4, i => 0), 1, EncodeBe(U24, 1)), 0) == 1
  {
    var s := Splice(seq(4, i => 0), 0, EncodeBe(U24, 1));
    assert EncodeBe(U24, 1) == [0, 0, 1];
    assert s == [0, 0, 1, 0];
    assert s[1..4] == [0, 1, 0];
    assert BeValue([0, 1, 0]) == 0x100;
    RawBeRoundTrip(U24, 1, seq(4, i => 0), 0);
  }
}
