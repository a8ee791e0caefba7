/** The string helpers of src/util.rs: C strings read as Latin-1 (`latin1_to_string`) or as UTF-8
    (`utf8_to_string`). A C string is a pointer, null or to memory that holds a NUL byte somewhere; the text
    is the bytes before the first NUL. UTF-8 is the encoding of RFC 3629, which is what Rust's `str`
    accepts: no overlong forms, no surrogates, nothing above U+10FFFF. */
module Util {
  import opened Wrappers
  import opened Bytes

  /** A `*const c_char`: null, or the memory it points to, from the pointer on. */
  datatype CString = Null | At(mem: seq<Byte>)

  /** What `CStr::from_ptr` demands: a null pointer is checked before the call, any other must reach a
      NUL byte. */
  predicate Terminated(s: CString)
    ensures Terminated(s) <==> s.Null? || exists i :: 0 <= i < |s.mem| && s.mem[i] == 0
  {
    s.Null? || 0 in s.mem
  }

  /** `CStr::to_bytes`: the bytes before the first NUL. */
  function ToBytes(mem: seq<Byte>): (bs: seq<Byte>)
    requires 0 in mem
    ensures |bs| < |mem| && mem[|bs|] == 0
    ensures bs == mem[..|bs|] && 0 !in bs
  {
    if mem[0] == 0 then [] else [mem[0]] + ToBytes(mem[1..])
  }

  /** A byte string without NUL, terminated, reads back as itself. */
  lemma {:induction false} ToBytesOfTerminated(bs: seq<Byte>, rest: seq<Byte>)
    requires 0 !in bs
    ensures 0 in bs + [0] + rest && ToBytes(bs + [0] + rest) == bs
  {
    var mem := bs + [0] + rest;
    assert mem[|bs|] == 0;
    var r := ToBytes(mem);
    if |r| < |bs| {
      assert false;
    } else if |r| > |bs| {
      assert false;
    }
  }

  // ---------------------------------------------------------------- Latin-1

  /** `latin1_to_string`: every byte is the code point of the same number (the Unicode Latin-1 block). */
  function Latin1ToString(s: CString): (r: string)
    requires Terminated(s)
    ensures s.Null? ==> r == ""
    ensures s.At? ==> |r| == |ToBytes(s.mem)| && forall i :: 0 <= i < |r| ==> r[i] as int == ToBytes(s.mem)[i]
  {
    match s
    case Null => ""
    case At(mem) =>
      var bs := ToBytes(mem);
      seq(|bs|, i requires 0 <= i < |bs| => bs[i] as char)
  }

  /** The text `latin1_to_string` produces has no U+0000 and only code points up to U+00FF. */
  lemma Latin1Range(s: CString)
    requires Terminated(s)
    ensures forall i :: 0 <= i < |Latin1ToString(s)| ==> 0 < Latin1ToString(s)[i] as int <= 0xFF
  {
    if s.At? {
      var bs := ToBytes(s.mem);
      forall i | 0 <= i < |Latin1ToString(s)|
        ensures 0 < Latin1ToString(s)[i] as int <= 0xFF
      {
        assert bs[i] in bs;
      }
    }
  }

  /** A text of Latin-1 code points other than U+0000 in the one-byte-per-character encoding. */
  function Latin1Bytes(t: string): (bs: seq<Byte>)
    requires forall i :: 0 <= i < |t| ==> 0 < t[i] as int <= 0xFF
    ensures |bs| == |t| && 0 !in bs
  {
    seq(|t|, i requires 0 <= i < |t| => t[i] as int)
  }

  /** Reading the terminated Latin-1 bytes of a text gives the text back: whatever follows the NUL is
      ignored. */
  lemma Latin1RoundTrip(t: string, rest: seq<Byte>)
    requires forall i :: 0 <= i < |t| ==> 0 < t[i] as int <= 0xFF
    ensures Latin1ToString(At(Latin1Bytes(t) + [0] + rest)) == t
  {
    ToBytesOfTerminated(Latin1Bytes(t), rest);
  }

  /** The example in the doc comment of `latin1_to_string`: "£µ±«" as one byte per character. */
  lemma Latin1Example()
    ensures Latin1ToString(At([0xA3, 0xB5, 0xB1, 0xAB, 0])) == "\U{A3}\U{B5}\U{B1}\U{AB}"
  {
    Latin1RoundTrip("\U{A3}\U{B5}\U{B1}\U{AB}", []);
    assert Latin1Bytes("\U{A3}\U{B5}\U{B1}\U{AB}") + [0] + [] == [0xA3, 0xB5, 0xB1, 0xAB, 0];
  }

  // ---------------------------------------------------------------- UTF-8

  predicate IsContinuation(b: Byte) {
    0x80 <= b < 0xC0
  }

  /** The character at the start of `bs` and the number of bytes it takes, per the table of section 3 of
      RFC 3629; `None` when those bytes are no valid UTF-8 sequence. */
  function DecodeChar(bs: seq<Byte>): (r: Option<(char, nat)>)
    requires |bs| > 0
    ensures r.Some? ==> 1 <= r.value.1 <= 4 && r.value.1 <= |bs|
  {
    var b0: int := bs[0];
    if b0 < 0x80 then
      Some((b0 as char, 1))
    else if 0xC0 <= b0 < 0xE0 then
      if |bs| >= 2 && IsContinuation(bs[1]) then
        var cp := (b0 - 0xC0) * 0x40 + (bs[1] as int - 0x80);
        if 0x80 <= cp then Some((cp as char, 2)) else None
      else None
    else if 0xE0 <= b0 < 0xF0 then
      if |bs| >= 3 && IsContinuation(bs[1]) && IsContinuation(bs[2]) then
        var cp := (b0 - 0xE0) * 0x1000 + (bs[1] as int - 0x80) * 0x40 + (bs[2] as int - 0x80);
        if 0x800 <= cp && !(0xD800 <= cp < 0xE000) then Some((cp as char, 3)) else None
      else None
    else if 0xF0 <= b0 < 0xF8 then
      if |bs| >= 4 && IsContinuation(bs[1]) && IsContinuation(bs[2]) && IsContinuation(bs[3]) then
        var cp := (b0 - 0xF0) * 0x4_0000 + (bs[1] as int - 0x80) * 0x1000 + (bs[2] as int - 0x80) * 0x40
          + (bs[3] as int - 0x80);
        if 0x1_0000 <= cp < 0x11_0000 then Some((cp as char, 4)) else None
      else None
    else
      None
  }

  /** `str::from_utf8`: the text `bs` encodes, or `None` if it is not valid UTF-8. */
  function Decode(bs: seq<Byte>): (r: Option<string>)
    ensures r.Some? ==> |r.value| <= |bs| && (|r.value| == 0 <==> |bs| == 0)
    decreases |bs|
  {
    if |bs| == 0 then Some("")
    else match DecodeChar(bs)
      case None => None
      case Some((c, n)) =>
        match Decode(bs[n..])
        case None => None
        case Some(rest) => Some([c] + rest)
  }

  /** The UTF-8 encoding of one character (section 3 of RFC 3629). */
  function EncodeChar(c: char): (bs: seq<Byte>)
    ensures 1 <= |bs| <= 4
    ensures (c as int == 0) <==> 0 in bs
  {
    var cp := c as int;
    if cp < 0x80 then [cp]
    else if cp < 0x800 then [0xC0 + cp / 0x40, 0x80 + cp % 0x40]
    else if cp < 0x1_0000 then [0xE0 + cp / 0x1000, 0x80 + (cp / 0x40) % 0x40, 0x80 + cp % 0x40]
    else [0xF0 + cp / 0x4_0000, 0x80 + (cp / 0x1000) % 0x40, 0x80 + (cp / 0x40) % 0x40, 0x80 + cp % 0x40]
  }

  /** The UTF-8 encoding of a text: its characters' encodings one after the other. */
  function Encode(t: string): (bs: seq<Byte>)
    ensures (forall i :: 0 <= i < |t| ==> t[i] as int != 0) <==> 0 !in bs
  {
    if |t| == 0 then [] else EncodeChar(t[0]) + Encode(t[1..])
  }

  /** Decoding the encoding of a character, whatever follows it, gives the character and its length. */
  lemma DecodeOfEncodeChar(c: char, rest: seq<Byte>)
    ensures DecodeChar(EncodeChar(c) + rest) == Some((c, |EncodeChar(c)|))
  {
    var cp := c as int;
    var e := EncodeChar(c);
    var bs := e + rest;
    assert bs[..|e|] == e;
    if cp < 0x80 {
    } else if cp < 0x800 {
      assert bs[0] == e[0] && bs[1] == e[1];
      assert (cp / 0x40) * 0x40 + cp % 0x40 == cp;
    } else if cp < 0x1_0000 {
      assert bs[0] == e[0] && bs[1] == e[1] && bs[2] == e[2];
      Join3(cp);
    } else {
      assert bs[0] == e[0] && bs[1] == e[1] && bs[2] == e[2] && bs[3] == e[3];
      Join4(cp);
    }
  }

  lemma Join3(cp: int)
    requires 0 <= cp < 0x1_0000
    ensures (cp / 0x1000) * 0x1000 + ((cp / 0x40) % 0x40) * 0x40 + cp % 0x40 == cp
  {
    var q := cp / 0x40;
    assert q * 0x40 + cp % 0x40 == cp;
    assert (q / 0x40) * 0x40 + q % 0x40 == q;
    assert q / 0x40 == cp / 0x1000;
  }

  lemma Join4(cp: int)
    requires 0 <= cp < 0x11_0000
    ensures (cp / 0x4_0000) * 0x4_0000 + ((cp / 0x1000) % 0x40) * 0x1000 + ((cp / 0x40) % 0x40) * 0x40
      + cp % 0x40 == cp
  {
    var q := cp / 0x40;
    assert q * 0x40 + cp % 0x40 == cp;
    var q2 := q / 0x40;
    assert q2 * 0x40 + q % 0x40 == q;
    assert q2 == cp / 0x1000;
    assert (q2 / 0x40) * 0x40 + q2 % 0x40 == q2;
    assert q2 / 0x40 == cp / 0x4_0000;
  }

  /** A valid sequence is the encoding of the character it decodes to: there is one way only to write a
      character in UTF-8. */
  lemma EncodeOfDecodeChar(bs: seq<Byte>)
    requires |bs| > 0 && DecodeChar(bs).Some?
    ensures bs[..DecodeChar(bs).value.1] == EncodeChar(DecodeChar(bs).value.0)
  {
    var b0: int := bs[0];
    if 0xC0 <= b0 < 0xE0 {
      var a, b := b0 - 0xC0, bs[1] as int - 0x80;
      DivOfSum(a, b, 0x40);
      ModOfSum(a, b, 0x40);
    } else if 0xE0 <= b0 < 0xF0 {
      var a, b, c := b0 - 0xE0, bs[1] as int - 0x80, bs[2] as int - 0x80;
      Split3(a, b, c);
    } else if 0xF0 <= b0 < 0xF8 {
      var a, b, c, d := b0 - 0xF0, bs[1] as int - 0x80, bs[2] as int - 0x80, bs[3] as int - 0x80;
      Split4(a, b, c, d);
    }
  }

  lemma Split3(a: int, b: int, c: int)
    requires 0 <= a < 0x10 && 0 <= b < 0x40 && 0 <= c < 0x40
    ensures var cp := a * 0x1000 + b * 0x40 + c;
      cp / 0x1000 == a && (cp / 0x40) % 0x40 == b && cp % 0x40 == c
  {
    var cp := a * 0x1000 + b * 0x40 + c;
    DivOfSum(a * 0x40 + b, c, 0x40);
    ModOfSum(a * 0x40 + b, c, 0x40);
    assert cp == (a * 0x40 + b) * 0x40 + c;
    DivOfSum(a, b, 0x40);
    ModOfSum(a, b, 0x40);
    DivOfSum(a, b * 0x40 + c, 0x1000);
  }

  lemma Split4(a: int, b: int, c: int, d: int)
    requires 0 <= a < 8 && 0 <= b < 0x40 && 0 <= c < 0x40 && 0 <= d < 0x40
    ensures var cp := a * 0x4_0000 + b * 0x1000 + c * 0x40 + d;
      cp / 0x4_0000 == a && (cp / 0x1000) % 0x40 == b && (cp / 0x40) % 0x40 == c && cp % 0x40 == d
  {
    var hi := a * 0x40 + b;
    var cp := a * 0x4_0000 + b * 0x1000 + c * 0x40 + d;
    assert cp == (hi * 0x40 + c) * 0x40 + d;
    DivOfSum(hi * 0x40 + c, d, 0x40);
    ModOfSum(hi * 0x40 + c, d, 0x40);
    ModOfSum(hi, c, 0x40);
    assert cp == hi * 0x1000 + (c * 0x40 + d);
    DivOfSum(hi, c * 0x40 + d, 0x1000);
    ModOfSum(a, b, 0x40);
    assert cp == a * 0x4_0000 + (b * 0x1000 + c * 0x40 + d);
    DivOfSum(a, b * 0x1000 + c * 0x40 + d, 0x4_0000);
  }

  /** Decoding an encoded text gives the text back. */
  lemma {:induction false} DecodeOfEncode(t: string)
    ensures Decode(Encode(t)) == Some(t)
  {
    if |t| > 0 {
      var e, rest := EncodeChar(t[0]), Encode(t[1..]);
      DecodeOfEncodeChar(t[0], rest);
      assert (e + rest)[|e|..] == rest;
      DecodeOfEncode(t[1..]);
      assert [t[0]] + t[1..] == t;
    }
  }

  /** A byte string that decodes is the encoding of its text: valid UTF-8 has one reading only. */
  lemma {:induction false} EncodeOfDecode(bs: seq<Byte>)
    requires Decode(bs).Some?
    ensures Encode(Decode(bs).value) == bs
    decreases |bs|
  {
    if |bs| > 0 {
      var n := DecodeChar(bs).value.1;
      EncodeOfDecodeChar(bs);
      EncodeOfDecode(bs[n..]);
      var t := Decode(bs).value;
      assert t[0] == DecodeChar(bs).value.0 && t[1..] == Decode(bs[n..]).value;
      assert bs == bs[..n] + bs[n..];
    }
  }

  /** `utf8_to_string`: the text of a valid UTF-8 C string, and the empty string for a null pointer or
      invalid UTF-8. */
  function Utf8ToString(s: CString): (r: string)
    requires Terminated(s)
    ensures s.Null? ==> r == ""
    ensures s.At? && Decode(ToBytes(s.mem)).Some? ==> r == Decode(ToBytes(s.mem)).value
    ensures s.At? && Decode(ToBytes(s.mem)).None? ==> r == ""
  {
    match s
    case Null => ""
    case At(mem) =>
      match Decode(ToBytes(mem))
      case Some(t) => t
      case None => ""
  }

  /** A text without U+0000, encoded and terminated, reads back as itself. */
  lemma Utf8RoundTrip(t: string, rest: seq<Byte>)
    requires forall i :: 0 <= i < |t| ==> t[i] as int != 0
    ensures Utf8ToString(At(Encode(t) + [0] + rest)) == t
  {
    ToBytesOfTerminated(Encode(t), rest);
    DecodeOfEncode(t);
  }

  /** A valid text is read exactly when its bytes are the UTF-8 encoding of it. */
  lemma Utf8ReadsEncoding(mem: seq<Byte>, t: string)
    requires 0 in mem && t != ""
    ensures Utf8ToString(At(mem)) == t <==> ToBytes(mem) == Encode(t)
  {
    if Utf8ToString(At(mem)) == t {
      EncodeOfDecode(ToBytes(mem));
    }
    if ToBytes(mem) == Encode(t) {
      DecodeOfEncode(t);
    }
  }

  /** Overlong forms and surrogates are refused, so their text is empty. */
  lemma Utf8Rejects()
    ensures Utf8ToString(At([0xC0, 0x80, 0])) == ""
    ensures Utf8ToString(At([0xED, 0xA0, 0x80, 0])) == ""
    ensures Utf8ToString(At([0xF4, 0x90, 0x80, 0x80, 0])) == ""
  {
    assert ToBytes([0xC0, 0x80, 0]) == [0xC0, 0x80];
    assert ToBytes([0xED, 0xA0, 0x80, 0]) == [0xED, 0xA0, 0x80];
    assert ToBytes([0xF4, 0x90, 0x80, 0x80, 0]) == [0xF4, 0x90, 0x80, 0x80];
  }
}
