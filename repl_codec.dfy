/** The wire format of the REPL bridge: a frame is a one-byte instruction
    tag, the payload's byte length as a two-byte big-endian number, and
    the payload itself, which is the UTF-8 encoding of a string. */
module ReplCodec {
  import opened Prelude

  /** The instruction tags (the `INST` class). */
  const UNKNOWN: byte := 0
  const PRINT: byte := 1
  const LOAD: byte := 2
  const EXCEPTION: byte := 3
  const INITIALIZE: byte := 4
  const EXIT: byte := 5

  /** The largest length two big-endian bytes can hold. */
  const MAX_PAYLOAD: int := 65535

  /** A byte that continues a multi-byte UTF-8 sequence. */
  predicate IsContinuation(b: byte) {
    0x80 <= b < 0xC0
  }

  /** The UTF-8 encoding of one Unicode scalar value (RFC 3629, section 3):
      the value's bits are cut into 6-bit groups from the low end. */
  function Utf8Char(c: char): (r: seq<byte>)
    ensures 1 <= |r| <= 4
    ensures |r| == 1 <==> c as int < 0x80
    ensures forall k :: 1 <= k < |r| ==> IsContinuation(r[k])
  {
    var cp := c as int;
    var q1 := cp / 64;
    var q2 := q1 / 64;
    var q3 := q2 / 64;
    if cp < 0x80 then
      [cp as byte]
    else if cp < 0x800 then
      [(0xC0 + q1) as byte, (0x80 + cp % 64) as byte]
    else if cp < 0x1_0000 then
      [(0xE0 + q2) as byte, (0x80 + q1 % 64) as byte, (0x80 + cp % 64) as byte]
    else
      [(0xF0 + q3) as byte, (0x80 + q2 % 64) as byte, (0x80 + q1 % 64) as byte, (0x80 + cp % 64) as byte]
  }

  /** The UTF-8 encoding of a string, as Python's `str.encode()` gives it. */
  function Utf8(s: string): (r: seq<byte>)
    ensures |s| <= |r| <= 4 * |s|
  {
    if s == [] then [] else Utf8Char(s[0]) + Utf8(s[1..])
  }

  /** Decodes the scalar value at the head of `bs`, with the number of bytes
      it occupies; `None` for a malformed, overlong or surrogate sequence. */
  function DecodeChar(bs: seq<byte>): (r: Option<(char, nat)>)
    requires |bs| > 0
    ensures r.Some? ==> 1 <= r.value.1 <= |bs|
  {
    var b0 := bs[0] as int;
    if b0 < 0x80 then
      Some((b0 as char, 1))
    else if 0xC2 <= b0 < 0xE0 && |bs| >= 2 && IsContinuation(bs[1]) then
      Some((((b0 - 0xC0) * 64 + (bs[1] as int - 0x80)) as char, 2))
    else if 0xE0 <= b0 < 0xF0 && |bs| >= 3 && IsContinuation(bs[1]) && IsContinuation(bs[2]) then
      var cp := (b0 - 0xE0) * 4096 + (bs[1] as int - 0x80) * 64 + (bs[2] as int - 0x80);
      if cp < 0x800 || 0xD800 <= cp < 0xE000 then None else Some((cp as char, 3))
    else if 0xF0 <= b0 < 0xF5 && |bs| >= 4
      && IsContinuation(bs[1]) && IsContinuation(bs[2]) && IsContinuation(bs[3]) then
      var cp := (b0 - 0xF0) * 262144 + (bs[1] as int - 0x80) * 4096
        + (bs[2] as int - 0x80) * 64 + (bs[3] as int - 0x80);
      if cp < 0x1_0000 || cp >= 0x11_0000 then None else Some((cp as char, 4))
    else
      None
  }

  /** Decodes a whole byte sequence as UTF-8; `None` if it is malformed. */
  function Utf8Decode(bs: seq<byte>): Option<string>
    decreases |bs|
  {
    if bs == [] then Some([])
    else
      match DecodeChar(bs)
      case None => None
      case Some((c, n)) =>
        match Utf8Decode(bs[n..])
        case None => None
        case Some(s) => Some([c] + s)
  }

  /** Cutting off the low 6 bits and putting them back is the identity. */
  lemma Split64(n: int)
    requires 0 <= n
    ensures n == n / 64 * 64 + n % 64 && 0 <= n % 64 < 64
  {
  }

  /** Gluing 6 low bits onto a number and cutting them off again is the
      identity. */
  lemma Join64(hi: int, lo: int)
    requires 0 <= hi && 0 <= lo < 64
    ensures (hi * 64 + lo) / 64 == hi && (hi * 64 + lo) % 64 == lo
  {
  }

  /** Decoding the encoding of a scalar value, whatever follows it, gives
      back that value and its encoded length. */
  lemma DecodeCharUtf8Char(c: char, rest: seq<byte>)
    ensures DecodeChar(Utf8Char(c) + rest) == Some((c, |Utf8Char(c)|))
  {
    var cp := c as int;
    Split64(cp);
    Split64(cp / 64);
    Split64(cp / 64 / 64);
    if cp < 0x80 {
    } else if cp < 0x800 {
      DecodeChar2(c, rest);
    } else if cp < 0x1_0000 {
      DecodeChar3(c, rest);
    } else {
      DecodeChar4(c, rest);
    }
  }

  lemma DecodeChar2(c: char, rest: seq<byte>)
    requires 0x80 <= c as int < 0x800
    ensures DecodeChar(Utf8Char(c) + rest) == Some((c, 2))
  {
    var cp := c as int;
    Split64(cp);
    var bs := Utf8Char(c) + rest;
    assert bs[0] as int - 0xC0 == cp / 64 && bs[1] as int - 0x80 == cp % 64;
  }

  lemma DecodeChar3(c: char, rest: seq<byte>)
    requires 0x800 <= c as int < 0x1_0000
    ensures DecodeChar(Utf8Char(c) + rest) == Some((c, 3))
  {
    var cp := c as int;
    Split64(cp);
    Split64(cp / 64);
    var bs := Utf8Char(c) + rest;
    assert bs[0] as int - 0xE0 == cp / 64 / 64;
    assert bs[1] as int - 0x80 == cp / 64 % 64 && bs[2] as int - 0x80 == cp % 64;
  }

  lemma DecodeChar4(c: char, rest: seq<byte>)
    requires 0x1_0000 <= c as int
    ensures DecodeChar(Utf8Char(c) + rest) == Some((c, 4))
  {
    var cp := c as int;
    Split64(cp);
    Split64(cp / 64);
    Split64(cp / 64 / 64);
    var bs := Utf8Char(c) + rest;
    assert bs[0] as int - 0xF0 == cp / 64 / 64 / 64;
    assert bs[1] as int - 0x80 == cp / 64 / 64 % 64;
    assert bs[2] as int - 0x80 == cp / 64 % 64 && bs[3] as int - 0x80 == cp % 64;
  }

  /** UTF-8 decoding inverts the encoding, so the encoding is injective. */
  lemma {:induction false} Utf8RoundTrip(s: string)
    ensures Utf8Decode(Utf8(s)) == Some(s)
  {
    if s != [] {
      var bs := Utf8(s);
      DecodeCharUtf8Char(s[0], Utf8(s[1..]));
      assert bs[|Utf8Char(s[0])|..] == Utf8(s[1..]);
      Utf8RoundTrip(s[1..]);
      assert [s[0]] + s[1..] == s;
    }
  }

  /** Why `encode` raises: the tag does not fit in one unsigned byte, or the
      payload length does not fit in two. Both are Python's `OverflowError`. */
  datatype EncodeError = TagOverflow | LengthOverflow

  /** A length as two big-endian bytes. */
  function BigEndian16(n: int): (r: seq<byte>)
    requires 0 <= n <= MAX_PAYLOAD
    ensures |r| == 2 && r[0] as int * 256 + r[1] as int == n
  {
    [(n / 256) as byte, (n % 256) as byte]
  }

  /** `encode(instr, data)`: the frame for a tag and a payload string. The
      tag is converted first, so an out-of-range tag is reported even when
      the payload is too long as well. */
  function EncodeFrame(instr: int, data: string): (r: Result<seq<byte>, EncodeError>)
    ensures r.Success? <==> 0 <= instr < 256 && |Utf8(data)| <= MAX_PAYLOAD
    ensures !(0 <= instr < 256) ==> r == Failure(TagOverflow)
    ensures 0 <= instr < 256 && |Utf8(data)| > MAX_PAYLOAD ==> r == Failure(LengthOverflow)
    ensures r.Success? ==> |r.value| == 3 + |Utf8(data)| && r.value[0] as int == instr
  {
    var payload := Utf8(data);
    if !(0 <= instr < 256) then Failure(TagOverflow)
    else if |payload| > MAX_PAYLOAD then Failure(LengthOverflow)
    else Success([instr as byte] + BigEndian16(|payload|) + payload)
  }

  /** The default empty payload gives the three-byte frame `[instr, 0, 0]`. */
  lemma EmptyFrame(instr: byte)
    ensures EncodeFrame(instr as int, "") == Success([instr, 0, 0])
  {
    assert Utf8("") == [];
    assert BigEndian16(0) == [0, 0];
    assert [instr] + [0, 0] + [] == [instr, 0, 0];
  }

  /** A frame read back from the head of a byte stream. */
  datatype Parsed = Parsed(tag: byte, payload: seq<byte>, rest: seq<byte>)

  /** Splits the first frame off a byte stream, as the receiving side does;
      `None` when fewer bytes are present than the header announces. */
  function ParseFrame(bs: seq<byte>): Option<Parsed> {
    if |bs| < 3 then None
    else
      var len := bs[1] as int * 256 + bs[2] as int;
      if |bs| - 3 < len then None
      else Some(Parsed(bs[0], bs[3..3 + len], bs[3 + len..]))
  }

  /** Parsing an encoded frame, whatever follows it, gives back the tag, the
      UTF-8 payload and exactly the bytes that follow. */
  lemma ParseEncodeFrame(instr: int, data: string, rest: seq<byte>)
    requires EncodeFrame(instr, data).Success?
    ensures ParseFrame(EncodeFrame(instr, data).value + rest)
         == Some(Parsed(instr as byte, Utf8(data), rest))
    ensures Utf8Decode(ParseFrame(EncodeFrame(instr, data).value + rest).value.payload) == Some(data)
  {
    var payload := Utf8(data);
    var bs := EncodeFrame(instr, data).value + rest;
    assert bs == [instr as byte] + BigEndian16(|payload|) + payload + rest;
    assert bs[3..3 + |payload|] == payload;
    assert bs[3 + |payload|..] == rest;
    Utf8RoundTrip(data);
  }

  /** Conversely, a frame that parses and whose payload is valid UTF-8 is
      exactly what `encode` produces for its tag and decoded payload. */
  lemma EncodeParsedFrame(bs: seq<byte>)
    requires ParseFrame(bs).Some?
    requires Utf8Decode(ParseFrame(bs).value.payload).Some?
    ensures var p := ParseFrame(bs).value;
            EncodeFrame(p.tag as int, Utf8Decode(p.payload).value) == Success(bs[..|bs| - |p.rest|])
  {
    var p := ParseFrame(bs).value;
    var len := |p.payload|;
    Utf8DecodeEncode(p.payload);
    Join256(bs[1] as int, bs[2] as int);
    assert BigEndian16(len) == [bs[1], bs[2]];
    assert bs[..3 + len] == [bs[0]] + [bs[1], bs[2]] + p.payload;
  }

  /** A big-endian pair of bytes gives back its high and low byte. */
  lemma Join256(hi: int, lo: int)
    requires 0 <= hi < 256 && 0 <= lo < 256
    ensures (hi * 256 + lo) / 256 == hi && (hi * 256 + lo) % 256 == lo
  {
  }

  /** Decoding then re-encoding valid UTF-8 gives back the same bytes. */
  lemma {:induction false} Utf8DecodeEncode(bs: seq<byte>)
    requires Utf8Decode(bs).Some?
    ensures Utf8(Utf8Decode(bs).value) == bs
    decreases |bs|
  {
    if bs != [] {
      var (c, n) := DecodeChar(bs).value;
      var tail := Utf8Decode(bs[n..]).value;
      Utf8DecodeEncode(bs[n..]);
      EncodeDecodedChar(bs);
      assert Utf8Decode(bs).value == [c] + tail;
      assert ([c] + tail)[1..] == tail;
      assert bs == bs[..n] + bs[n..];
    }
  }

  /** Re-encoding a decoded scalar value gives back the bytes it came from. */
  lemma EncodeDecodedChar(bs: seq<byte>)
    requires |bs| > 0 && DecodeChar(bs).Some?
    ensures Utf8Char(DecodeChar(bs).value.0) == bs[..DecodeChar(bs).value.1]
  {
    var b0 := bs[0] as int;
    if b0 < 0x80 {
    } else if b0 < 0xE0 {
      Join64(b0 - 0xC0, bs[1] as int - 0x80);
    } else if b0 < 0xF0 {
      var hi := (b0 - 0xE0) * 64 + (bs[1] as int - 0x80);
      Join64(hi, bs[2] as int - 0x80);
      Join64(b0 - 0xE0, bs[1] as int - 0x80);
    } else {
      var hi := (b0 - 0xF0) * 64 + (bs[1] as int - 0x80);
      var mid := hi * 64 + (bs[2] as int - 0x80);
      Join64(mid, bs[3] as int - 0x80);
      Join64(hi, bs[2] as int - 0x80);
      Join64(b0 - 0xF0, bs[1] as int - 0x80);
    }
  }
}
