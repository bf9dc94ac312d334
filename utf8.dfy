/** Bytes and the UTF-8 code that `fs::write(path, &str)` and `fs::read_to_string` apply
    between a Rust `String` and the bytes of a file. */
module Utf8 {

  /** An octet, as Rust's `u8`. */
  newtype Byte = x: int | 0 <= x < 256

  type Bytes = seq<Byte>

  import opened Wrappers

  /** A continuation byte 10xxxxxx. */
  predicate IsContinuation(b: Byte) {
    0x80 <= b < 0xC0
  }

  /** The UTF-8 encoding of one Unicode scalar value (RFC 3629, section 3). */
  function EncodeChar(c: char): (b: Bytes)
    ensures 1 <= |b| <= 4
    ensures (c as int < 0x80) == (|b| == 1)
    ensures |b| > 1 ==> forall i :: 1 <= i < |b| ==> IsContinuation(b[i])
  {
    var n := c as int;
    if n < 0x80 then [n as Byte]
    else if n < 0x800 then [(0xC0 + n / 64) as Byte, (0x80 + n % 64) as Byte]
    else if n < 0x10000 then
      [(0xE0 + n / 4096) as Byte, (0x80 + n / 64 % 64) as Byte, (0x80 + n % 64) as Byte]
    else
      [(0xF0 + n / 262144) as Byte, (0x80 + n / 4096 % 64) as Byte,
       (0x80 + n / 64 % 64) as Byte, (0x80 + n % 64) as Byte]
  }

  /** The bytes a Rust `&str` is made of: the encodings of its characters, one after another. */
  function Encode(s: string): Bytes {
    Flatten(seq(|s|, i requires 0 <= i < |s| => EncodeChar(s[i])))
  }

  function Flatten(parts: seq<Bytes>): Bytes {
    if parts == [] then [] else parts[0] + Flatten(parts[1..])
  }

  /** Encoding one character at a time, from the front. */
  lemma EncodeUnfold(s: string)
    ensures s == [] ==> Encode(s) == []
    ensures s != [] ==> Encode(s) == EncodeChar(s[0]) + Encode(s[1..])
  {
    if s != [] {
      var parts := seq(|s|, i requires 0 <= i < |s| => EncodeChar(s[i]));
      assert parts[1..] == seq(|s| - 1, i requires 0 <= i < |s| - 1 => EncodeChar(s[1..][i]));
    }
  }

  /** The first scalar value of `b` and the number of bytes it takes, or None when `b` does not
      start with a well-formed UTF-8 sequence (overlong forms, surrogates and values above
      U+10FFFF are rejected, as Rust's validator does). */
  function DecodeFirst(b: Bytes): (r: Option<(char, nat)>)
    requires |b| > 0
    ensures r.Some? ==> 1 <= r.value.1 <= |b| && r.value.1 <= 4
  {
    var b0 := b[0] as int;
    if b0 < 0x80 then Some((b0 as char, 1))
    else if 0xC2 <= b0 < 0xE0 && |b| >= 2 && IsContinuation(b[1]) then
      var n := (b0 - 0xC0) * 64 + (b[1] as int - 0x80);
      Some((n as char, 2))
    else if 0xE0 <= b0 < 0xF0 && |b| >= 3 && IsContinuation(b[1]) && IsContinuation(b[2]) then
      var n := (b0 - 0xE0) * 4096 + (b[1] as int - 0x80) * 64 + (b[2] as int - 0x80);
      if 0x800 <= n && !(0xD800 <= n < 0xE000) then Some((n as char, 3)) else None
    else if 0xF0 <= b0 < 0xF5 && |b| >= 4
            && IsContinuation(b[1]) && IsContinuation(b[2]) && IsContinuation(b[3]) then
      var n := (b0 - 0xF0) * 262144 + (b[1] as int - 0x80) * 4096
               + (b[2] as int - 0x80) * 64 + (b[3] as int - 0x80);
      if 0x10000 <= n < 0x110000 then Some((n as char, 4)) else None
    else None
  }

  /** `String::from_utf8`: the text the bytes encode, or None when they are not valid UTF-8. */
  function Decode(b: Bytes): (r: Option<string>)
    decreases |b|
  {
    if b == [] then Some([])
    else match DecodeFirst(b)
      case None => None
      case Some((c, k)) =>
        match Decode(b[k..])
        case None => None
        case Some(rest) => Some([c] + rest)
  }

  /** Decoding reads back exactly the character that was encoded, whatever follows it. */
  lemma DecodeFirstEncodeChar(c: char, rest: Bytes)
    ensures DecodeFirst(EncodeChar(c) + rest) == Some((c, |EncodeChar(c)|))
  {
    var n := c as int;
    if n < 0x80 {
    } else if n < 0x800 {
      DecodeTwo(c, rest);
    } else if n < 0x10000 {
      DecodeThree(c, rest);
    } else {
      DecodeFour(c, rest);
    }
  }

  lemma DecodeTwo(c: char, rest: Bytes)
    requires 0x80 <= c as int < 0x800
    ensures DecodeFirst(EncodeChar(c) + rest) == Some((c, 2))
  {
    var n := c as int;
    var q, r := n / 64, n % 64;
    assert n == q * 64 + r;
    var b := EncodeChar(c) + rest;
    assert b[0] as int == 0xC0 + q && b[1] as int == 0x80 + r;
  }

  lemma DecodeThree(c: char, rest: Bytes)
    requires 0x800 <= c as int < 0x10000
    ensures DecodeFirst(EncodeChar(c) + rest) == Some((c, 3))
  {
    var n := c as int;
    var q, r := n / 64, n % 64;
    var q1, r1 := q / 64, q % 64;
    assert n == q * 64 + r && q == q1 * 64 + r1;
    assert n / 4096 == q1 && n / 64 % 64 == r1;
    var b := EncodeChar(c) + rest;
    assert b[0] as int == 0xE0 + q1 && b[1] as int == 0x80 + r1 && b[2] as int == 0x80 + r;
  }

  lemma DecodeFour(c: char, rest: Bytes)
    requires 0x10000 <= c as int
    ensures DecodeFirst(EncodeChar(c) + rest) == Some((c, 4))
  {
    var n := c as int;
    var q, r := n / 64, n % 64;
    var q1, r1 := q / 64, q % 64;
    var q2, r2 := q1 / 64, q1 % 64;
    assert n == q * 64 + r && q == q1 * 64 + r1 && q1 == q2 * 64 + r2;
    assert n / 262144 == q2 && n / 4096 % 64 == r2 && n / 64 % 64 == r1;
    var b := EncodeChar(c) + rest;
    assert b[0] as int == 0xF0 + q2 && b[1] as int == 0x80 + r2;
    assert b[2] as int == 0x80 + r1 && b[3] as int == 0x80 + r;
  }

  /** Round trip: the bytes that `fs::write` stores for a string read back, through
      `read_to_string`, as that same string. */
  lemma {:induction false} DecodeEncode(s: string)
    ensures Decode(Encode(s)) == Some(s)
  {
    if s != [] {
      var head := EncodeChar(s[0]);
      var tail := Encode(s[1..]);
      EncodeUnfold(s);
      DecodeFirstEncodeChar(s[0], tail);
      assert (head + tail)[|head|..] == tail;
      DecodeEncode(s[1..]);
      assert [s[0]] + s[1..] == s;
    }
  }

  /** Text is written as its encoding: a string of ASCII characters takes one byte each. */
  lemma {:induction false} EncodeAscii(s: string)
    requires forall i :: 0 <= i < |s| ==> s[i] as int < 0x80
    ensures |Encode(s)| == |s|
    ensures forall i :: 0 <= i < |s| ==> Encode(s)[i] as int == s[i] as int
  {
    EncodeUnfold(s);
    if s != [] {
      EncodeAscii(s[1..]);
    }
  }

  /** Encoding distributes over concatenation, so text built piece by piece is written as the
      pieces' bytes in order. */
  lemma EncodeAppend(s: string, t: string)
    ensures Encode(s + t) == Encode(s) + Encode(t)
  {
    var ps := seq(|s|, i requires 0 <= i < |s| => EncodeChar(s[i]));
    var pt := seq(|t|, i requires 0 <= i < |t| => EncodeChar(t[i]));
    assert seq(|s + t|, i requires 0 <= i < |s + t| => EncodeChar((s + t)[i])) == ps + pt;
    FlattenAppend(ps, pt);
  }

  lemma {:induction false} FlattenAppend(p: seq<Bytes>, q: seq<Bytes>)
    ensures Flatten(p + q) == Flatten(p) + Flatten(q)
  {
    if p == [] {
      assert p + q == q;
    } else {
      assert (p + q)[1..] == p[1..] + q;
      FlattenAppend(p[1..], q);
    }
  }

  /** A well-formed sequence that decoding reads as one character is that character's encoding. */
  lemma EncodeCharDecodeFirst(b: Bytes)
    requires |b| > 0 && DecodeFirst(b).Some?
    ensures EncodeChar(DecodeFirst(b).value.0) == b[..DecodeFirst(b).value.1]
  {
    var b0 := b[0] as int;
    if 0xC2 <= b0 < 0xE0 {
      EncodeTwo(b);
    } else if 0xE0 <= b0 < 0xF0 {
      EncodeThree(b);
    } else if 0xF0 <= b0 {
      EncodeFour(b);
    }
  }

  lemma EncodeTwo(b: Bytes)
    requires |b| >= 2 && 0xC2 <= b[0] < 0xE0 && IsContinuation(b[1])
    ensures DecodeFirst(b).Some? && EncodeChar(DecodeFirst(b).value.0) == b[..2]
  {
    var hi, lo := b[0] as int - 0xC0, b[1] as int - 0x80;
    var n := hi * 64 + lo;
    assert n / 64 == hi && n % 64 == lo;
    assert DecodeFirst(b) == Some((n as char, 2));
  }

  lemma EncodeThree(b: Bytes)
    requires |b| >= 3 && 0xE0 <= b[0] < 0xF0 && IsContinuation(b[1]) && IsContinuation(b[2])
    requires DecodeFirst(b).Some?
    ensures EncodeChar(DecodeFirst(b).value.0) == b[..3]
  {
    var hi, mid, lo := b[0] as int - 0xE0, b[1] as int - 0x80, b[2] as int - 0x80;
    var n := hi * 4096 + mid * 64 + lo;
    assert n / 64 == hi * 64 + mid && n % 64 == lo;
    assert n / 4096 == hi && n / 64 % 64 == mid;
    assert DecodeFirst(b) == Some((n as char, 3));
  }

  lemma EncodeFour(b: Bytes)
    requires |b| >= 4 && 0xF0 <= b[0] < 0xF5
    requires IsContinuation(b[1]) && IsContinuation(b[2]) && IsContinuation(b[3])
    requires DecodeFirst(b).Some?
    ensures EncodeChar(DecodeFirst(b).value.0) == b[..4]
  {
    var hi, m1, m2, lo := b[0] as int - 0xF0, b[1] as int - 0x80, b[2] as int - 0x80, b[3] as int - 0x80;
    var n := hi * 262144 + m1 * 4096 + m2 * 64 + lo;
    assert n / 64 == hi * 4096 + m1 * 64 + m2 && n % 64 == lo;
    assert n / 4096 == hi * 64 + m1 && n / 64 % 64 == m2;
    assert n / 262144 == hi && n / 4096 % 64 == m1;
    assert DecodeFirst(b) == Some((n as char, 4));
  }

  /** Round trip in the other direction: bytes that `read_to_string` accepts are written back
      unchanged when the string read from them is written. */
  lemma {:induction false} EncodeDecode(b: Bytes)
    requires Decode(b).Some?
    ensures Encode(Decode(b).value) == b
    decreases |b|
  {
    if b == [] {
      EncodeUnfold([]);
    } else {
      var c, k := DecodeFirst(b).value.0, DecodeFirst(b).value.1;
      var rest := Decode(b[k..]).value;
      EncodeCharDecodeFirst(b);
      EncodeDecode(b[k..]);
      var s := [c] + rest;
      assert s[0] == c && s[1..] == rest;
      EncodeUnfold(s);
      assert b == b[..k] + b[k..];
    }
  }
}
