/** Well-formed UTF-8 is what encoding a sequence of characters gives. */
module Utf8Encoding {
  import opened ByteText
  import opened Utf8

  // The numbers that characters have.
  predicate Scalar(u: int) {
    0 <= u <= 0x10FFFF && !(0xD800 <= u <= 0xDFFF)
  }

  /** The encoding of one character, by the table of section 3 of RFC 3629. */
  function Encoding(u: int): Bytes
    requires Scalar(u)
  {
    if u < 0x80 then
      [u as Byte]
    else if u < 0x800 then
      [(0xC0 + u / 64) as Byte, (0x80 + u % 64) as Byte]
    else if u < 0x1_0000 then
      [(0xE0 + u / 4096) as Byte, (0x80 + u / 64 % 64) as Byte, (0x80 + u % 64) as Byte]
    else
      [(0xF0 + u / 262144) as Byte, (0x80 + u / 4096 % 64) as Byte, (0x80 + u / 64 % 64) as Byte, (0x80 + u % 64) as Byte]
  }

  // Bytes that make up one character do so whatever follows them.
  lemma CharOfBytes(e: Bytes, rest: Bytes)
    requires 0 < |e| <= 4 && CharLength(e) == |e|
    ensures CharLength(e + rest) == |e|
  {
    var s := e + rest;
    assert s[0] == e[0] && s[..|e|] == e;
    if |e| >= 2 {
      assert s[1] == e[1];
    }
    if |e| >= 3 {
      assert s[2] == e[2];
    }
    if |e| >= 4 {
      assert s[3] == e[3];
    }
  }

  /** An encoding is read back as one character, whatever follows it. */
  lemma EncodingIsChar(u: int, rest: Bytes)
    requires Scalar(u)
    ensures CharLength(Encoding(u) + rest) == |Encoding(u)|
  {
    CharOfBytes(Encoding(u), rest);
  }

  lemma TwoParts(a: int, b: int, u: int)
    requires 2 <= a < 32 && 0 <= b < 64 && u == a * 64 + b
    ensures 0x80 <= u < 0x800 && u / 64 == a && u % 64 == b
  {
  }

  lemma ThreeParts(a: int, b: int, c: int, u: int)
    requires 0 <= a < 16 && 0 <= b < 64 && 0 <= c < 64 && u == a * 4096 + b * 64 + c
    ensures u / 4096 == a && u / 64 % 64 == b && u % 64 == c
  {
    assert u / 64 == a * 64 + b;
  }

  lemma FourParts(a: int, b: int, c: int, d: int, u: int)
    requires 0 <= a < 8 && 0 <= b < 64 && 0 <= c < 64 && 0 <= d < 64 && u == a * 262144 + b * 4096 + c * 64 + d
    ensures u / 262144 == a && u / 4096 % 64 == b && u / 64 % 64 == c && u % 64 == d
  {
    assert u / 64 == a * 4096 + b * 64 + c;
    assert u / 4096 == a * 64 + b;
  }

  /** And every character that is read is one. */
  lemma CharIsEncoding(s: Bytes) returns (u: int)
    requires CharLength(s) > 0
    ensures Scalar(u) && CharLength(s) <= |s| && s[..CharLength(s)] == Encoding(u)
  {
    var n := CharLength(s);
    if n == 1 {
      u := s[0] as int;
    } else if n == 2 {
      u := TwoBytes(s[0] as int, s[1] as int);
    } else if n == 3 {
      u := ThreeBytes(s[0], s[1], s[2]);
    } else {
      u := FourBytes(s[0], s[1], s[2], s[3]);
    }
  }

  lemma TwoBytes(a: int, b: int) returns (u: int)
    requires 0xC2 <= a <= 0xDF && 0x80 <= b <= 0xBF
    ensures Scalar(u) && Encoding(u) == [a as Byte, b as Byte]
  {
    u := (a - 0xC0) * 64 + (b - 0x80);
    TwoParts(a - 0xC0, b - 0x80, u);
  }

  lemma ThreeBytes(a: Byte, b: Byte, c: Byte) returns (u: int)
    requires 0xE0 <= a <= 0xEF && SecondOfThree(a, b) && IsTail(c)
    ensures Scalar(u) && Encoding(u) == [a, b, c]
  {
    u := (a as int - 0xE0) * 4096 + (b as int - 0x80) * 64 + (c as int - 0x80);
    ThreeParts(a as int - 0xE0, b as int - 0x80, c as int - 0x80, u);
    assert 0x800 <= u < 0x1_0000;
  }

  lemma FourBytes(a: Byte, b: Byte, c: Byte, d: Byte) returns (u: int)
    requires 0xF0 <= a <= 0xF4 && SecondOfFour(a, b) && IsTail(c) && IsTail(d)
    ensures Scalar(u) && Encoding(u) == [a, b, c, d]
  {
    u := (a as int - 0xF0) * 262144 + (b as int - 0x80) * 4096 + (c as int - 0x80) * 64 + (d as int - 0x80);
    FourParts(a as int - 0xF0, b as int - 0x80, c as int - 0x80, d as int - 0x80, u);
    assert 0x1_0000 <= u <= 0x10FFFF;
  }

  function EncodingOf(us: seq<int>): Bytes
    requires forall i | 0 <= i < |us| :: Scalar(us[i])
  {
    if us == [] then [] else Encoding(us[0]) + EncodingOf(us[1..])
  }

  /** Text is well formed exactly when it encodes a sequence of characters. */
  lemma ValidTextIff(s: Bytes)
    ensures ValidText(s) <==> exists us: seq<int> :: (forall i | 0 <= i < |us| :: Scalar(us[i])) && EncodingOf(us) == s
  {
    if ValidText(s) {
      var us := Decoded(s);
    }
    if us: seq<int> :| (forall i | 0 <= i < |us| :: Scalar(us[i])) && EncodingOf(us) == s {
      EncodingIsValid(us);
    }
  }

  lemma {:induction false} Decoded(s: Bytes) returns (us: seq<int>)
    requires ValidText(s)
    ensures (forall i | 0 <= i < |us| :: Scalar(us[i])) && EncodingOf(us) == s
    decreases |s|
  {
    if s == [] {
      us := [];
    } else {
      var n := CharLength(s);
      var u := CharIsEncoding(s);
      var rest := Decoded(s[n..]);
      us := [u] + rest;
      assert us[1..] == rest && s == s[..n] + s[n..];
    }
  }

  lemma {:induction false} EncodingIsValid(us: seq<int>)
    requires forall i | 0 <= i < |us| :: Scalar(us[i])
    ensures ValidText(EncodingOf(us))
    decreases |us|
  {
    if us != [] {
      var e, rest := Encoding(us[0]), EncodingOf(us[1..]);
      EncodingIsValid(us[1..]);
      EncodingIsChar(us[0], rest);
      assert (e + rest)[|e|..] == rest;
    }
  }
}
