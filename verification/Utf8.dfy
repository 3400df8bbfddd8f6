/** Well-formed UTF-8, as defined in sections 3 and 4 of RFC 3629. */
module Utf8 {
  import opened ByteText

  // A continuation byte.
  predicate IsTail(b: Byte) {
    0x80 <= b <= 0xBF
  }

  // The second byte of a three-byte character.
  predicate SecondOfThree(a: Byte, b: Byte) {
    if a == 0xE0 then 0xA0 <= b <= 0xBF else if a == 0xED then 0x80 <= b <= 0x9F else IsTail(b)
  }

  // The second byte of a four-byte character.
  predicate SecondOfFour(a: Byte, b: Byte) {
    if a == 0xF0 then 0x90 <= b <= 0xBF else if a == 0xF4 then 0x80 <= b <= 0x8F else IsTail(b)
  }

  /** The length of the character that s starts with; 0 when it starts with none. */
  function CharLength(s: Bytes): nat {
    if s == [] then 0
    else if s[0] <= 0x7F then 1
    else if 0xC2 <= s[0] <= 0xDF then (if |s| >= 2 && IsTail(s[1]) then 2 else 0)
    else if 0xE0 <= s[0] <= 0xEF then (if |s| >= 3 && SecondOfThree(s[0], s[1]) && IsTail(s[2]) then 3 else 0)
    else if 0xF0 <= s[0] <= 0xF4 then
      (if |s| >= 4 && SecondOfFour(s[0], s[1]) && IsTail(s[2]) && IsTail(s[3]) then 4 else 0)
    else 0
  }

  predicate ValidText(s: Bytes)
    decreases |s|
  {
    s == [] || (0 < CharLength(s) <= |s| && ValidText(s[CharLength(s)..]))
  }

  // A position where a character starts, or the end.
  predicate Boundary(s: Bytes, p: nat)
    requires p <= |s|
  {
    p == |s| || !IsTail(s[p])
  }

  lemma CharShape(s: Bytes)
    requires CharLength(s) > 0
    ensures CharLength(s) <= 4 && CharLength(s) <= |s|
    ensures !IsTail(s[0])
    ensures forall i | 0 < i < CharLength(s) :: IsTail(s[i])
  {
  }

  // The first bytes of a character are no character.
  lemma CutChar(s: Bytes, p: nat)
    requires 0 < p < CharLength(s)
    ensures CharLength(s[..p]) == 0
  {
    CharShape(s);
  }

  // More bytes behind a character do not change it.
  lemma SameChar(s: Bytes, p: nat)
    requires 0 < CharLength(s) <= p <= |s|
    ensures CharLength(s[..p]) == CharLength(s)
  {
    var t := s[..p];
    assert t[0] == s[0];
  }

  /** In well-formed text, the text before a position is well formed exactly when
      the position is a boundary; then so is the text after it. */
  lemma {:induction false} PrefixValidIff(s: Bytes, p: nat)
    requires ValidText(s) && p <= |s|
    ensures ValidText(s[..p]) <==> Boundary(s, p)
    ensures ValidText(s[p..]) <==> Boundary(s, p)
    decreases |s|
  {
    if s == [] {
    } else {
      var n := CharLength(s);
      CharShape(s);
      if p == 0 {
        assert s[0..] == s;
      } else if p < n {
        CutChar(s, p);
        TailStartsNothing(s[p..]);
      } else {
        PrefixValidIff(s[n..], p - n);
        SameChar(s, p);
        Slices(s, n, p);
      }
    }
  }

  lemma Slices(s: Bytes, n: nat, p: nat)
    requires n <= p <= |s|
    ensures s[..p][n..] == s[n..][..p - n]
    ensures s[p..] == s[n..][p - n..]
  {
  }

  lemma TailStartsNothing(s: Bytes)
    requires s != [] && IsTail(s[0])
    ensures !ValidText(s)
  {
  }

  /** Within three bytes before any position there is a boundary. */
  lemma {:induction false} BoundaryBefore(s: Bytes, p: nat) returns (q: nat)
    requires ValidText(s) && p <= |s|
    ensures q <= p <= q + 3 && Boundary(s, q)
    decreases |s|
  {
    if s == [] {
      q := 0;
    } else {
      var n := CharLength(s);
      CharShape(s);
      if p < n {
        q := 0;
      } else {
        q := BoundaryBefore(s[n..], p - n);
        q := q + n;
        assert q < |s| ==> s[q] == s[n..][q - n];
      }
    }
  }

  /** Within three bytes after any position there is a boundary. */
  lemma {:induction false} BoundaryAfter(s: Bytes, p: nat) returns (q: nat)
    requires ValidText(s) && p <= |s|
    ensures p <= q <= p + 3 && q <= |s| && Boundary(s, q)
    decreases |s|
  {
    if s == [] || p == 0 {
      if s != [] {
        CharShape(s);
      }
      q := 0;
    } else {
      var n := CharLength(s);
      CharShape(s);
      if p < n {
        q := n;
        if n < |s| {
          CharShape(s[n..]);
          assert s[n] == s[n..][0];
        }
      } else {
        q := BoundaryAfter(s[n..], p - n);
        q := q + n;
        assert q < |s| ==> s[q] == s[n..][q - n];
      }
    }
  }
}
