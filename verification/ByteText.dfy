/** Text as bytes, and where its lines end. */
module ByteText {

  newtype Byte = b: int | 0 <= b < 0x100

  type Bytes = seq<Byte>

  const NEWLINE: Byte := 10

  // The first newline, or the length when there is none.
  function LineEnd(data: Bytes): (n: nat)
    ensures n <= |data|
  {
    if data == [] || data[0] == NEWLINE then 0 else 1 + LineEnd(data[1..])
  }

  // No newline inside.
  predicate OneLine(s: Bytes) {
    LineEnd(s) == |s|
  }

  lemma {:induction false} OneLineIff(s: Bytes)
    ensures OneLine(s) <==> NEWLINE !in s
  {
    if s != [] {
      OneLineIff(s[1..]);
      assert s == [s[0]] + s[1..];
    }
  }

  lemma {:induction false} LineEndIsFirst(data: Bytes)
    ensures OneLine(data[..LineEnd(data)])
    ensures LineEnd(data) < |data| ==> data[LineEnd(data)] == NEWLINE
  {
    if data != [] && data[0] != NEWLINE {
      LineEndIsFirst(data[1..]);
      var n := LineEnd(data);
      assert data[..n][1..] == data[1..][..n - 1];
    }
  }

  lemma {:induction false} OneLinePrefix(s: Bytes, k: nat)
    requires OneLine(s) && k <= |s|
    ensures OneLine(s[..k])
  {
    if k > 0 {
      OneLinePrefix(s[1..], k - 1);
      assert s[..k][1..] == s[1..][..k - 1];
    }
  }

  lemma {:induction false} LineEndUnique(line: Bytes, rest: Bytes)
    requires OneLine(line)
    ensures LineEnd(line + [NEWLINE] + rest) == |line|
  {
    var all := line + [NEWLINE] + rest;
    if line != [] {
      assert all[1..] == line[1..] + [NEWLINE] + rest;
      LineEndUnique(line[1..], rest);
    }
  }
}
