/** The bytes `str::as_bytes` yields: the UTF-8 encoding of the string
    (RFC 3629, section 3). A character is a Unicode scalar value. */
module Utf8 {

  /** A byte's value. */
  type Octet = n: int | 0 <= n < 256

  /** The encoding of one character: one byte below U+0080, two below
      U+0800, three below U+10000, four otherwise; a lead byte carrying the
      high bits, then continuation bytes `10xxxxxx` of six bits each. */
  function EncodeChar(c: char): (bs: seq<Octet>)
    ensures 1 <= |bs| <= 4
    ensures |bs| == 1 <==> (c as int) < 0x80
    ensures |bs| == 2 <==> 0x80 <= (c as int) < 0x800
    ensures |bs| == 3 <==> 0x800 <= (c as int) < 0x10000
    ensures |bs| == 4 <==> 0x10000 <= (c as int)
    ensures |bs| == 1 ==> bs[0] == c as int
    ensures |bs| > 1 ==> 0xC0 <= bs[0] < 0xF8
    ensures forall i :: 1 <= i < |bs| ==> 0x80 <= bs[i] < 0xC0
  {
    var n := c as int;
    if n < 0x80 then
      [n]
    else if n < 0x800 then
      [0xC0 + n / 0x40, Continuation(n)]
    else if n < 0x10000 then
      [0xE0 + n / 0x1000, Continuation(n / 0x40), Continuation(n)]
    else
      [0xF0 + n / 0x40000, Continuation(n / 0x1000), Continuation(n / 0x40), Continuation(n)]
  }

  /** A continuation byte carrying the low six bits of `n`. */
  function Continuation(n: nat): (b: Octet)
    ensures 0x80 <= b < 0xC0
    ensures b % 0x40 == n % 0x40
  {
    0x80 + n % 0x40
  }

  /** The encoding of a string: its characters' encodings, in order; one
      to four bytes per character. */
  function Encode(s: seq<char>): (bs: seq<Octet>)
    ensures |s| <= |bs| <= 4 * |s|
    ensures s != [] ==> EncodeChar(s[0]) <= bs
    decreases |s|
  {
    if s == [] then [] else EncodeChar(s[0]) + Encode(s[1..])
  }

  /** Encoding is compositional: the bytes of a concatenation are the
      bytes of its parts, so each character's bytes stay contiguous and in
      order. */
  lemma {:induction false} EncodeAppend(a: seq<char>, b: seq<char>)
    ensures Encode(a + b) == Encode(a) + Encode(b)
    decreases |a|
  {
    if a == [] {
      assert a + b == b;
    } else {
      assert (a + b)[0] == a[0];
      assert (a + b)[1..] == a[1..] + b;
      EncodeAppend(a[1..], b);
      var head := EncodeChar(a[0]);
      assert Encode(a + b) == head + (Encode(a[1..]) + Encode(b));
      assert head + (Encode(a[1..]) + Encode(b)) == (head + Encode(a[1..])) + Encode(b);
    }
  }

  /** The value a well-formed encoding of one character carries: the
      payload bits of the lead byte followed by six bits per continuation
      byte. */
  function Scalar(bs: seq<Octet>): int
    requires 1 <= |bs| <= 4
  {
    var lead := bs[0];
    if |bs| == 1 then lead
    else if |bs| == 2 then (lead - 0xC0) * 0x40 + Payload(bs[1])
    else if |bs| == 3 then ((lead - 0xE0) * 0x40 + Payload(bs[1])) * 0x40 + Payload(bs[2])
    else (((lead - 0xF0) * 0x40 + Payload(bs[1])) * 0x40 + Payload(bs[2])) * 0x40 + Payload(bs[3])
  }

  /** The six bits a continuation byte carries. */
  function Payload(b: Octet): int {
    b % 0x40
  }

  /** Decoding an encoded character gives the character back. */
  lemma ScalarEncodeChar(c: char)
    ensures Scalar(EncodeChar(c)) == c as int
  {
    var n := c as int;
    var bs := EncodeChar(c);
    if n >= 0x80 {
      DivMod64(n);
      DivMod64(n / 0x40);
      DivMod64(n / 0x1000);
      if n < 0x800 {
        assert bs[0] - 0xC0 == n / 0x40;
      } else if n < 0x10000 {
        assert bs[0] - 0xE0 == n / 0x1000;
      } else {
        assert bs[0] - 0xF0 == n / 0x40000;
      }
    }
  }

  /** `n` is its quotient by 64 followed by its remainder, and dividing by
      64 twice is dividing by 4096. */
  lemma DivMod64(n: nat)
    ensures n == (n / 0x40) * 0x40 + n % 0x40
    ensures (n / 0x40) / 0x40 == n / 0x1000
    ensures (n / 0x1000) / 0x40 == n / 0x40000
  {
  }

  /** The encoding is at least as long as the string, and as long exactly
      when every character is ASCII, in which case each byte is its
      character's code. */
  lemma {:induction false} EncodeAscii(s: seq<char>)
    ensures |Encode(s)| >= |s|
    ensures |Encode(s)| == |s| <==> forall i :: 0 <= i < |s| ==> (s[i] as int) < 0x80
    ensures (forall i :: 0 <= i < |s| ==> (s[i] as int) < 0x80) ==>
              forall i :: 0 <= i < |s| ==> Encode(s)[i] == s[i] as int
    decreases |s|
  {
    if s != [] {
      EncodeAscii(s[1..]);
      assert forall i :: 1 <= i < |s| ==> s[i] == s[1..][i - 1];
      if (forall i :: 0 <= i < |s| ==> (s[i] as int) < 0x80) {
        assert forall i :: 1 <= i < |s| ==> Encode(s)[i] == Encode(s[1..])[i - 1];
      }
    }
  }
}
