/** `encodeURIComponent` as the client applies it to query values: characters
    outside the unreserved set are written as the percent-escaped bytes of
    their UTF-8 encoding, with upper-case hexadecimal digits. */
module Uri {

  /** The characters `encodeURIComponent` leaves alone. */
  predicate IsUnreserved(c: char) {
    ('A' <= c <= 'Z') || ('a' <= c <= 'z') || ('0' <= c <= '9')
    || c == '-' || c == '_' || c == '.' || c == '!' || c == '~'
    || c == '*' || c == '\'' || c == '(' || c == ')'
  }

  function HexDigit(d: int): (c: char)
    requires 0 <= d < 16
    ensures IsUnreserved(c)
  {
    if d < 10 then ('0' as int + d) as char else ('A' as int + d - 10) as char
  }

  /** One byte as `%XX`. */
  function PercentByte(b: int): (s: string)
    requires 0 <= b < 256
    ensures |s| == 3 && s[0] == '%' && IsUnreserved(s[1]) && IsUnreserved(s[2])
  {
    ['%', HexDigit(b / 16), HexDigit(b % 16)]
  }

  /** The UTF-8 encoding of one Unicode scalar value. */
  function Utf8(cp: int): (bytes: seq<int>)
    requires 0 <= cp < 0x11_0000
    ensures 1 <= |bytes| <= 4
    ensures forall k :: 0 <= k < |bytes| ==> 0 <= bytes[k] < 256
    ensures (|bytes| == 1) <==> cp < 0x80
  {
    if cp < 0x80 then [cp]
    else if cp < 0x800 then [0xC0 + cp / 64, 0x80 + cp % 64]
    else if cp < 0x1_0000 then [0xE0 + cp / 4096, 0x80 + (cp / 64) % 64, 0x80 + cp % 64]
    else [0xF0 + cp / 262144, 0x80 + (cp / 4096) % 64, 0x80 + (cp / 64) % 64, 0x80 + cp % 64]
  }

  /** The percent escapes of a byte sequence. */
  function PercentBytes(bytes: seq<int>): (s: string)
    requires forall k :: 0 <= k < |bytes| ==> 0 <= bytes[k] < 256
    ensures |s| == 3 * |bytes|
    ensures forall i :: 0 <= i < |s| ==> IsUnreserved(s[i]) || s[i] == '%'
    decreases |bytes|
  {
    if |bytes| == 0 then "" else PercentByte(bytes[0]) + PercentBytes(bytes[1..])
  }

  /** `encodeURIComponent` on one character. */
  function EncodeChar(c: char): (s: string)
    ensures forall i :: 0 <= i < |s| ==> IsUnreserved(s[i]) || s[i] == '%'
    ensures IsUnreserved(c) ==> s == [c]
    ensures !IsUnreserved(c) ==> |s| >= 3 && s[0] == '%'
  {
    if IsUnreserved(c) then [c] else PercentBytes(Utf8(c as int))
  }

  /** `encodeURIComponent(s)`. */
  function Encode(s: string): (r: string)
    ensures forall i :: 0 <= i < |r| ==> IsUnreserved(r[i]) || r[i] == '%'
    ensures |r| >= |s|
    decreases |s|
  {
    if |s| == 0 then "" else EncodeChar(s[0]) + Encode(s[1..])
  }

  /** Encoding works character by character, so it distributes over concatenation. */
  lemma {:induction false} EncodeAppend(a: string, b: string)
    ensures Encode(a + b) == Encode(a) + Encode(b)
    decreases |a|
  {
    if |a| > 0 {
      assert (a + b)[0] == a[0];
      assert (a + b)[1..] == a[1..] + b;
      EncodeAppend(a[1..], b);
      assert Encode(a + b) == EncodeChar(a[0]) + (Encode(a[1..]) + Encode(b));
    } else {
      assert a + b == b;
    }
  }

  /** A string made of unreserved characters only is passed through unchanged. */
  lemma {:induction false} EncodeUnreserved(s: string)
    requires forall i :: 0 <= i < |s| ==> IsUnreserved(s[i])
    ensures Encode(s) == s
    decreases |s|
  {
    if |s| > 0 {
      EncodeUnreserved(s[1..]);
    }
  }

  /** The characters that separate the parts of a URL never survive encoding, so
      an encoded value cannot break out of its query parameter. */
  lemma EncodeHasNoDelimiters(s: string)
    ensures forall i :: 0 <= i < |Encode(s)| ==>
      Encode(s)[i] !in {'&', '=', '?', '#', '/', ',', ' ', '+', ':'}
  {
  }

  /** A space becomes `%20`. */
  lemma EncodeSpace()
    ensures Encode("a b") == "a%20b"
  {
    assert EncodeChar(' ') == "%20" by {
      assert PercentBytes([32]) == PercentByte(32) + PercentBytes([]);
    }
    assert Encode("b") == "b";
    assert Encode(" b") == "%20b";
  }

  /** A character outside ASCII becomes the escapes of its UTF-8 bytes. */
  lemma EncodeTwoByteChar()
    ensures Encode("\U{E9}") == "%C3%A9"
  {
    assert Utf8(0xE9) == [0xC3, 0xA9];
    assert PercentBytes([0xA9]) == "%A9" by {
      assert PercentBytes([0xA9]) == PercentByte(0xA9) + PercentBytes([]);
    }
    assert PercentBytes([0xC3, 0xA9]) == PercentByte(0xC3) + PercentBytes([0xA9]) by {
      assert [0xC3, 0xA9][1..] == [0xA9];
    }
  }
}
