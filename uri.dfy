/** `encodeURIComponent`, as the category query string uses it, with the percent-decoding that inverts it. */
module Uri {
  import opened Wrappers

  type Byte = b: int | 0 <= b < 256

  /** Characters `encodeURIComponent` copies unchanged. */
  predicate IsUnreserved(c: char) {
    || ('A' <= c <= 'Z') || ('a' <= c <= 'z') || ('0' <= c <= '9')
    || c == '-' || c == '_' || c == '.' || c == '!' || c == '~' || c == '*' || c == '\'' || c == '(' || c == ')'
  }

  /** Hex digits as `encodeURIComponent` writes them (upper case). */
  predicate IsHexDigit(c: char) {
    ('0' <= c <= '9') || ('A' <= c <= 'F')
  }

  function HexChar(d: nat): (c: char)
    requires d < 16
    ensures IsHexDigit(c)
  {
    if d < 10 then ('0' as int + d) as char else ('A' as int + d - 10) as char
  }

  function HexValue(c: char): (d: nat)
    requires IsHexDigit(c)
    ensures d < 16
  {
    if c <= '9' then c as int - '0' as int else c as int - 'A' as int + 10
  }

  /** The UTF-8 bytes of one Unicode scalar value. */
  function Utf8(c: char): (bytes: seq<Byte>)
    ensures 1 <= |bytes| <= 4
    ensures IsUnreserved(c) ==> bytes == [c as int]
  {
    var n := c as int;
    if n < 0x80 then [n]
    else if n < 0x800 then [0xC0 + n / 64, 0x80 + n % 64]
    else if n < 0x10000 then [0xE0 + n / 4096, 0x80 + (n / 64) % 64, 0x80 + n % 64]
    else [0xF0 + n / 262144, 0x80 + (n / 4096) % 64, 0x80 + (n / 64) % 64, 0x80 + n % 64]
  }

  /** The UTF-8 bytes of a string. */
  function Utf8String(s: string): seq<Byte> {
    if s == [] then [] else Utf8(s[0]) + Utf8String(s[1..])
  }

  /** `%XX` for every byte. */
  function PercentBytes(bytes: seq<Byte>): string {
    if bytes == [] then ""
    else ['%', HexChar(bytes[0] / 16), HexChar(bytes[0] % 16)] + PercentBytes(bytes[1..])
  }

  function EncodeChar(c: char): string {
    if IsUnreserved(c) then [c] else PercentBytes(Utf8(c))
  }

  /** `encodeURIComponent(s)`. */
  function Encode(s: string): string {
    if s == [] then "" else EncodeChar(s[0]) + Encode(s[1..])
  }

  /** Percent-decoding to bytes: `%XX` is one byte, any other character its UTF-8 bytes; a stray `%` fails. */
  function Decode(e: string): Option<seq<Byte>>
    decreases |e|
  {
    if e == [] then Some([])
    else if e[0] == '%' then
      if |e| >= 3 && IsHexDigit(e[1]) && IsHexDigit(e[2]) then
        Prepend([HexValue(e[1]) * 16 + HexValue(e[2])], Decode(e[3..]))
      else None
    else Prepend(Utf8(e[0]), Decode(e[1..]))
  }

  function Prepend(bytes: seq<Byte>, rest: Option<seq<Byte>>): Option<seq<Byte>> {
    match rest
    case Some(r) => Some(bytes + r)
    case None => None
  }

  /** An encoded component holds only unreserved characters and `%`: no `&`, `=`, `?`, `#` or space
      that would change how the query string splits. */
  lemma {:induction false} EncodedIsQuerySafe(s: string)
    ensures forall i :: 0 <= i < |Encode(s)| ==> IsUnreserved(Encode(s)[i]) || Encode(s)[i] == '%'
  {
    if s != [] {
      PercentBytesSafe(Utf8(s[0]));
      EncodedIsQuerySafe(s[1..]);
    }
  }

  lemma {:induction false} PercentBytesSafe(bytes: seq<Byte>)
    ensures forall i :: 0 <= i < |PercentBytes(bytes)| ==> IsUnreserved(PercentBytes(bytes)[i]) || PercentBytes(bytes)[i] == '%'
  {
    if bytes != [] {
      PercentBytesSafe(bytes[1..]);
    }
  }

  /** The query-string delimiters never occur in an encoded component. */
  lemma NoDelimiters(s: string)
    ensures '&' !in Encode(s) && '=' !in Encode(s) && '?' !in Encode(s) && '#' !in Encode(s)
  {
    EncodedIsQuerySafe(s);
  }

  /** A string made of unreserved characters is encoded as itself. */
  lemma {:induction false} EncodeUnreserved(s: string)
    requires forall i :: 0 <= i < |s| ==> IsUnreserved(s[i])
    ensures Encode(s) == s
  {
    if s != [] {
      EncodeUnreserved(s[1..]);
      assert [s[0]] + s[1..] == s;
    }
  }

  lemma HexPair(b: Byte)
    ensures HexValue(HexChar(b / 16)) * 16 + HexValue(HexChar(b % 16)) == b
  {
  }

  /** One `%XX` triple decodes to its byte. */
  lemma DecodeTriple(b: Byte, tail: string)
    ensures Decode(['%', HexChar(b / 16), HexChar(b % 16)] + tail) == Prepend([b], Decode(tail))
  {
    var e := ['%', HexChar(b / 16), HexChar(b % 16)] + tail;
    assert e[0] == '%' && e[1] == HexChar(b / 16) && e[2] == HexChar(b % 16);
    assert e[3..] == tail;
    HexPair(b);
  }

  lemma PrependTwice(a: seq<Byte>, b: seq<Byte>, rest: Option<seq<Byte>>)
    ensures Prepend(a, Prepend(b, rest)) == Prepend(a + b, rest)
  {
    if rest.Some? {
      assert a + (b + rest.value) == (a + b) + rest.value;
    }
  }

  lemma {:induction false} DecodePercentBytes(bytes: seq<Byte>, rest: string)
    ensures Decode(PercentBytes(bytes) + rest) == Prepend(bytes, Decode(rest))
  {
    if bytes == [] {
      assert PercentBytes(bytes) + rest == rest;
      if Decode(rest).Some? {
        assert bytes + Decode(rest).value == Decode(rest).value;
      }
    } else {
      var b := bytes[0];
      var tail := PercentBytes(bytes[1..]) + rest;
      assert PercentBytes(bytes) + rest == ['%', HexChar(b / 16), HexChar(b % 16)] + tail;
      DecodeTriple(b, tail);
      DecodePercentBytes(bytes[1..], rest);
      PrependTwice([b], bytes[1..], Decode(rest));
      assert [b] + bytes[1..] == bytes;
    }
  }

  lemma DecodeEncodeChar(c: char, rest: string)
    ensures Decode(EncodeChar(c) + rest) == Prepend(Utf8(c), Decode(rest))
  {
    if IsUnreserved(c) {
      var e := [c] + rest;
      assert e[0] == c && e[1..] == rest;
    } else {
      DecodePercentBytes(Utf8(c), rest);
    }
  }

  /** Decoding an encoded component gives back the UTF-8 bytes of the original string. */
  lemma {:induction false} DecodeEncode(s: string)
    ensures Decode(Encode(s)) == Some(Utf8String(s))
  {
    if s == [] {
    } else {
      DecodeEncodeChar(s[0], Encode(s[1..]));
      DecodeEncode(s[1..]);
    }
  }
}
