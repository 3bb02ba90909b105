/**
 * `URLSearchParams.prototype.toString()`: the application/x-www-form-urlencoded serializer of the
 * WHATWG URL Standard (section 5.2, "application/x-www-form-urlencoded serializing"), with UTF-8 as
 * the encoding; and the parser of section 5.1 of the same standard, up to but not including its
 * final UTF-8 decoding, proved to invert it.
 */
module FormUrlEncoded {
  import opened Wrappers
  import opened Text

  type Byte = b: int | 0 <= b < 256

  /** The UTF-8 encoding of one Unicode scalar value. */
  function Utf8(c: char): (bs: seq<Byte>)
    ensures 1 <= |bs| <= 4
    ensures c as int < 0x80 ==> bs == [c as int]
  {
    var n := c as int;
    if n < 0x80 then [n]
    else if n < 0x800 then [0xC0 + n / 0x40, 0x80 + n % 0x40]
    else if n < 0x10000 then [0xE0 + n / 0x1000, 0x80 + (n / 0x40) % 0x40, 0x80 + n % 0x40]
    else [0xF0 + n / 0x40000, 0x80 + (n / 0x1000) % 0x40, 0x80 + (n / 0x40) % 0x40, 0x80 + n % 0x40]
  }

  function Utf8String(s: string): seq<Byte>
    decreases |s|
  {
    if s == [] then [] else Utf8(s[0]) + Utf8String(s[1..])
  }

  /** Every character is below 0x80, so the text is its own byte string. */
  predicate IsAscii(s: string)
    decreases |s|
  {
    s == [] || (s[0] as int < 0x80 && IsAscii(s[1..]))
  }

  lemma {:induction false} AsciiConcat(a: string, b: string)
    requires IsAscii(a) && IsAscii(b)
    ensures IsAscii(a + b) && AsciiBytes(a + b) == AsciiBytes(a) + AsciiBytes(b)
    decreases |a|
  {
    if a != [] {
      assert (a + b)[1..] == a[1..] + b;
      AsciiConcat(a[1..], b);
    } else {
      assert a + b == b;
    }
  }

  lemma AsciiChar(c: char)
    requires c as int < 0x80
    ensures IsAscii([c]) && AsciiBytes([c]) == [c as int]
  {
    assert [c][1..] == [];
  }

  /** ASCII text as the bytes that carry it. */
  function AsciiBytes(s: string): seq<Byte>
    requires IsAscii(s)
    decreases |s|
  {
    if s == [] then [] else [s[0] as int] + AsciiBytes(s[1..])
  }

  /** The characters the application/x-www-form-urlencoded percent-encode set leaves alone. */
  predicate Unreserved(c: char) {
    'a' <= c <= 'z' || 'A' <= c <= 'Z' || '0' <= c <= '9' || c == '*' || c == '-' || c == '.' || c == '_'
  }

  const HEX_DIGITS: string := "0123456789ABCDEF"

  predicate IsHexByte(b: Byte) {
    0x30 <= b <= 0x39 || 0x41 <= b <= 0x46 || 0x61 <= b <= 0x66
  }

  function HexValue(b: Byte): (v: int)
    requires IsHexByte(b)
    ensures 0 <= v < 16
  {
    if b <= 0x39 then b - 0x30 else if b <= 0x46 then b - 0x41 + 10 else b - 0x61 + 10
  }

  /** The upper-case hexadecimal digit for `d`; the parser reads it back as `d`. */
  function HexDigit(d: int): (c: char)
    requires 0 <= d < 16
    ensures c as int < 0x80 && IsHexByte(c as int) && HexValue(c as int) == d
  {
    HEX_DIGITS[d]
  }

  /** `%XY`, X and Y the upper-case hexadecimal digits of `b`. */
  function PercentByte(b: Byte): (r: string)
    ensures IsAscii(r) && '=' !in r && '&' !in r
  {
    var hi, lo := HexDigit(b / 16), HexDigit(b % 16);
    AsciiChar('%');
    AsciiChar(hi);
    AsciiChar(lo);
    AsciiConcat([hi], [lo]);
    AsciiConcat(['%'], [hi] + [lo]);
    assert ['%'] + ([hi] + [lo]) == ['%', hi, lo];
    ['%', hi, lo]
  }

  function PercentBytes(bs: seq<Byte>): (r: string)
    ensures IsAscii(r) && '=' !in r && '&' !in r
    decreases |bs|
  {
    if bs == [] then []
    else
      AsciiConcat(PercentByte(bs[0]), PercentBytes(bs[1..]));
      PercentByte(bs[0]) + PercentBytes(bs[1..])
  }

  /** One code point: space becomes `+`, unreserved characters stay, others become their UTF-8 bytes percent-encoded. */
  function EncodeChar(c: char): (r: string)
    ensures IsAscii(r) && '=' !in r && '&' !in r
  {
    if c == ' ' then AsciiChar('+'); "+"
    else if Unreserved(c) then AsciiChar(c); [c]
    else PercentBytes(Utf8(c))
  }

  /** A name or a value percent-encoded: ASCII text with neither `=` nor `&` in it. */
  function EncodeComponent(s: string): (r: string)
    ensures IsAscii(r) && '=' !in r && '&' !in r
    decreases |s|
  {
    if s == [] then []
    else
      AsciiConcat(EncodeChar(s[0]), EncodeComponent(s[1..]));
      EncodeChar(s[0]) + EncodeComponent(s[1..])
  }

  function Segment(pair: (string, string)): string {
    EncodeComponent(pair.0) + "=" + EncodeComponent(pair.1)
  }

  /** The body `URLSearchParams.toString()` gives: `name=value` segments joined with `&`. */
  function Serialize(pairs: seq<(string, string)>): string
    decreases |pairs|
  {
    if pairs == [] then ""
    else if |pairs| == 1 then Segment(pairs[0])
    else Segment(pairs[0]) + "&" + Serialize(pairs[1..])
  }

  // ---- The parser of section 5.1, the serializer's partner ----

  /** Every 0x2B (`+`) replaced by 0x20 (space). */
  function ReplacePlus(bs: seq<Byte>): seq<Byte>
    decreases |bs|
  {
    if bs == [] then [] else [if bs[0] == 0x2B then 0x20 else bs[0]] + ReplacePlus(bs[1..])
  }

  /** Percent-decoding: `%` and two hexadecimal digits stand for the byte they denote, every other byte for itself. */
  function PercentDecode(bs: seq<Byte>): seq<Byte>
    decreases |bs|
  {
    if bs == [] then []
    else if bs[0] == 0x25 && |bs| >= 3 && IsHexByte(bs[1]) && IsHexByte(bs[2]) then
      [HexValue(bs[1]) * 16 + HexValue(bs[2])] + PercentDecode(bs[3..])
    else [bs[0]] + PercentDecode(bs[1..])
  }

  function DecodeComponent(bs: seq<Byte>): seq<Byte> {
    PercentDecode(ReplacePlus(bs))
  }

  /** One `&`-free segment: the bytes before the first `=` are the name, the rest the value. */
  function ParseSegment(seg: seq<Byte>): (seq<Byte>, seq<Byte>) {
    match Find(seg, 0, 0x3D)
    case Some(i) => (DecodeComponent(seg[..i]), DecodeComponent(seg[i + 1..]))
    case None => (DecodeComponent(seg), [])
  }

  /** The name/value byte strings of a form body, in order, empty segments skipped. */
  function Parse(body: seq<Byte>): seq<(seq<Byte>, seq<Byte>)>
    decreases |body|
  {
    match Find(body, 0, 0x26)
    case None => if body == [] then [] else [ParseSegment(body)]
    case Some(i) => (if i == 0 then [] else [ParseSegment(body[..i])]) + Parse(body[i + 1..])
  }

  function Utf8Pairs(pairs: seq<(string, string)>): seq<(seq<Byte>, seq<Byte>)>
    decreases |pairs|
  {
    if pairs == [] then [] else [(Utf8String(pairs[0].0), Utf8String(pairs[0].1))] + Utf8Pairs(pairs[1..])
  }

  // ---- The round trip ----

  /** The bytes the parser percent-decodes for ASCII text `s`, once `+` has become a space. */
  function Unplussed(s: string): seq<Byte>
    requires IsAscii(s)
  {
    ReplacePlus(AsciiBytes(s))
  }

  lemma {:induction false} ReplacePlusConcat(x: seq<Byte>, y: seq<Byte>)
    ensures ReplacePlus(x + y) == ReplacePlus(x) + ReplacePlus(y)
    decreases |x|
  {
    if x != [] {
      assert (x + y)[1..] == x[1..] + y;
      ReplacePlusConcat(x[1..], y);
    } else {
      assert x + y == y;
    }
  }

  lemma UnplussedConcat(a: string, b: string)
    requires IsAscii(a) && IsAscii(b)
    ensures IsAscii(a + b) && Unplussed(a + b) == Unplussed(a) + Unplussed(b)
  {
    AsciiConcat(a, b);
    ReplacePlusConcat(AsciiBytes(a), AsciiBytes(b));
  }

  /** The three bytes of `%XY`. */
  function PercentTriple(b: Byte): seq<Byte> {
    [0x25, HexDigit(b / 16) as int, HexDigit(b % 16) as int]
  }

  /** A single ASCII character reaches the percent-decoder as its byte, `+` as a space. */
  lemma UnplussedChar(c: char)
    requires c as int < 0x80
    ensures IsAscii([c]) && Unplussed([c]) == [if c == '+' then 0x20 else c as int]
  {
    AsciiChar(c);
    var b: seq<Byte> := [c as int];
    assert b[1..] == [];
    assert ReplacePlus(b) == [if c == '+' then 0x20 else c as int] + ReplacePlus([]);
  }

  lemma PercentByteWire(b: Byte)
    ensures Unplussed(PercentByte(b)) == PercentTriple(b)
  {
    var hi, lo := HexDigit(b / 16), HexDigit(b % 16);
    UnplussedChar('%');
    UnplussedChar(hi);
    UnplussedChar(lo);
    UnplussedConcat([hi], [lo]);
    UnplussedConcat(['%'], [hi] + [lo]);
    assert ['%'] + ([hi] + [lo]) == PercentByte(b);
  }

  lemma DecodeTriple(b: Byte, y: seq<Byte>)
    ensures PercentDecode(PercentTriple(b) + y) == [b] + PercentDecode(y)
  {
    var x := PercentTriple(b) + y;
    assert x[3..] == y;
  }

  /** Decoding percent-encoded bytes gives the bytes back, whatever follows them. */
  lemma {:induction false} DecodePercentBytes(bs: seq<Byte>, rest: seq<Byte>)
    ensures PercentDecode(Unplussed(PercentBytes(bs)) + rest) == bs + PercentDecode(rest)
    decreases |bs|
  {
    if bs == [] {
      assert Unplussed(PercentBytes(bs)) + rest == rest;
    } else {
      var tail := Unplussed(PercentBytes(bs[1..]));
      assert Unplussed(PercentBytes(bs)) == PercentTriple(bs[0]) + tail by {
        PercentByteWire(bs[0]);
        UnplussedConcat(PercentByte(bs[0]), PercentBytes(bs[1..]));
      }
      calc {
        PercentDecode(Unplussed(PercentBytes(bs)) + rest);
        { assert Unplussed(PercentBytes(bs)) + rest == PercentTriple(bs[0]) + (tail + rest); }
        PercentDecode(PercentTriple(bs[0]) + (tail + rest));
        { DecodeTriple(bs[0], tail + rest); }
        [bs[0]] + PercentDecode(tail + rest);
        { DecodePercentBytes(bs[1..], rest); }
        [bs[0]] + (bs[1..] + PercentDecode(rest));
        { assert bs == [bs[0]] + bs[1..]; }
        bs + PercentDecode(rest);
      }
    }
  }

  lemma {:induction false} DecodeEncodedChar(c: char, rest: seq<Byte>)
    ensures PercentDecode(Unplussed(EncodeChar(c)) + rest) == Utf8(c) + PercentDecode(rest)
  {
    if c == ' ' {
      UnplussedChar('+');
      assert PercentDecode([0x20] + rest)[1..] == PercentDecode(rest);
    } else if Unreserved(c) {
      UnplussedChar(c);
      assert ([c as int] + rest)[1..] == rest;
    } else {
      DecodePercentBytes(Utf8(c), rest);
    }
  }

  lemma UnplussedComponent(s: string)
    requires s != []
    ensures Unplussed(EncodeComponent(s)) == Unplussed(EncodeChar(s[0])) + Unplussed(EncodeComponent(s[1..]))
  {
    UnplussedConcat(EncodeChar(s[0]), EncodeComponent(s[1..]));
  }

  /** Decoding an encoded component gives the component's UTF-8 bytes, whatever follows it. */
  lemma {:induction false} DecodeEncodedComponent(s: string, rest: seq<Byte>)
    ensures PercentDecode(Unplussed(EncodeComponent(s)) + rest) == Utf8String(s) + PercentDecode(rest)
    decreases |s|
  {
    if s == [] {
      assert Unplussed(EncodeComponent(s)) + rest == rest;
    } else {
      var tail := Unplussed(EncodeComponent(s[1..]));
      UnplussedComponent(s);
      calc {
        PercentDecode(Unplussed(EncodeComponent(s)) + rest);
        { assert Unplussed(EncodeComponent(s)) + rest == Unplussed(EncodeChar(s[0])) + (tail + rest); }
        PercentDecode(Unplussed(EncodeChar(s[0])) + (tail + rest));
        { DecodeEncodedChar(s[0], tail + rest); }
        Utf8(s[0]) + PercentDecode(tail + rest);
        { DecodeEncodedComponent(s[1..], rest); }
        Utf8(s[0]) + (Utf8String(s[1..]) + PercentDecode(rest));
      }
    }
  }

  lemma DecodeComponentOfEncoded(s: string)
    ensures DecodeComponent(AsciiBytes(EncodeComponent(s))) == Utf8String(s)
  {
    DecodeEncodedComponent(s, []);
    assert Unplussed(EncodeComponent(s)) + [] == Unplussed(EncodeComponent(s));
  }

  lemma {:induction false} AsciiBytesExclude(s: string, c: char)
    requires IsAscii(s) && c as int < 0x80 && c !in s
    ensures (c as int) !in AsciiBytes(s)
    decreases |s|
  {
    if s != [] {
      assert s[0] != c;
      AsciiBytesExclude(s[1..], c);
    }
  }

  /** The bytes of a segment: the encoded name, `=`, the encoded value; `&` nowhere, `=` not in the name. */
  lemma SegmentBytes(pair: (string, string))
    ensures IsAscii(Segment(pair))
    ensures AsciiBytes(Segment(pair))
      == AsciiBytes(EncodeComponent(pair.0)) + [0x3D] + AsciiBytes(EncodeComponent(pair.1))
    ensures 0x3D !in AsciiBytes(EncodeComponent(pair.0)) && 0x26 !in AsciiBytes(Segment(pair))
  {
    var name, value := EncodeComponent(pair.0), EncodeComponent(pair.1);
    AsciiChar('=');
    AsciiConcat(name, "=");
    AsciiConcat(name + "=", value);
    AsciiBytesExclude(name, '=');
    AsciiBytesExclude(name, '&');
    AsciiBytesExclude(value, '&');
  }

  lemma ParseOneSegment(pair: (string, string))
    ensures IsAscii(Segment(pair))
    ensures ParseSegment(AsciiBytes(Segment(pair))) == (Utf8String(pair.0), Utf8String(pair.1))
  {
    var name := AsciiBytes(EncodeComponent(pair.0));
    var value := AsciiBytes(EncodeComponent(pair.1));
    SegmentBytes(pair);
    var seg := AsciiBytes(Segment(pair));
    assert forall k :: 0 <= k < |name| ==> name[k] != 0x3D;
    FindAfter(name, 0x3D, value);
    assert seg[..|name|] == name;
    assert seg[|name| + 1..] == value;
    DecodeComponentOfEncoded(pair.0);
    DecodeComponentOfEncoded(pair.1);
  }

  /** The serializer writes ASCII only. */
  lemma {:induction false} SerializeAscii(pairs: seq<(string, string)>)
    ensures IsAscii(Serialize(pairs))
    decreases |pairs|
  {
    if |pairs| >= 1 {
      SegmentBytes(pairs[0]);
    }
    if |pairs| >= 2 {
      SerializeAscii(pairs[1..]);
      AsciiChar('&');
      AsciiConcat(Segment(pairs[0]), "&");
      AsciiConcat(Segment(pairs[0]) + "&", Serialize(pairs[1..]));
    }
  }

  lemma SerializeSplit(pairs: seq<(string, string)>)
    requires |pairs| >= 2
    ensures IsAscii(Serialize(pairs)) && IsAscii(Serialize(pairs[1..])) && IsAscii(Segment(pairs[0]))
    ensures AsciiBytes(Serialize(pairs)) == AsciiBytes(Segment(pairs[0])) + [0x26] + AsciiBytes(Serialize(pairs[1..]))
  {
    SegmentBytes(pairs[0]);
    SerializeAscii(pairs[1..]);
    AsciiChar('&');
    AsciiConcat(Segment(pairs[0]), "&");
    AsciiConcat(Segment(pairs[0]) + "&", Serialize(pairs[1..]));
  }

  /** Parsing a serialized body gives back every name and every value, as UTF-8 bytes, in order. */
  lemma {:induction false} ParseSerialize(pairs: seq<(string, string)>)
    ensures IsAscii(Serialize(pairs))
    ensures Parse(AsciiBytes(Serialize(pairs))) == Utf8Pairs(pairs)
    decreases |pairs|
  {
    SerializeAscii(pairs);
    if pairs != [] {
      SegmentBytes(pairs[0]);
      var seg := AsciiBytes(Segment(pairs[0]));
      ParseOneSegment(pairs[0]);
      assert seg != [];
      if |pairs| == 1 {
        assert forall k :: 0 <= k < |seg| ==> seg[k] != 0x26;
        FindNone(seg, 0x26);
      } else {
        SerializeSplit(pairs);
        var rest := AsciiBytes(Serialize(pairs[1..]));
        var body := AsciiBytes(Serialize(pairs));
        assert forall k :: 0 <= k < |seg| ==> seg[k] != 0x26;
        FindAfter(seg, 0x26, rest);
        assert body[..|seg|] == seg;
        assert body[|seg| + 1..] == rest;
        ParseSerialize(pairs[1..]);
      }
    }
  }
}
