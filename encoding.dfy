/**
 * Byte-level encodings used by the web client:
 *  - UTF-8 (the byte form percent-encoding works on),
 *  - ECMAScript `encodeURIComponent` (percent-encoding of RFC 3986 section 2.1,
 *    keeping A-Z a-z 0-9 and - _ . ! ~ * ' ( ) unescaped),
 *  - the application/x-www-form-urlencoded serializer that `URLSearchParams`
 *    uses (section 5.2 of the WHATWG URL Standard: A-Z a-z 0-9 and * - . _
 *    unescaped, space as '+'),
 *  - two-digit hexadecimal, and
 *  - base64 with padding (section 4 of RFC 4648), as produced by `btoa`.
 * Each encoder is paired with a decoder and a round-trip lemma.
 */
module Encoding {
  import opened Wrappers
  import opened Text

  type byte = b: int | 0 <= b < 256

  // ---------------------------------------------------------------- hexadecimal

  function HexDigitUpper(d: nat): (c: char)
    requires d < 16
  {
    if d < 10 then DigitChar(d) else ('A' as int + d - 10) as char
  }

  function HexDigitLower(d: nat): (c: char)
    requires d < 16
  {
    if d < 10 then DigitChar(d) else ('a' as int + d - 10) as char
  }

  predicate IsLowerHexDigit(c: char) { IsDigit(c) || 'a' <= c <= 'f' }

  /** Value of a hexadecimal digit of either case. */
  function HexValue(c: char): (r: Option<nat>)
    ensures r.Some? ==> r.value < 16
  {
    if IsDigit(c) then Some(c as int - '0' as int)
    else if 'A' <= c <= 'F' then Some(c as int - 'A' as int + 10)
    else if 'a' <= c <= 'f' then Some(c as int - 'a' as int + 10)
    else None
  }

  lemma HexValueOfDigit(d: nat)
    requires d < 16
    ensures HexValue(HexDigitUpper(d)) == Some(d)
    ensures HexValue(HexDigitLower(d)) == Some(d)
    ensures IsLowerHexDigit(HexDigitLower(d))
  {
  }

  /** Two lower-case hexadecimal digits, zero-padded: `b.toString(16).padStart(2, '0')`. */
  function ByteToLowerHex(b: byte): (r: string)
    ensures |r| == 2 && IsLowerHexDigit(r[0]) && IsLowerHexDigit(r[1])
    ensures HexValue(r[0]) == Some(b / 16) && HexValue(r[1]) == Some(b % 16)
  {
    HexValueOfDigit(b / 16);
    HexValueOfDigit(b % 16);
    [HexDigitLower(b / 16), HexDigitLower(b % 16)]
  }

  /** Lower-case hexadecimal of a byte sequence, two digits per byte. */
  function BytesToLowerHex(bs: seq<byte>): (r: string)
    ensures |r| == 2 * |bs|
    ensures forall i :: 0 <= i < |r| ==> IsLowerHexDigit(r[i])
    decreases |bs|
  {
    if bs == [] then "" else ByteToLowerHex(bs[0]) + BytesToLowerHex(bs[1..])
  }

  /** Reads back the bytes of a lower-case hex string. */
  function LowerHexToBytes(s: string): (r: Option<seq<byte>>)
    decreases |s|
  {
    if s == [] then Some([])
    else if |s| < 2 then None
    else match (HexValue(s[0]), HexValue(s[1]), LowerHexToBytes(s[2..]))
      case (Some(hi), Some(lo), Some(rest)) => Some([hi * 16 + lo] + rest)
      case _ => None
  }

  lemma {:induction false} LowerHexRoundTrip(bs: seq<byte>)
    ensures LowerHexToBytes(BytesToLowerHex(bs)) == Some(bs)
    decreases |bs|
  {
    if bs != [] {
      var s := BytesToLowerHex(bs);
      assert s[2..] == BytesToLowerHex(bs[1..]);
      LowerHexRoundTrip(bs[1..]);
      assert [bs[0] / 16 * 16 + bs[0] % 16] + bs[1..] == bs;
    }
  }

  // ---------------------------------------------------------------- UTF-8

  predicate IsContinuation(b: byte) { 0x80 <= b < 0xC0 }

  /** The UTF-8 bytes of one Unicode scalar value. */
  function Utf8EncodeChar(c: char): (r: seq<byte>)
    ensures 1 <= |r| <= 4
    ensures forall i :: 1 <= i < |r| ==> IsContinuation(r[i])
  {
    var v := c as int;
    if v < 0x80 then [v]
    else if v < 0x800 then [0xC0 + v / 64, 0x80 + v % 64]
    else if v < 0x10000 then [0xE0 + v / 4096, 0x80 + (v / 64) % 64, 0x80 + v % 64]
    else [0xF0 + v / 262144, 0x80 + (v / 4096) % 64, 0x80 + (v / 64) % 64, 0x80 + v % 64]
  }

  /** Number of bytes in the UTF-8 sequence a leading byte announces; 0 for a byte that cannot lead. */
  function Utf8SequenceLength(b: byte): (n: nat)
    ensures n <= 4
  {
    if b < 0x80 then 1
    else if 0xC2 <= b < 0xE0 then 2
    else if 0xE0 <= b < 0xF0 then 3
    else if 0xF0 <= b < 0xF5 then 4
    else 0
  }

  /** Decodes one well-formed UTF-8 sequence that makes up the whole of `bs`. */
  function Utf8DecodeChar(bs: seq<byte>): (r: Option<char>)
  {
    if |bs| == 0 || Utf8SequenceLength(bs[0]) != |bs| then None
    else if |bs| == 1 then Some(bs[0] as char)
    else if !IsContinuation(bs[1]) then None
    else if |bs| == 2 then
      Some(((bs[0] as int - 0xC0) * 64 + (bs[1] as int - 0x80)) as char)
    else if !IsContinuation(bs[2]) then None
    else if |bs| == 3 then
      var v := (bs[0] as int - 0xE0) * 4096 + (bs[1] as int - 0x80) * 64 + (bs[2] as int - 0x80);
      if v < 0x800 || (0xD800 <= v < 0xE000) then None else Some(v as char)
    else if !IsContinuation(bs[3]) then None
    else
      var v := (bs[0] as int - 0xF0) * 262144 + (bs[1] as int - 0x80) * 4096
        + (bs[2] as int - 0x80) * 64 + (bs[3] as int - 0x80);
      if v < 0x10000 || v > 0x10FFFF then None else Some(v as char)
  }

  lemma Utf8CharRoundTrip(c: char)
    ensures Utf8SequenceLength(Utf8EncodeChar(c)[0]) == |Utf8EncodeChar(c)|
    ensures Utf8DecodeChar(Utf8EncodeChar(c)) == Some(c)
  {
    var v := c as int;
    if v < 0x80 {
    } else if v < 0x800 {
      Utf8TwoBytes(c);
    } else if v < 0x10000 {
      Utf8ThreeBytes(c);
    } else {
      Utf8FourBytes(c);
    }
  }

  lemma Utf8TwoBytes(c: char)
    requires 0x80 <= c as int < 0x800
    ensures Utf8SequenceLength(Utf8EncodeChar(c)[0]) == 2 == |Utf8EncodeChar(c)|
    ensures Utf8DecodeChar(Utf8EncodeChar(c)) == Some(c)
  {
    var v := c as int;
    var b1, b0 := v / 64, v % 64;
    assert b1 * 64 + b0 == v;
    assert 2 <= b1 < 32;
    assert Utf8EncodeChar(c) == [0xC0 + b1, 0x80 + b0];
  }

  lemma Utf8ThreeBytes(c: char)
    requires 0x800 <= c as int < 0x10000
    ensures Utf8SequenceLength(Utf8EncodeChar(c)[0]) == 3 == |Utf8EncodeChar(c)|
    ensures Utf8DecodeChar(Utf8EncodeChar(c)) == Some(c)
  {
    var v := c as int;
    var b2, b1, b0 := v / 4096, (v / 64) % 64, v % 64;
    assert (v / 64) == b2 * 64 + b1;
    assert b2 * 4096 + b1 * 64 + b0 == v;
    assert 0 <= b2 < 16;
    assert Utf8EncodeChar(c) == [0xE0 + b2, 0x80 + b1, 0x80 + b0];
  }

  lemma Utf8FourBytes(c: char)
    requires 0x10000 <= c as int
    ensures Utf8SequenceLength(Utf8EncodeChar(c)[0]) == 4 == |Utf8EncodeChar(c)|
    ensures Utf8DecodeChar(Utf8EncodeChar(c)) == Some(c)
  {
    var v := c as int;
    var b3, b2, b1, b0 := v / 262144, (v / 4096) % 64, (v / 64) % 64, v % 64;
    assert v / 64 == (v / 4096) * 64 + b1;
    assert v / 4096 == b3 * 64 + b2;
    assert b3 * 262144 + b2 * 4096 + b1 * 64 + b0 == v;
    assert 0 <= b3 < 5;
    assert Utf8EncodeChar(c) == [0xF0 + b3, 0x80 + b2, 0x80 + b1, 0x80 + b0];
  }

  function Utf8Encode(s: string): (r: seq<byte>)
    decreases |s|
  {
    if s == [] then [] else Utf8EncodeChar(s[0]) + Utf8Encode(s[1..])
  }

  /** Byte length of the UTF-8 form (Rust's `str::len`). */
  function Utf8Length(s: string): nat { |Utf8Encode(s)| }

  lemma {:induction false} Utf8LengthAscii(s: string)
    requires forall i :: 0 <= i < |s| ==> s[i] as int < 0x80
    ensures Utf8Length(s) == |s|
    decreases |s|
  {
    if s != [] {
      Utf8LengthAscii(s[1..]);
    }
  }

  lemma {:induction false} Utf8LengthAtLeastChars(s: string)
    ensures Utf8Length(s) >= |s|
    decreases |s|
  {
    if s != [] {
      Utf8LengthAtLeastChars(s[1..]);
    }
  }

  // ---------------------------------------------------------------- percent-encoding

  /** "%XY" for each byte, upper-case hexadecimal. */
  function PercentEncodeBytes(bs: seq<byte>): (r: string)
    ensures |r| == 3 * |bs|
    decreases |bs|
  {
    if bs == [] then ""
    else ['%', HexDigitUpper(bs[0] / 16), HexDigitUpper(bs[0] % 16)] + PercentEncodeBytes(bs[1..])
  }

  /** Characters `encodeURIComponent` leaves as they are. */
  predicate IsUriUnreserved(c: char) {
    IsAlnum(c) || c == '-' || c == '_' || c == '.' || c == '!' || c == '~' || c == '*'
    || c == '\'' || c == '(' || c == ')'
  }

  /** Characters the form-urlencoded serializer leaves as they are. */
  predicate IsFormUnreserved(c: char) {
    IsAlnum(c) || c == '*' || c == '-' || c == '.' || c == '_'
  }

  function UriEncodeChar(c: char): (r: string)
    ensures r != [] && (r[0] == '%' <==> !IsUriUnreserved(c))
  {
    if IsUriUnreserved(c) then [c] else PercentEncodeBytes(Utf8EncodeChar(c))
  }

  function FormEncodeChar(c: char): (r: string)
    ensures r != [] && (r[0] == '%' <==> !IsFormUnreserved(c) && c != ' ')
  {
    if IsFormUnreserved(c) then [c]
    else if c == ' ' then "+"
    else PercentEncodeBytes(Utf8EncodeChar(c))
  }

  /** ECMAScript `encodeURIComponent`. */
  function EncodeUriComponent(s: string): (r: string)
    decreases |s|
  {
    if s == [] then "" else UriEncodeChar(s[0]) + EncodeUriComponent(s[1..])
  }

  /** The form-urlencoded byte serializer applied to one name or value. */
  function FormEncode(s: string): (r: string)
    decreases |s|
  {
    if s == [] then "" else FormEncodeChar(s[0]) + FormEncode(s[1..])
  }

  /** Both encoders give at least one character per character of the text. */
  lemma {:induction false} EncodedLengths(s: string)
    ensures |s| <= |EncodeUriComponent(s)|
    ensures |s| <= |FormEncode(s)|
    decreases |s|
  {
    if s != [] {
      EncodedLengths(s[1..]);
    }
  }

  /** Every character of an `encodeURIComponent` result is unreserved or part of a "%XY" escape. */
  predicate IsUriEncodedChar(c: char) { IsUriUnreserved(c) || c == '%' || ('A' <= c <= 'F') }

  predicate IsFormEncodedChar(c: char) { IsFormUnreserved(c) || c == '%' || c == '+' }

  lemma {:induction false} PercentEncodeBytesAlphabet(bs: seq<byte>)
    ensures forall i :: 0 <= i < |PercentEncodeBytes(bs)| ==>
      IsUriEncodedChar(PercentEncodeBytes(bs)[i]) && IsFormEncodedChar(PercentEncodeBytes(bs)[i])
    decreases |bs|
  {
    if bs != [] {
      PercentEncodeBytesAlphabet(bs[1..]);
    }
  }

  /** The encoded text never holds the delimiters of a URI ('@', ':', '?', '#', '&', '=', '/', ' '). */
  lemma {:induction false} EncodeUriComponentAlphabet(s: string)
    ensures forall i :: 0 <= i < |EncodeUriComponent(s)| ==> IsUriEncodedChar(EncodeUriComponent(s)[i])
    decreases |s|
  {
    if s != [] {
      PercentEncodeBytesAlphabet(Utf8EncodeChar(s[0]));
      EncodeUriComponentAlphabet(s[1..]);
    }
  }

  lemma {:induction false} FormEncodeAlphabet(s: string)
    ensures forall i :: 0 <= i < |FormEncode(s)| ==> IsFormEncodedChar(FormEncode(s)[i])
    decreases |s|
  {
    if s != [] {
      PercentEncodeBytesAlphabet(Utf8EncodeChar(s[0]));
      FormEncodeAlphabet(s[1..]);
    }
  }

  /** Reads `n` "%XY" escapes from the front of `s`. */
  function ReadEscapes(s: string, n: nat): (r: Option<seq<byte>>)
    ensures r.Some? ==> |r.value| == n && 3 * n <= |s|
    decreases n
  {
    if n == 0 then Some([])
    else if |s| < 3 || s[0] != '%' then None
    else match (HexValue(s[1]), HexValue(s[2]), ReadEscapes(s[3..], n - 1))
      case (Some(hi), Some(lo), Some(rest)) => Some([hi * 16 + lo] + rest)
      case _ => None
  }

  lemma {:induction false} ReadEscapesOfEncoded(bs: seq<byte>, rest: string)
    ensures ReadEscapes(PercentEncodeBytes(bs) + rest, |bs|) == Some(bs)
    decreases |bs|
  {
    if bs != [] {
      var s := PercentEncodeBytes(bs) + rest;
      HexValueOfDigit(bs[0] / 16);
      HexValueOfDigit(bs[0] % 16);
      assert s[3..] == PercentEncodeBytes(bs[1..]) + rest;
      ReadEscapesOfEncoded(bs[1..], rest);
      assert [bs[0] / 16 * 16 + bs[0] % 16] + bs[1..] == bs;
    }
  }

  /**
   * One decoded character and the number of input characters it used: a
   * UTF-8 sequence of escapes, '+' as a space when `plusIsSpace`, or a
   * literal character.
   */
  function DecodeStep(s: string, plusIsSpace: bool): (r: Option<(char, nat)>)
    requires s != []
    ensures r.Some? ==> 1 <= r.value.1 <= |s|
  {
    if s[0] == '+' && plusIsSpace then Some((' ', 1))
    else if s[0] != '%' then Some((s[0], 1))
    else if |s| < 3 then None
    else match ReadEscapes(s, 1)
      case None => None
      case Some(lead) =>
        var n := Utf8SequenceLength(lead[0]);
        if n == 0 then None
        else match ReadEscapes(s, n)
          case None => None
          case Some(bs) =>
            match Utf8DecodeChar(bs)
            case None => None
            case Some(c) => Some((c, 3 * n))
  }

  function PercentDecode(s: string, plusIsSpace: bool): (r: Option<string>)
    decreases |s|
  {
    if s == [] then Some("")
    else match DecodeStep(s, plusIsSpace)
      case None => None
      case Some((c, n)) =>
        match PercentDecode(s[n..], plusIsSpace)
        case None => None
        case Some(t) => Some([c] + t)
  }

  /** ECMAScript `decodeURIComponent` on well-formed input; `None` where it would throw. */
  function DecodeUriComponent(s: string): Option<string> { PercentDecode(s, false) }

  /** Form-urlencoded decoding of one name or value ('+' is a space). */
  function FormDecode(s: string): Option<string> { PercentDecode(s, true) }

  lemma EscapedCharStep(c: char, rest: string, plusIsSpace: bool)
    ensures DecodeStep(PercentEncodeBytes(Utf8EncodeChar(c)) + rest, plusIsSpace)
         == Some((c, |PercentEncodeBytes(Utf8EncodeChar(c))|))
  {
    var bs := Utf8EncodeChar(c);
    var s := PercentEncodeBytes(bs) + rest;
    Utf8CharRoundTrip(c);
    assert s[0] == '%';
    assert s[1] == HexDigitUpper(bs[0] / 16) && s[2] == HexDigitUpper(bs[0] % 16);
    ReadFirstEscape(s, bs[0]);
    ReadEscapesOfEncoded(bs, rest);
  }

  lemma ReadFirstEscape(s: string, b: byte)
    requires |s| >= 3 && s[0] == '%' && s[1] == HexDigitUpper(b / 16) && s[2] == HexDigitUpper(b % 16)
    ensures ReadEscapes(s, 1) == Some([b])
  {
    HexValueOfDigit(b / 16);
    HexValueOfDigit(b % 16);
    assert ReadEscapes(s[3..], 0) == Some([]);
    assert b / 16 * 16 + b % 16 == b;
    assert [b / 16 * 16 + b % 16] + [] == [b];
  }

  lemma {:induction false} DecodeEncodeUriComponent(s: string)
    ensures DecodeUriComponent(EncodeUriComponent(s)) == Some(s)
    decreases |s|
  {
    if s != [] {
      var e := UriEncodeChar(s[0]);
      var t := EncodeUriComponent(s[1..]);
      assert EncodeUriComponent(s) == e + t;
      if IsUriUnreserved(s[0]) {
        assert (e + t)[1..] == t;
      } else {
        EscapedCharStep(s[0], t, false);
        assert (e + t)[|e|..] == t;
      }
      DecodeEncodeUriComponent(s[1..]);
      assert [s[0]] + s[1..] == s;
    }
  }

  lemma {:induction false} FormDecodeEncode(s: string)
    ensures FormDecode(FormEncode(s)) == Some(s)
    decreases |s|
  {
    if s != [] {
      var e := FormEncodeChar(s[0]);
      var t := FormEncode(s[1..]);
      assert FormEncode(s) == e + t;
      if IsFormUnreserved(s[0]) || s[0] == ' ' {
        assert (e + t)[1..] == t;
      } else {
        EscapedCharStep(s[0], t, true);
        assert (e + t)[|e|..] == t;
      }
      FormDecodeEncode(s[1..]);
      assert [s[0]] + s[1..] == s;
    }
  }

  // ---------------------------------------------------------------- form-urlencoded lists

  /** `URLSearchParams.toString()`: name=value pairs joined by '&', in order. */
  function SerializeQuery(pairs: seq<(string, string)>): (r: string)
    decreases |pairs|
  {
    if pairs == [] then ""
    else if |pairs| == 1 then FormEncode(pairs[0].0) + "=" + FormEncode(pairs[0].1)
    else FormEncode(pairs[0].0) + "=" + FormEncode(pairs[0].1) + "&" + SerializeQuery(pairs[1..])
  }

  /** One `name=value` piece, split at its first '='. */
  function ParsePair(piece: string): (r: Option<(string, string)>)
  {
    var nameText := match IndexOf(piece, '=') case None => piece case Some(i) => piece[..i];
    var valueText := match IndexOf(piece, '=') case None => "" case Some(i) => piece[i + 1..];
    match (FormDecode(nameText), FormDecode(valueText))
    case (Some(n), Some(v)) => Some((n, v))
    case _ => None
  }

  function ParsePieces(pieces: seq<string>): (r: Option<seq<(string, string)>>)
    decreases |pieces|
  {
    if pieces == [] then Some([])
    else if pieces[0] == "" then ParsePieces(pieces[1..])
    else match (ParsePair(pieces[0]), ParsePieces(pieces[1..]))
      case (Some(p), Some(rest)) => Some([p] + rest)
      case _ => None
  }

  /** The form-urlencoded parser: split on '&', skip empty pieces, split each at its first '='. */
  function ParseQuery(q: string): (r: Option<seq<(string, string)>>)
  {
    ParsePieces(Split(q, "&"))
  }

  function PairPieces(pairs: seq<(string, string)>): (r: seq<string>)
    ensures |r| == |pairs|
  {
    seq(|pairs|, i requires 0 <= i < |pairs| => FormEncode(pairs[i].0) + "=" + FormEncode(pairs[i].1))
  }

  lemma {:induction false} SerializeIsJoin(pairs: seq<(string, string)>)
    ensures SerializeQuery(pairs) == Join(PairPieces(pairs), "&")
    decreases |pairs|
  {
    if |pairs| > 1 {
      SerializeIsJoin(pairs[1..]);
      assert PairPieces(pairs)[1..] == PairPieces(pairs[1..]);
    }
  }

  lemma PairRoundTrip(p: (string, string))
    ensures ParsePair(FormEncode(p.0) + "=" + FormEncode(p.1)) == Some(p)
  {
    var n, v := FormEncode(p.0), FormEncode(p.1);
    FormEncodeAlphabet(p.0);
    FormEncodeAlphabet(p.1);
    assert '=' !in n;
    IndexOfConcat(n, '=', v);
    var piece := n + "=" + v;
    assert piece[..|n|] == n;
    assert piece[|n| + 1..] == v;
    FormDecodeEncode(p.0);
    FormDecodeEncode(p.1);
  }

  lemma {:induction false} ParsePairPieces(pairs: seq<(string, string)>)
    ensures ParsePieces(PairPieces(pairs)) == Some(pairs)
    decreases |pairs|
  {
    if pairs != [] {
      var ps := PairPieces(pairs);
      var first := FormEncode(pairs[0].0) + "=" + FormEncode(pairs[0].1);
      assert ps[0] == first;
      PairRoundTrip(pairs[0]);
      assert ps[1..] == PairPieces(pairs[1..]);
      ParsePairPieces(pairs[1..]);
      ParsePiecesCons(ps, pairs[0], pairs[1..]);
      assert [pairs[0]] + pairs[1..] == pairs;
    }
  }

  /** A non-empty first piece that parses, before pieces that parse, gives its pair first. */
  lemma ParsePiecesCons(ps: seq<string>, p: (string, string), tail: seq<(string, string)>)
    requires ps != [] && ps[0] != "" && ParsePair(ps[0]) == Some(p) && ParsePieces(ps[1..]) == Some(tail)
    ensures ParsePieces(ps) == Some([p] + tail)
  {
  }

  /** The serialized query is empty only for no pairs, and spends at least "=" per pair and "&" between pairs. */
  lemma {:induction false} SerializeQueryShape(pairs: seq<(string, string)>)
    ensures SerializeQuery(pairs) == "" <==> pairs == []
    ensures |SerializeQuery(pairs)| >= 2 * |pairs| - 1
    decreases |pairs|
  {
    if |pairs| > 1 {
      SerializeQueryShape(pairs[1..]);
    }
  }

  /** Parsing a serialized parameter list gives back the same pairs in the same order. */
  lemma QueryRoundTrip(pairs: seq<(string, string)>)
    ensures ParseQuery(SerializeQuery(pairs)) == Some(pairs)
  {
    SerializeIsJoin(pairs);
    var ps := PairPieces(pairs);
    if pairs == [] {
      assert SerializeQuery(pairs) == "";
      assert Split("", "&") == [""];
    } else {
      forall i | 0 <= i < |ps| ensures '&' !in ps[i] {
        FormEncodeAlphabet(pairs[i].0);
        FormEncodeAlphabet(pairs[i].1);
      }
      SplitJoinChar(ps, '&');
      ParsePairPieces(pairs);
    }
  }

  /** The serialized list never holds '#', so it cannot run into a URI fragment. */
  lemma {:induction false} SerializeQueryAlphabet(pairs: seq<(string, string)>)
    ensures forall i :: 0 <= i < |SerializeQuery(pairs)| ==>
      IsFormEncodedChar(SerializeQuery(pairs)[i]) || SerializeQuery(pairs)[i] in "=&"
    decreases |pairs|
  {
    if pairs != [] {
      FormEncodeAlphabet(pairs[0].0);
      FormEncodeAlphabet(pairs[0].1);
      SerializeQueryAlphabet(pairs[1..]);
    }
  }

  // ---------------------------------------------------------------- base64

  /** The base64 alphabet: A-Z, a-z, 0-9, '+', '/'. */
  function Base64Char(d: nat): (c: char)
    requires d < 64
  {
    if d < 26 then ('A' as int + d) as char
    else if d < 52 then ('a' as int + d - 26) as char
    else if d < 62 then ('0' as int + d - 52) as char
    else if d == 62 then '+'
    else '/'
  }

  function Base64Value(c: char): (r: Option<nat>)
    ensures r.Some? ==> r.value < 64
  {
    if 'A' <= c <= 'Z' then Some(c as int - 'A' as int)
    else if 'a' <= c <= 'z' then Some(c as int - 'a' as int + 26)
    else if IsDigit(c) then Some(c as int - '0' as int + 52)
    else if c == '+' then Some(62)
    else if c == '/' then Some(63)
    else None
  }

  lemma Base64ValueOfChar(d: nat)
    requires d < 64
    ensures Base64Value(Base64Char(d)) == Some(d)
  {
  }

  /** `btoa` of the bytes read as Latin-1 characters: standard base64 with '=' padding. */
  function Base64Encode(bs: seq<byte>): (r: string)
    ensures |r| == 4 * ((|bs| + 2) / 3)
    decreases |bs|
  {
    if bs == [] then ""
    else if |bs| == 1 then EncodeTail1(bs[0])
    else if |bs| == 2 then EncodeTail2(bs[0], bs[1])
    else EncodeGroup(bs[0], bs[1], bs[2]) + Base64Encode(bs[3..])
  }

  /** Three bytes as four base64 digits of six bits each. */
  function EncodeGroup(b0: byte, b1: byte, b2: byte): (r: string)
    ensures |r| == 4
  {
    SixBitSplit(b0, b1);
    SixBitSplit(b1, b2);
    [Base64Char(b0 / 4), Base64Char((b0 % 4) * 16 + b1 / 16),
     Base64Char((b1 % 16) * 4 + b2 / 64), Base64Char(b2 % 64)]
  }

  function EncodeTail2(b0: byte, b1: byte): (r: string)
    ensures |r| == 4
  {
    SixBitSplit(b0, b1);
    [Base64Char(b0 / 4), Base64Char((b0 % 4) * 16 + b1 / 16), Base64Char((b1 % 16) * 4), '=']
  }

  function EncodeTail1(b0: byte): (r: string)
    ensures |r| == 4
  {
    [Base64Char(b0 / 4), Base64Char((b0 % 4) * 16), '=', '=']
  }

  function Base64DecodeGroup(g: string): (r: Option<seq<byte>>)
    requires |g| == 4
  {
    match (Base64Value(g[0]), Base64Value(g[1]), Base64Value(g[2]), Base64Value(g[3]))
    case (Some(a), Some(b), Some(c), Some(d)) =>
      Some([a * 4 + b / 16, (b % 16) * 16 + c / 4, (c % 4) * 64 + d])
    case (Some(a), Some(b), Some(c), None) =>
      if g[3] == '=' && c % 4 == 0 then Some([a * 4 + b / 16, (b % 16) * 16 + c / 4]) else None
    case (Some(a), Some(b), None, None) =>
      if g[2] == '=' && g[3] == '=' && b % 16 == 0 then Some([a * 4 + b / 16]) else None
    case _ => None
  }

  /** Base64 decoding (`atob`); padding only in the last group. */
  function Base64Decode(s: string): (r: Option<seq<byte>>)
    decreases |s|
  {
    if s == [] then Some([])
    else if |s| < 4 then None
    else match Base64DecodeGroup(s[..4])
      case None => None
      case Some(g) =>
        if |g| < 3 && |s| > 4 then None
        else match Base64Decode(s[4..])
          case None => None
          case Some(rest) => Some(g + rest)
  }

  lemma Base64GroupRoundTrip(b0: byte, b1: byte, b2: byte)
    ensures Base64DecodeGroup(EncodeGroup(b0, b1, b2)) == Some([b0, b1, b2])
  {
    SixBitSplit(b0, b1);
    SixBitSplit(b1, b2);
    var a, b, c, d := b0 / 4, (b0 % 4) * 16 + b1 / 16, (b1 % 16) * 4 + b2 / 64, b2 % 64;
    Base64ValueOfChar(a);
    Base64ValueOfChar(b);
    Base64ValueOfChar(c);
    Base64ValueOfChar(d);
    assert a * 4 + b / 16 == b0;
    assert (b % 16) * 16 + c / 4 == b1;
    assert (c % 4) * 64 + d == b2;
  }

  lemma Base64Tail2RoundTrip(b0: byte, b1: byte)
    ensures Base64DecodeGroup(EncodeTail2(b0, b1)) == Some([b0, b1])
  {
    SixBitSplit(b0, b1);
    SixBitSplit(b1, 0);
    var a, b, c := b0 / 4, (b0 % 4) * 16 + b1 / 16, (b1 % 16) * 4;
    Base64ValueOfChar(a);
    Base64ValueOfChar(b);
    Base64ValueOfChar(c);
    assert c % 4 == 0 && c / 4 == b1 % 16;
    assert a * 4 + b / 16 == b0;
    assert (b % 16) * 16 + c / 4 == b1;
  }

  lemma Base64Tail1RoundTrip(b0: byte)
    ensures Base64DecodeGroup(EncodeTail1(b0)) == Some([b0])
  {
    SixBitSplit(b0, 0);
    Base64ValueOfChar(b0 / 4);
    Base64ValueOfChar((b0 % 4) * 16);
  }

  /** Regrouping a byte's low bits with the next byte's high bits. */
  lemma SixBitSplit(x: byte, y: byte)
    ensures ((x % 4) * 16 + y / 16) / 16 == x % 4
    ensures ((x % 4) * 16 + y / 16) % 16 == y / 16
    ensures ((x % 16) * 4 + y / 64) / 4 == x % 16
    ensures ((x % 16) * 4 + y / 64) % 4 == y / 64
    ensures (x / 4) * 4 + x % 4 == x
    ensures (y / 16) * 16 + y % 16 == y
    ensures (y / 64) * 64 + y % 64 == y
  {
  }

  lemma DecodeLastGroup(s: string)
    requires |s| == 4 && Base64DecodeGroup(s).Some?
    ensures Base64Decode(s) == Base64DecodeGroup(s)
  {
    assert s[..4] == s && s[4..] == [];
    assert Base64DecodeGroup(s).value + [] == Base64DecodeGroup(s).value;
  }

  lemma {:induction false} Base64RoundTrip(bs: seq<byte>)
    ensures Base64Decode(Base64Encode(bs)) == Some(bs)
    decreases |bs|
  {
    if 1 <= |bs| <= 2 {
      Base64ShortRoundTrip(bs);
    } else if |bs| >= 3 {
      assert Base64Encode(bs) == EncodeGroup(bs[0], bs[1], bs[2]) + Base64Encode(bs[3..]);
      Base64GroupRoundTrip(bs[0], bs[1], bs[2]);
      Base64RoundTrip(bs[3..]);
      DecodeFullGroupThenRest(EncodeGroup(bs[0], bs[1], bs[2]), Base64Encode(bs[3..]), [bs[0], bs[1], bs[2]], bs[3..]);
      assert bs == [bs[0], bs[1], bs[2]] + bs[3..];
    }
  }

  /** The one padded group of one or two trailing bytes. */
  lemma Base64ShortRoundTrip(bs: seq<byte>)
    requires 1 <= |bs| <= 2
    ensures Base64Decode(Base64Encode(bs)) == Some(bs)
  {
    if |bs| == 1 {
      Base64OneByte(bs);
    } else {
      Base64TwoBytes(bs);
    }
  }

  lemma Base64OneByte(bs: seq<byte>)
    requires |bs| == 1
    ensures Base64Decode(Base64Encode(bs)) == Some(bs)
  {
    Tail1Decodes(bs[0]);
    assert [bs[0]] == bs;
  }

  lemma Base64TwoBytes(bs: seq<byte>)
    requires |bs| == 2
    ensures Base64Decode(Base64Encode(bs)) == Some(bs)
  {
    Tail2Decodes(bs[0], bs[1]);
    assert [bs[0], bs[1]] == bs;
  }

  lemma Tail1Decodes(b0: byte)
    ensures Base64Decode(EncodeTail1(b0)) == Some([b0])
  {
    Base64Tail1RoundTrip(b0);
    DecodeLastGroup(EncodeTail1(b0));
  }

  lemma Tail2Decodes(b0: byte, b1: byte)
    ensures Base64Decode(EncodeTail2(b0, b1)) == Some([b0, b1])
  {
    Base64Tail2RoundTrip(b0, b1);
    DecodeLastGroup(EncodeTail2(b0, b1));
  }

  lemma DecodeFullGroupThenRest(g: string, rest: string, gb: seq<byte>, rb: seq<byte>)
    requires |g| == 4 && Base64DecodeGroup(g) == Some(gb) && |gb| == 3
    requires Base64Decode(rest) == Some(rb)
    ensures Base64Decode(g + rest) == Some(gb + rb)
  {
    var s := g + rest;
    assert s[..4] == g && s[4..] == rest;
  }
}
