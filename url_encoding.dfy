/**
 * urlEncoded: java.net.URLEncoder.encode(s, "US-ASCII"), the
 * application/x-www-form-urlencoded serialisation of section 17.13.4.1 of
 * HTML 4.01, with US-ASCII as the character encoding.
 */
module UrlEncoding {
  import opened Wrappers

  predicate IsAscii(s: string) {
    forall k :: 0 <= k < |s| ==> s[k] as int < 128
  }

  /** The characters URLEncoder leaves as they are. */
  predicate IsUnreserved(c: char) {
    || 'a' <= c <= 'z'
    || 'A' <= c <= 'Z'
    || '0' <= c <= '9'
    || c == '.' || c == '-' || c == '*' || c == '_'
  }

  /** The characters an encoded string is made of. */
  predicate IsEncodedChar(c: char) {
    IsUnreserved(c) || c == '+' || c == '%'
  }

  const HEX_DIGITS: string := "0123456789ABCDEF"


  /**
   * One character: unreserved ones unchanged, space as '+', another ASCII
   * character as '%' and two hex digits of its code, and a character outside
   * US-ASCII as the charset's replacement byte '?', that is "%3F".
   */
  function EncodeChar(c: char): string {
    if IsUnreserved(c) then [c]
    else if c == ' ' then "+"
    else if c as int < 128 then ['%', Hex(c as int / 16), Hex(c as int % 16)]
    else "%3F"
  }

  function UrlEncode(s: string): string {
    if s == [] then [] else EncodeChar(s[0]) + UrlEncode(s[1..])
  }

  predicate AllEncodedChars(t: string) {
    forall k :: 0 <= k < |t| ==> IsEncodedChar(t[k])
  }

  /** The output holds only letters, digits and the characters . - * _ + %. */
  lemma {:induction false} UrlEncodeAlphabet(s: string)
    ensures AllEncodedChars(UrlEncode(s))
  {
    if s != [] {
      UrlEncodeAlphabet(s[1..]);
      var e, r := EncodeChar(s[0]), UrlEncode(s[1..]);
      assert AllEncodedChars(e);
      assert forall k :: 0 <= k < |e + r| ==> (e + r)[k] == if k < |e| then e[k] else r[k - |e|];
    }
  }

  /** So an encoded string never holds a quote and cannot end a quoted literal early. */
  lemma EncodedHasNoQuote(s: string)
    ensures '\'' !in UrlEncode(s)
  {
    UrlEncodeAlphabet(s);
  }

  /** What reaches the byte stage: each non-ASCII character replaced by '?'. */
  function ToUsAscii(s: string): string {
    if s == [] then [] else [if s[0] as int < 128 then s[0] else '?'] + ToUsAscii(s[1..])
  }

  lemma {:induction false} ToUsAsciiOfAscii(s: string)
    requires IsAscii(s)
    ensures ToUsAscii(s) == s
  {
    if s != [] {
      ToUsAsciiOfAscii(s[1..]);
    }
  }

  function HexValue(c: char): Option<nat> {
    if '0' <= c <= '9' then Some(c as int - '0' as int)
    else if 'A' <= c <= 'F' then Some(c as int - 'A' as int + 10)
    else None
  }

  function Prepend(c: char, r: Option<string>): Option<string> {
    match r
    case None => None
    case Some(s) => Some([c] + s)
  }

  /** An upper-case hexadecimal digit, as URLEncoder writes them. */
  function Hex(n: nat): (c: char)
    requires n < 16
    ensures ('0' <= c <= '9' || 'A' <= c <= 'F') && HexValue(c) == Some(n)
  {
    HEX_DIGITS[n]
  }

  /** The inverse of UrlEncode: '+' is a space, "%HH" a character, anything else not encoded fails. */
  function UrlDecode(t: string): Option<string>
    decreases |t|
  {
    if t == [] then Some([])
    else if t[0] == '+' then Prepend(' ', UrlDecode(t[1..]))
    else if t[0] == '%' then
      if |t| >= 3 && HexValue(t[1]).Some? && HexValue(t[2]).Some? && HexValue(t[1]).value < 8 then
        Prepend((HexValue(t[1]).value * 16 + HexValue(t[2]).value) as char, UrlDecode(t[3..]))
      else None
    else if IsUnreserved(t[0]) then Prepend(t[0], UrlDecode(t[1..]))
    else None
  }

  lemma {:induction false} DecodeEncodedChar(c: char, rest: string)
    ensures UrlDecode(EncodeChar(c) + rest) == Prepend(if c as int < 128 then c else '?', UrlDecode(rest))
  {
    var t := EncodeChar(c) + rest;
    if IsUnreserved(c) {
      assert t[1..] == rest;
    } else if c == ' ' {
      assert t[1..] == rest;
    } else {
      var code := if c as int < 128 then c as int else '?' as int;
      var hi, lo := Hex(code / 16), Hex(code % 16);
      assert t[3..] == rest;
      assert (code / 16 * 16 + code % 16) as char == if c as int < 128 then c else '?';
    }
  }

  /** Decoding an encoded string gives the string back, with non-ASCII characters as '?'. */
  lemma {:induction false} DecodeEncode(s: string)
    ensures UrlDecode(UrlEncode(s)) == Some(ToUsAscii(s))
  {
    if s != [] {
      DecodeEncodedChar(s[0], UrlEncode(s[1..]));
      DecodeEncode(s[1..]);
    }
  }

  /** For ASCII input the encoding is lossless. */
  lemma DecodeEncodeAscii(s: string)
    requires IsAscii(s)
    ensures UrlDecode(UrlEncode(s)) == Some(s)
  {
    DecodeEncode(s);
    ToUsAsciiOfAscii(s);
  }
}
