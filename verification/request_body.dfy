/** The JSON text of the analysis request body,
      {"image":{"inlineData":{"data":<base64>,"mimeType":"image/jpeg"}}}
    as `JSON.stringify` writes it for a Dafny string (whose characters are
    Unicode scalar values, so no lone surrogate can occur), together with a
    reader for that text that serves as its inverse. */
module RequestBody {
  import opened Wrappers

  /** The `inlineData` object: the image bytes in base64 and their media type. */
  datatype InlineData = InlineData(data: string, mimeType: string)

  /** Characters below U+0020 may not appear raw inside a JSON string. */
  predicate IsControl(c: char) {
    c as int < 0x20
  }

  /** Lower-case hexadecimal digit, as used by `JSON.stringify` in `\u00xx`. */
  function HexDigit(d: nat): (c: char)
    requires d < 16
    ensures '0' <= c <= '9' || 'a' <= c <= 'f'
  {
    if d < 10 then ('0' as int + d) as char else ('a' as int + d - 10) as char
  }

  /** The value of a hexadecimal digit of either case. */
  function HexValue(c: char): (r: Option<nat>)
    ensures r.Some? ==> r.value < 16
  {
    if '0' <= c <= '9' then Some(c as int - '0' as int)
    else if 'a' <= c <= 'f' then Some(c as int - 'a' as int + 10)
    else if 'A' <= c <= 'F' then Some(c as int - 'A' as int + 10)
    else None
  }

  lemma HexValueOfDigit(d: nat)
    requires d < 16
    ensures HexValue(HexDigit(d)) == Some(d)
  {
  }

  /** How `JSON.stringify` writes one character inside a string literal. */
  function EscapeChar(c: char): (r: string)
    ensures 1 <= |r|
    ensures forall i :: 0 <= i < |r| ==> !IsControl(r[i])
    ensures r[0] != '"'
    ensures |r| == 1 <==> !IsControl(c) && c != '"' && c != '\\'
  {
    if c == '"' then ['\\', '"']
    else if c == '\\' then ['\\', '\\']
    else if c as int == 0x08 then ['\\', 'b']
    else if c as int == 0x0C then ['\\', 'f']
    else if c as int == 0x0A then ['\\', 'n']
    else if c as int == 0x0D then ['\\', 'r']
    else if c as int == 0x09 then ['\\', 't']
    else if IsControl(c) then ['\\', 'u', '0', '0', HexDigit(c as int / 16), HexDigit(c as int % 16)]
    else [c]
  }

  /** The body of a JSON string literal for `s`, without the enclosing quotes. */
  function Escape(s: string): (r: string)
    ensures |s| <= |r|
    ensures forall i :: 0 <= i < |r| ==> !IsControl(r[i])
    ensures forall i :: 0 <= i < |r| ==> r[i] == '"' ==> 0 < i && r[i - 1] == '\\'
  {
    if s == [] then []
    else EscapeChar(s[0]) + Escape(s[1..])
  }

  /** A JSON string literal for `s`. */
  function Quote(s: string): string {
    ['"'] + Escape(s) + ['"']
  }

  /** Reads one escape sequence, `u` being the text right after a backslash.
      Returns the character it denotes and how many characters of `u` it spans. */
  function ReadEscape(u: string): (r: Option<(char, nat)>)
    ensures r.Some? ==> 1 <= r.value.1 <= |u|
  {
    if |u| == 0 then None
    else if u[0] == '"' then Some(('"', 1))
    else if u[0] == '\\' then Some(('\\', 1))
    else if u[0] == '/' then Some(('/', 1))
    else if u[0] == 'b' then Some((0x08 as char, 1))
    else if u[0] == 'f' then Some((0x0C as char, 1))
    else if u[0] == 'n' then Some((0x0A as char, 1))
    else if u[0] == 'r' then Some((0x0D as char, 1))
    else if u[0] == 't' then Some((0x09 as char, 1))
    else if u[0] == 'u' && |u| >= 5 then
      match (HexValue(u[1]), HexValue(u[2]), HexValue(u[3]), HexValue(u[4]))
      case (Some(a), Some(b), Some(c), Some(d)) =>
        var v := 4096 * a + 256 * b + 16 * c + d;
        if 0xD800 <= v < 0xE000 then None else Some((v as char, 5))
      case _ => None
    else None
  }

  /** Reads the rest of a JSON string literal whose opening quote has already
      been consumed: returns the decoded characters and the text after the
      closing quote, or None when the literal is malformed or unterminated. */
  function ReadString(t: string): (r: Option<(string, string)>)
    ensures r.Some? ==> |r.value.1| < |t|
    decreases |t|
  {
    if |t| == 0 then None
    else if t[0] == '"' then Some(([], t[1..]))
    else if IsControl(t[0]) then None
    else if t[0] != '\\' then
      match ReadString(t[1..])
      case None => None
      case Some((s, rest)) => Some(([t[0]] + s, rest))
    else
      match ReadEscape(t[1..])
      case None => None
      case Some((c, n)) =>
        match ReadString(t[1 + n..])
        case None => None
        case Some((s, rest)) => Some(([c] + s, rest))
  }

  /** A `\u00xx` escape reads back to the control character it encodes. */
  lemma ReadUnicodeEscape(c: char)
    requires IsControl(c)
    ensures ReadEscape(['u', '0', '0', HexDigit(c as int / 16), HexDigit(c as int % 16)]) == Some((c, 5))
  {
    var n := c as int;
    HexValueOfDigit(n / 16);
    HexValueOfDigit(n % 16);
    assert 4096 * 0 + 256 * 0 + 16 * (n / 16) + n % 16 == n;
  }

  /** Reading an escaped character consumes exactly its escape and yields it back. */
  lemma ReadEscapedChar(c: char, tail: string)
    ensures ReadString(EscapeChar(c) + tail)
            == match ReadString(tail)
               case None => None
               case Some((s, rest)) => Some(([c] + s, rest))
  {
    var t := EscapeChar(c) + tail;
    if |EscapeChar(c)| == 1 {
      assert t[0] == c && t[1..] == tail;
    } else if IsControl(c) && c as int !in {0x08, 0x09, 0x0A, 0x0C, 0x0D} {
      var u := ['u', '0', '0', HexDigit(c as int / 16), HexDigit(c as int % 16)];
      assert t == ['\\'] + u + tail;
      assert t[1..] == u + tail;
      ReadUnicodeEscape(c);
      assert ReadEscape(t[1..]) == ReadEscape(u);
      assert t[1 + 5..] == tail;
    } else {
      assert t[1..][0] == EscapeChar(c)[1];
      assert t[2..] == tail;
    }
  }

  /** Reading back an escaped string up to its closing quote recovers the
      string and leaves the text after the quote untouched. */
  lemma {:induction false} ReadEscaped(s: string, rest: string)
    ensures ReadString(Escape(s) + ['"'] + rest) == Some((s, rest))
  {
    if s == [] {
      assert Escape(s) + ['"'] + rest == ['"'] + rest;
    } else {
      var tail := Escape(s[1..]) + ['"'] + rest;
      assert Escape(s) + ['"'] + rest == EscapeChar(s[0]) + tail;
      ReadEscaped(s[1..], rest);
      ReadEscapedChar(s[0], tail);
      assert [s[0]] + s[1..] == s;
    }
  }

  const BodyHead: string := "{\"image\":{\"inlineData\":{\"data\":"
  const BodyMiddle: string := ",\"mimeType\":"
  const BodyTail: string := "}}}"

  /** The serialized request body: the keys in the order the object literal
      lists them, no whitespace. */
  function Encode(d: InlineData): string {
    BodyHead + Quote(d.data) + BodyMiddle + Quote(d.mimeType) + BodyTail
  }

  /** Reads the part of a request body after the data literal: the
      `mimeType` key, its string literal and the closing braces. */
  function ReadMimeType(rest: string): Option<string> {
    if |rest| <= |BodyMiddle| || rest[..|BodyMiddle|] != BodyMiddle || rest[|BodyMiddle|] != '"' then None
    else
      match ReadString(rest[|BodyMiddle| + 1..])
      case None => None
      case Some((mimeType, rest')) =>
        if rest' == BodyTail then Some(mimeType) else None
  }

  /** Reads a request body of the shape `Encode` writes. */
  function Decode(t: string): Option<InlineData> {
    if |t| <= |BodyHead| || t[..|BodyHead|] != BodyHead || t[|BodyHead|] != '"' then None
    else
      match ReadString(t[|BodyHead| + 1..])
      case None => None
      case Some((data, rest)) =>
        match ReadMimeType(rest)
        case None => None
        case Some(mimeType) => Some(InlineData(data, mimeType))
  }

  /** A string literal written after `head` is found right after it and reads
      back to the quoted string, leaving what follows it. */
  lemma ReadQuoted(head: string, s: string, rest: string)
    ensures var t := head + Quote(s) + rest;
            && |head| < |t| && t[..|head|] == head && t[|head|] == '"'
            && ReadString(t[|head| + 1..]) == Some((s, rest))
  {
    var t := head + Quote(s) + rest;
    assert t == head + (['"'] + (Escape(s) + ['"'] + rest));
    assert t[|head| + 1..] == Escape(s) + ['"'] + rest;
    ReadEscaped(s, rest);
  }

  /** The text after the data literal reads back to the media type. */
  lemma ReadMimeTypeEncoded(mimeType: string)
    ensures ReadMimeType(BodyMiddle + Quote(mimeType) + BodyTail) == Some(mimeType)
  {
    ReadQuoted(BodyMiddle, mimeType, BodyTail);
  }

  /** The body the client sends always decodes to the inline data it was built
      from, whatever characters the data holds. */
  lemma DecodeEncode(d: InlineData)
    ensures Decode(Encode(d)) == Some(d)
  {
    var t := Encode(d);
    var afterData := BodyMiddle + Quote(d.mimeType) + BodyTail;
    assert t == BodyHead + Quote(d.data) + afterData;
    ReadQuoted(BodyHead, d.data, afterData);
    assert ReadString(t[|BodyHead| + 1..]) == Some((d.data, afterData));
    ReadMimeTypeEncoded(d.mimeType);
  }
}
