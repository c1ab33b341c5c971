/** `new URLSearchParams(params).toString()`: the
    application/x-www-form-urlencoded serializer of the WHATWG URL Standard
    (section 5.2, "application/x-www-form-urlencoded serializing"). Each name
    and value is UTF-8 encoded; bytes `*`, `-`, `.`, `_`, ASCII digits and
    letters stay as they are, the space byte becomes `+`, every other byte
    becomes `%` and two upper-case hexadecimal digits; pairs are written
    `name=value` and joined by `&`. The parser of the same section is the
    partner: it gives back the UTF-8 bytes of every name and value. */
module FormEncoding {

  import opened Common

  type Byte = b: int | 0 <= b < 256

  /** The UTF-8 encoding of one Unicode scalar value (RFC 3629, section 3). */
  function Utf8(c: char): (r: seq<Byte>)
    ensures 1 <= |r| <= 4
    ensures |r| == 1 <==> c as int < 0x80
    ensures |r| == 1 ==> r[0] == c as int
    ensures |r| == 2 <==> 0x80 <= c as int < 0x800
    ensures |r| == 3 <==> 0x800 <= c as int < 0x10000
    ensures |r| > 1 ==> forall i :: 0 <= i < |r| ==> r[i] >= 0x80
    ensures |r| == 2 ==> 0xC0 <= r[0] < 0xE0
    ensures |r| == 3 ==> 0xE0 <= r[0] < 0xF0
    ensures |r| == 4 ==> 0xF0 <= r[0] < 0xF8
    ensures forall i :: 1 <= i < |r| ==> 0x80 <= r[i] < 0xC0
  {
    var n := c as int;
    if n < 0x80 then [n]
    else if n < 0x800 then [0xC0 + n / 64, 0x80 + n % 64]
    else if n < 0x10000 then [0xE0 + n / 4096, 0x80 + (n / 64) % 64, 0x80 + n % 64]
    else [0xF0 + n / 262144, 0x80 + (n / 4096) % 64, 0x80 + (n / 64) % 64, 0x80 + n % 64]
  }

  /** The code point a well-formed UTF-8 sequence of one to four bytes denotes. */
  function CodePoint(bs: seq<Byte>): int
    requires 1 <= |bs| <= 4
  {
    var b := seq(|bs|, i requires 0 <= i < |bs| => bs[i] as int);
    if |bs| == 1 then b[0]
    else if |bs| == 2 then (b[0] - 0xC0) * 64 + (b[1] - 0x80)
    else if |bs| == 3 then (b[0] - 0xE0) * 4096 + (b[1] - 0x80) * 64 + (b[2] - 0x80)
    else (b[0] - 0xF0) * 262144 + (b[1] - 0x80) * 4096 + (b[2] - 0x80) * 64 + (b[3] - 0x80)
  }

  /** UTF-8 loses nothing: the bytes of a character decode to that character. */
  lemma Utf8Decodes(c: char)
    ensures CodePoint(Utf8(c)) == c as int
  {
    var n := c as int;
    if n >= 0x10000 {
      assert n == (n / 262144) * 262144 + ((n / 4096) % 64) * 4096 + ((n / 64) % 64) * 64 + n % 64;
    } else if n >= 0x800 {
      assert n == (n / 4096) * 4096 + ((n / 64) % 64) * 64 + n % 64;
    }
  }

  function Utf8String(s: string): (r: seq<Byte>)
    ensures |r| >= |s|
  {
    if |s| == 0 then [] else Utf8(s[0]) + Utf8String(s[1..])
  }

  const HEX := "0123456789ABCDEF"

  /** Bytes the serializer leaves as they are. */
  predicate Unreserved(b: Byte) {
    b == 0x2A || b == 0x2D || b == 0x2E || b == 0x5F
    || (0x30 <= b <= 0x39) || (0x41 <= b <= 0x5A) || (0x61 <= b <= 0x7A)
  }

  /** Characters a serialized component can contain. */
  predicate FormSafe(c: char) {
    (c as int < 256 && Unreserved(c as int)) || c == '+' || c == '%'
  }

  function SerializeByte(b: Byte): (r: string)
    ensures forall i :: 0 <= i < |r| ==> FormSafe(r[i])
  {
    if b == 0x20 then "+"
    else if Unreserved(b) then [b as char]
    else ['%', HEX[b / 16], HEX[b % 16]]
  }

  function Serialize(bs: seq<Byte>): (r: string)
    ensures forall i :: 0 <= i < |r| ==> FormSafe(r[i])
    ensures |r| >= |bs|
  {
    if |bs| == 0 then "" else SerializeByte(bs[0]) + Serialize(bs[1..])
  }

  /** One name or value, as `URLSearchParams` writes it. */
  function EncodeComponent(s: string): (r: string)
    ensures forall i :: 0 <= i < |r| ==> FormSafe(r[i])
    ensures '&' !in r && '=' !in r && '?' !in r && '#' !in r
    ensures |r| >= |s|
  {
    var r := Serialize(Utf8String(s));
    assert forall c :: c in r ==> FormSafe(c);
    r
  }

  predicate IsHex(c: char) {
    ('0' <= c <= '9') || ('A' <= c <= 'F') || ('a' <= c <= 'f')
  }

  function HexValue(c: char): (v: nat)
    requires IsHex(c)
    ensures v < 16
  {
    if '0' <= c <= '9' then c as int - '0' as int
    else if 'A' <= c <= 'F' then c as int - 'A' as int + 10
    else c as int - 'a' as int + 10
  }

  /** The byte sequence a form component denotes: `+` is a space, `%` and
      two hexadecimal digits is one byte, and any other character stands for
      its own UTF-8 bytes (a `%` not followed by two hexadecimal digits is
      kept literally). */
  function Parse(s: string): seq<Byte>
  {
    if |s| == 0 then []
    else if s[0] == '+' then [0x20] + Parse(s[1..])
    else if s[0] == '%' && |s| >= 3 && IsHex(s[1]) && IsHex(s[2]) then
      [HexValue(s[1]) * 16 + HexValue(s[2])] + Parse(s[3..])
    else Utf8(s[0]) + Parse(s[1..])
  }

  lemma HexDigit(d: nat)
    requires d < 16
    ensures IsHex(HEX[d]) && HexValue(HEX[d]) == d
  {
  }

  lemma ParseByte(b: Byte, rest: string)
    ensures Parse(SerializeByte(b) + rest) == [b] + Parse(rest)
  {
    var s := SerializeByte(b) + rest;
    if b == 0x20 {
      assert s[0] == '+' && s[1..] == rest;
    } else if Unreserved(b) {
      assert s[0] == b as char && s[1..] == rest;
    } else {
      HexDigit(b / 16);
      HexDigit(b % 16);
      assert s[0] == '%' && s[1] == HEX[b / 16] && s[2] == HEX[b % 16] && s[3..] == rest;
    }
  }

  /** Parsing a serialized byte sequence gives the bytes back. */
  lemma {:induction false} ParseSerialize(bs: seq<Byte>)
    ensures Parse(Serialize(bs)) == bs
    decreases |bs|
  {
    if |bs| > 0 {
      ParseByte(bs[0], Serialize(bs[1..]));
      ParseSerialize(bs[1..]);
      assert bs == [bs[0]] + bs[1..];
    }
  }

  /** A name or value survives the encoding as its UTF-8 bytes. */
  lemma ComponentRoundTrip(s: string)
    ensures Parse(EncodeComponent(s)) == Utf8String(s)
  {
    ParseSerialize(Utf8String(s));
  }

  function EncodePair(p: (string, string)): (r: string)
    ensures '&' !in r && '?' !in r && '#' !in r
  {
    EncodeComponent(p.0) + "=" + EncodeComponent(p.1)
  }

  /** `s` with every space written as `+`. */
  function Plussed(s: string): string {
    seq(|s|, i requires 0 <= i < |s| => if s[i] == ' ' then '+' else s[i])
  }

  /** Text made of letters, digits, `*`, `-`, `.`, `_` and spaces is sent as
      it is, except that each space becomes `+`: `region=Europe` goes out
      unchanged. */
  lemma PlainComponent(s: string)
    requires forall i :: 0 <= i < |s| ==> s[i] == ' ' || (s[i] as int < 0x80 && Unreserved(s[i] as int))
    ensures EncodeComponent(s) == Plussed(s)
  {
    PlainBytes(s);
  }

  lemma {:induction false} PlainBytes(s: string)
    requires forall i :: 0 <= i < |s| ==> s[i] == ' ' || (s[i] as int < 0x80 && Unreserved(s[i] as int))
    ensures Serialize(Utf8String(s)) == Plussed(s)
    decreases |s|
  {
    if |s| > 0 {
      PlainChar(s[0], Utf8String(s[1..]));
      PlainBytes(s[1..]);
      PlussedFront(s);
    }
  }

  lemma PlussedFront(s: string)
    requires |s| > 0
    ensures Plussed(s) == [if s[0] == ' ' then '+' else s[0]] + Plussed(s[1..])
  {
  }

  /** One plain character in front of already-encoded bytes. */
  lemma PlainChar(c: char, rest: seq<Byte>)
    requires c == ' ' || (c as int < 0x80 && Unreserved(c as int))
    ensures Serialize(Utf8(c) + rest) == [if c == ' ' then '+' else c] + Serialize(rest)
  {
    var b: Byte := c as int;
    assert Utf8(c) == [b];
    assert ([b] + rest)[0] == b && ([b] + rest)[1..] == rest;
  }

  /** `new URLSearchParams(params).toString()` for the entries of `params`,
      in order. */
  function QueryString(params: seq<(string, string)>): (r: string)
    ensures r == "" <==> |params| == 0
    ensures '?' !in r && '#' !in r
  {
    if |params| == 0 then ""
    else if |params| == 1 then EncodePair(params[0])
    else EncodePair(params[0]) + "&" + QueryString(params[1..])
  }

  /** The text of `s` before the first `d`, and the text after it if there is one. */
  function Cut(s: string, d: char): (r: (string, Option<string>))
    ensures d !in r.0
    ensures r.1.None? ==> r.0 == s
    ensures r.1.Some? ==> s == r.0 + [d] + r.1.value
  {
    if |s| == 0 then ("", None)
    else if s[0] == d then ("", Some(s[1..]))
    else
      var t := Cut(s[1..], d);
      assert s == [s[0]] + s[1..];
      ([s[0]] + t.0, t.1)
  }

  lemma {:induction false} CutAt(a: string, d: char, b: Option<string>)
    requires d !in a
    ensures Cut(if b.Some? then a + [d] + b.value else a, d) == (a, b)
    decreases |a|
  {
    var s := if b.Some? then a + [d] + b.value else a;
    if |a| > 0 {
      assert s[0] == a[0] && s[1..] == if b.Some? then a[1..] + [d] + b.value else a[1..];
      CutAt(a[1..], d, b);
      assert a == [a[0]] + a[1..];
    } else if b.Some? {
      assert s[1..] == b.value;
    }
  }

  /** The form parser of the same section: split on `&`, split each piece at
      its first `=`, and decode both halves. */
  function ParseQuery(s: string): seq<(seq<Byte>, seq<Byte>)>
    decreases |s|
  {
    if |s| == 0 then []
    else
      var (piece, rest) := Cut(s, '&');
      var (name, value) := Cut(piece, '=');
      var pair := (Parse(name), Parse(if value.Some? then value.value else ""));
      if rest.None? then [pair] else [pair] + ParseQuery(rest.value)
  }

  function Utf8Pairs(params: seq<(string, string)>): (r: seq<(seq<Byte>, seq<Byte>)>)
    ensures |r| == |params|
  {
    if |params| == 0 then [] else [(Utf8String(params[0].0), Utf8String(params[0].1))] + Utf8Pairs(params[1..])
  }

  /** Parsing the query string gives back every entry, in order, as the
      UTF-8 bytes of its name and value. */
  lemma {:induction false} QueryRoundTrip(params: seq<(string, string)>)
    ensures ParseQuery(QueryString(params)) == Utf8Pairs(params)
    decreases |params|
  {
    if |params| > 0 {
      var p := params[0];
      var k, v := EncodeComponent(p.0), EncodeComponent(p.1);
      var piece := EncodePair(p);
      var rest: Option<string> := if |params| == 1 then None else Some(QueryString(params[1..]));
      CutAt(piece, '&', rest);
      CutAt(k, '=', Some(v));
      ComponentRoundTrip(p.0);
      ComponentRoundTrip(p.1);
      if |params| > 1 {
        QueryRoundTrip(params[1..]);
      }
    }
  }
}
