/** Percent-encoding of text as UTF-8 bytes, in the two flavours the services
    use: JavaScript's `encodeURIComponent` (the unreserved characters of
    section 2.3 of RFC 3986 plus `!*'()` pass through) and the
    application/x-www-form-urlencoded serializer behind `URLSearchParams`
    (section 5.2 of the WHATWG URL Standard: alphanumerics and `*-._` pass
    through, a space becomes '+'). */
module UriComponent {
  import opened Wrappers
  import Utf8
  import Strings

  datatype Mode = Component | Form

  predicate IsAlphaNum(c: char) {
    ('A' <= c <= 'Z') || ('a' <= c <= 'z') || ('0' <= c <= '9')
  }

  /** The characters a mode writes as themselves. */
  predicate Kept(mode: Mode, c: char) {
    IsAlphaNum(c) || c == '-' || c == '_' || c == '.' || c == '*'
    || (mode == Component && (c == '!' || c == '~' || c == '\'' || c == '(' || c == ')'))
  }

  /** The characters an encoder can produce. */
  predicate Emitted(mode: Mode, c: char) {
    Kept(mode, c) || c == '%' || (mode == Form && c == '+')
  }

  function HexDigit(d: int): (c: char)
    requires 0 <= d < 16
    ensures IsAlphaNum(c)
  {
    if d < 10 then ('0' as int + d) as char else ('A' as int + (d - 10)) as char
  }

  /** The value of a hexadecimal digit, in either case. */
  function HexValue(c: char): (r: Option<int>)
    ensures r.Some? ==> 0 <= r.value < 16
  {
    if '0' <= c <= '9' then Some(c as int - '0' as int)
    else if 'A' <= c <= 'F' then Some(c as int - 'A' as int + 10)
    else if 'a' <= c <= 'f' then Some(c as int - 'a' as int + 10)
    else None
  }

  /** `%XX` for each byte, upper-case hexadecimal. */
  function PercentBytes(bs: seq<Utf8.byte>): (s: string)
    ensures |s| == 3 * |bs|
    ensures forall i :: 0 <= i < |s| ==> Emitted(Component, s[i]) && Emitted(Form, s[i])
  {
    if bs == [] then [] else ['%', HexDigit(bs[0] / 16), HexDigit(bs[0] % 16)] + PercentBytes(bs[1..])
  }

  function EncodeChar(mode: Mode, c: char): (s: string)
    ensures forall i :: 0 <= i < |s| ==> Emitted(mode, s[i])
  {
    if Kept(mode, c) then [c]
    else if mode == Form && c == ' ' then "+"
    else PercentBytes(Utf8.EncodeChar(c))
  }

  function Encode(mode: Mode, s: string): (r: string)
    ensures forall i :: 0 <= i < |r| ==> Emitted(mode, r[i])
  {
    if s == [] then [] else EncodeChar(mode, s[0]) + Encode(mode, s[1..])
  }

  /** `encodeURIComponent(s)`. */
  function EncodeComponent(s: string): string {
    Encode(Component, s)
  }

  function Prepend(bs: seq<Utf8.byte>, r: Option<seq<Utf8.byte>>): Option<seq<Utf8.byte>> {
    match r
    case Some(rest) => Some(bs + rest)
    case None => None
  }

  /** The bytes a percent-encoded text stands for; `None` for a malformed
      escape or a character the mode never writes as itself. */
  function PercentDecode(mode: Mode, s: string): Option<seq<Utf8.byte>>
    decreases |s|
  {
    if s == [] then Some([])
    else if s[0] == '%' then
      if |s| >= 3 && HexValue(s[1]).Some? && HexValue(s[2]).Some? then
        Prepend([HexValue(s[1]).value * 16 + HexValue(s[2]).value], PercentDecode(mode, s[3..]))
      else None
    else if mode == Form && s[0] == '+' then Prepend([0x20], PercentDecode(mode, s[1..]))
    else if Kept(mode, s[0]) then Prepend([s[0] as int], PercentDecode(mode, s[1..]))
    else None
  }

  /** `decodeURIComponent`, and the form decoder when `mode` is `Form`. */
  function Decode(mode: Mode, s: string): Option<string> {
    match PercentDecode(mode, s)
    case Some(bs) => Utf8.Decode(bs)
    case None => None
  }

  lemma {:induction false} PercentDecodeBytes(mode: Mode, bs: seq<Utf8.byte>, rest: string)
    ensures PercentDecode(mode, PercentBytes(bs) + rest) == Prepend(bs, PercentDecode(mode, rest))
    decreases |bs|
  {
    if bs != [] {
      var tail := PercentBytes(bs[1..]) + rest;
      assert PercentBytes(bs) + rest == ['%', HexDigit(bs[0] / 16), HexDigit(bs[0] % 16)] + tail;
      PercentDecodeEscape(mode, bs[0], tail);
      PercentDecodeBytes(mode, bs[1..], rest);
      PrependTwice(bs[0], bs[1..], PercentDecode(mode, rest));
      assert [bs[0]] + bs[1..] == bs;
    } else {
      assert PercentBytes(bs) + rest == rest;
      PrependTwice(0, [], PercentDecode(mode, rest));
    }
  }

  /** One escape decodes to the byte it was written from. */
  lemma PercentDecodeEscape(mode: Mode, b: Utf8.byte, tail: string)
    ensures PercentDecode(mode, ['%', HexDigit(b / 16), HexDigit(b % 16)] + tail) == Prepend([b], PercentDecode(mode, tail))
  {
    var s := ['%', HexDigit(b / 16), HexDigit(b % 16)] + tail;
    assert s[3..] == tail;
    assert HexValue(s[1]) == Some(b / 16) && HexValue(s[2]) == Some(b % 16);
  }

  lemma PrependTwice(b: Utf8.byte, bs: seq<Utf8.byte>, r: Option<seq<Utf8.byte>>)
    ensures Prepend([b], Prepend(bs, r)) == Prepend([b] + bs, r)
    ensures Prepend([], r) == r
  {
    if r.Some? {
      assert [b] + (bs + r.value) == ([b] + bs) + r.value;
      assert [] + r.value == r.value;
    }
  }

  lemma PercentDecodeChar(mode: Mode, c: char, rest: string)
    ensures PercentDecode(mode, EncodeChar(mode, c) + rest) == Prepend(Utf8.EncodeChar(c), PercentDecode(mode, rest))
  {
    var s := EncodeChar(mode, c) + rest;
    if Kept(mode, c) {
      assert Utf8.EncodeChar(c) == [c as int];
      assert s[0] == c && s[1..] == rest;
    } else if mode == Form && c == ' ' {
      assert Utf8.EncodeChar(c) == [0x20];
      assert s[0] == '+' && s[1..] == rest;
    } else {
      PercentDecodeBytes(mode, Utf8.EncodeChar(c), rest);
    }
  }

  /** Percent-decoding an encoding gives the UTF-8 bytes of the text. */
  lemma {:induction false} PercentDecodeEncode(mode: Mode, s: string)
    ensures PercentDecode(mode, Encode(mode, s)) == Some(Utf8.Encode(s))
    decreases |s|
  {
    if s != [] {
      PercentDecodeChar(mode, s[0], Encode(mode, s[1..]));
      PercentDecodeEncode(mode, s[1..]);
    }
  }

  /** Decoding an encoding gives the text back, in both modes. */
  lemma DecodeEncode(mode: Mode, s: string)
    ensures Decode(mode, Encode(mode, s)) == Some(s)
  {
    PercentDecodeEncode(mode, s);
    Utf8.DecodeEncode(s);
  }

  /** `encodeURIComponent` never writes the separators of a URL's authority. */
  lemma ComponentHasNoDelimiters(s: string)
    ensures ':' !in EncodeComponent(s) && '@' !in EncodeComponent(s) && '/' !in EncodeComponent(s)
  {
    var r := EncodeComponent(s);
    forall i | 0 <= i < |r|
      ensures r[i] != ':' && r[i] != '@' && r[i] != '/'
    {
      assert Emitted(Component, r[i]);
    }
  }

  /** The form serializer never writes the separators of a query string. */
  lemma FormHasNoSeparators(s: string)
    ensures '&' !in Encode(Form, s) && '=' !in Encode(Form, s)
  {
    var r := Encode(Form, s);
    forall i | 0 <= i < |r|
      ensures r[i] != '&' && r[i] != '='
    {
      assert Emitted(Form, r[i]);
    }
  }

  /** One `name=value` pair of a query string. */
  function FormPair(pair: (string, string)): string {
    Encode(Form, pair.0) + "=" + Encode(Form, pair.1)
  }

  /** `new URLSearchParams(pairs).toString()`: the pairs in order, joined
      by '&'. */
  function Query(pairs: seq<(string, string)>): string {
    if pairs == [] then ""
    else if |pairs| == 1 then FormPair(pairs[0])
    else FormPair(pairs[0]) + "&" + Query(pairs[1..])
  }

  /** A `name=value` pair read back. */
  function ParsePair(s: string): Option<(string, string)> {
    match Strings.AfterFirst(s, '=')
    case None => None
    case Some(value) =>
      match (Decode(Form, Strings.FirstSegment(s, '=')), Decode(Form, value))
      case (Some(n), Some(v)) => Some((n, v))
      case _ => None
  }

  /** A non-empty query string read back into its pairs. */
  function ParseQuery(s: string): Option<seq<(string, string)>>
    decreases |s|
  {
    var pair := ParsePair(Strings.FirstSegment(s, '&'));
    match Strings.AfterFirst(s, '&')
    case None => if pair.Some? then Some([pair.value]) else None
    case Some(rest) =>
      match (pair, ParseQuery(rest))
      case (Some(p), Some(ps)) => Some([p] + ps)
      case _ => None
  }

  lemma ParseFormPair(pair: (string, string))
    ensures '&' !in FormPair(pair)
    ensures ParsePair(FormPair(pair)) == Some(pair)
  {
    FormHasNoSeparators(pair.0);
    FormHasNoSeparators(pair.1);
    var n, v := Encode(Form, pair.0), Encode(Form, pair.1);
    assert FormPair(pair) == n + ['='] + v;
    Strings.SplitAtFirst(n, '=', v);
    DecodeEncode(Form, pair.0);
    DecodeEncode(Form, pair.1);
  }

  /** Reading a query string gives back the pairs it was written from. */
  lemma {:induction false} ParseQueryOfQuery(pairs: seq<(string, string)>)
    requires pairs != []
    ensures ParseQuery(Query(pairs)) == Some(pairs)
    decreases |pairs|
  {
    ParseFormPair(pairs[0]);
    var head := FormPair(pairs[0]);
    if |pairs| == 1 {
      ParseLastPair(head, pairs);
    } else {
      QueryOfMore(pairs);
      ParseQueryOfQuery(pairs[1..]);
      ParseFirstPair(head, Query(pairs[1..]), pairs);
    }
  }

  lemma QueryOfMore(pairs: seq<(string, string)>)
    requires |pairs| >= 2
    ensures Query(pairs) == FormPair(pairs[0]) + ['&'] + Query(pairs[1..])
  {
  }

  /** A query string of one pair. */
  lemma ParseLastPair(s: string, pairs: seq<(string, string)>)
    requires |pairs| == 1 && '&' !in s && ParsePair(s) == Some(pairs[0])
    ensures ParseQuery(s) == Some(pairs)
  {
    Strings.FirstSegmentWithout(s, '&');
    assert pairs == [pairs[0]];
  }

  /** A query string of a pair followed by more. */
  lemma ParseFirstPair(head: string, rest: string, pairs: seq<(string, string)>)
    requires pairs != [] && '&' !in head && ParsePair(head) == Some(pairs[0]) && ParseQuery(rest) == Some(pairs[1..])
    ensures ParseQuery(head + ['&'] + rest) == Some(pairs)
  {
    Strings.SplitAtFirst(head, '&', rest);
    HeadAndTail(pairs);
  }

  lemma HeadAndTail<T>(s: seq<T>)
    requires s != []
    ensures [s[0]] + s[1..] == s
  {
  }
}
