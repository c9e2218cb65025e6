/** Base 64 encoding with the standard alphabet and '=' padding, as defined in
    section 4 of RFC 4648; this is what `Buffer.toString('base64')` produces. */
module Base64 {
  import opened Wrappers
  import opened Utf8

  /** The character for a 6-bit group: A-Z, a-z, 0-9, '+', '/'. */
  function Sextet(i: int): char
    requires 0 <= i < 64
  {
    if i < 26 then ('A' as int + i) as char
    else if i < 52 then ('a' as int + (i - 26)) as char
    else if i < 62 then ('0' as int + (i - 52)) as char
    else if i == 62 then '+'
    else '/'
  }

  /** The 6-bit group a character of the alphabet stands for. */
  function SextetValue(c: char): (r: Option<int>)
    ensures r.Some? ==> 0 <= r.value < 64
  {
    if 'A' <= c <= 'Z' then Some(c as int - 'A' as int)
    else if 'a' <= c <= 'z' then Some(c as int - 'a' as int + 26)
    else if '0' <= c <= '9' then Some(c as int - '0' as int + 52)
    else if c == '+' then Some(62)
    else if c == '/' then Some(63)
    else None
  }

  lemma SextetRoundTrip(i: int)
    requires 0 <= i < 64
    ensures SextetValue(Sextet(i)) == Some(i)
    ensures Sextet(i) != '='
  {
  }

  function Encode(bs: seq<byte>): (s: string)
    ensures |s| == 4 * ((|bs| + 2) / 3)
  {
    if |bs| == 0 then ""
    else if |bs| == 1 then
      [Sextet(bs[0] / 4), Sextet((bs[0] % 4) * 16), '=', '=']
    else if |bs| == 2 then
      [Sextet(bs[0] / 4), Sextet((bs[0] % 4) * 16 + bs[1] / 16), Sextet((bs[1] % 16) * 4), '=']
    else EncodeGroup(bs[0], bs[1], bs[2]) + Encode(bs[3..])
  }

  /** Three bytes, 24 bits, as four characters of six bits each. */
  function EncodeGroup(b0: byte, b1: byte, b2: byte): (s: string)
    ensures |s| == 4
  {
    [Sextet(b0 / 4), Sextet((b0 % 4) * 16 + b1 / 16), Sextet((b1 % 16) * 4 + b2 / 64), Sextet(b2 % 64)]
  }

  /** The three bytes a full group of four alphabet characters stands for. */
  function DecodeGroup(c0: char, c1: char, c2: char, c3: char): Option<seq<byte>> {
    match (SextetValue(c0), SextetValue(c1), SextetValue(c2), SextetValue(c3))
    case (Some(v0), Some(v1), Some(v2), Some(v3)) =>
      Some([v0 * 4 + v1 / 16, (v1 % 16) * 16 + v2 / 4, (v2 % 4) * 64 + v3])
    case _ => None
  }

  /** Reads back a padded base 64 text; `None` for anything else. */
  function Decode(s: string): Option<seq<byte>>
    decreases |s|
  {
    if |s| < 4 then (if |s| == 0 then Some([]) else None)
    else
      var v0, v1, v2 := SextetValue(s[0]), SextetValue(s[1]), SextetValue(s[2]);
      if v0.None? || v1.None? then None
      else if |s| == 4 && s[2] == '=' && s[3] == '=' then
        Some([v0.value * 4 + v1.value / 16])
      else if v2.None? then None
      else if |s| == 4 && s[3] == '=' then
        Some([v0.value * 4 + v1.value / 16, (v1.value % 16) * 16 + v2.value / 4])
      else
        match (DecodeGroup(s[0], s[1], s[2], s[3]), Decode(s[4..]))
        case (Some(group), Some(rest)) => Some(group + rest)
        case _ => None
  }

  lemma GroupArithmetic(b0: byte, b1: byte, b2: byte)
    ensures (b0 / 4) * 4 + ((b0 % 4) * 16 + b1 / 16) / 16 == b0
    ensures (((b0 % 4) * 16 + b1 / 16) % 16) * 16 + ((b1 % 16) * 4 + b2 / 64) / 4 == b1
    ensures (((b1 % 16) * 4 + b2 / 64) % 4) * 64 + b2 % 64 == b2
  {
  }

  lemma DecodeEncodeOne(b0: byte)
    ensures Decode(Encode([b0])) == Some([b0])
  {
    SextetRoundTrip(b0 / 4);
    SextetRoundTrip((b0 % 4) * 16);
    GroupArithmetic(b0, 0, 0);
  }

  lemma DecodeEncodeTwo(b0: byte, b1: byte)
    ensures Decode(Encode([b0, b1])) == Some([b0, b1])
  {
    var s := Encode([b0, b1]);
    SextetRoundTrip(b0 / 4);
    SextetRoundTrip((b0 % 4) * 16 + b1 / 16);
    SextetRoundTrip((b1 % 16) * 4);
    GroupArithmetic(b0, b1, 0);
    assert s[2] != '=';
  }

  lemma DecodeEncodeGroup(b0: byte, b1: byte, b2: byte, tail: string)
    ensures Decode(EncodeGroup(b0, b1, b2) + tail) ==
      match Decode(tail)
      case Some(rest) => Some([b0, b1, b2] + rest)
      case None => None
  {
    var g := EncodeGroup(b0, b1, b2);
    var s := g + tail;
    SextetRoundTrip(b0 / 4);
    SextetRoundTrip((b0 % 4) * 16 + b1 / 16);
    SextetRoundTrip((b1 % 16) * 4 + b2 / 64);
    SextetRoundTrip(b2 % 64);
    GroupArithmetic(b0, b1, b2);
    assert s[..4] == g && s[4..] == tail;
    assert DecodeGroup(s[0], s[1], s[2], s[3]) == Some([b0, b1, b2]);
    assert s[2] != '=' && s[3] != '=';
  }

  lemma SplitGroup(bs: seq<byte>)
    requires |bs| >= 3
    ensures [bs[0], bs[1], bs[2]] + bs[3..] == bs
  {
  }

  lemma DecodeEncodeStep(bs: seq<byte>)
    requires |bs| >= 3 && Decode(Encode(bs[3..])) == Some(bs[3..])
    ensures Decode(Encode(bs)) == Some(bs)
  {
    var tail, e := Encode(bs[3..]), Encode(bs);
    var head: seq<byte> := [bs[0], bs[1], bs[2]];
    assert Decode(e) == Some(head + bs[3..]) by {
      assert e == EncodeGroup(bs[0], bs[1], bs[2]) + tail;
      DecodeEncodeGroup(bs[0], bs[1], bs[2], tail);
    }
    SplitGroup(bs);
  }

  /** Decoding an encoding gives the bytes back. */
  lemma {:induction false} DecodeEncode(bs: seq<byte>)
    ensures Decode(Encode(bs)) == Some(bs)
    decreases |bs|
  {
    if |bs| == 1 {
      DecodeEncodeOne(bs[0]);
      assert bs == [bs[0]];
    } else if |bs| == 2 {
      DecodeEncodeTwo(bs[0], bs[1]);
      assert bs == [bs[0], bs[1]];
    } else if |bs| >= 3 {
      DecodeEncode(bs[3..]);
      DecodeEncodeStep(bs);
    }
  }

  /** Base 64 of the UTF-8 bytes of a text, as `Buffer.from(t).toString('base64')`. */
  function EncodeText(t: string): string {
    Encode(Utf8.Encode(t))
  }

  function DecodeText(s: string): Option<string> {
    match Decode(s)
    case Some(bs) => Utf8.Decode(bs)
    case None => None
  }

  lemma DecodeEncodeText(t: string)
    ensures DecodeText(EncodeText(t)) == Some(t)
  {
    DecodeEncode(Utf8.Encode(t));
    Utf8.DecodeEncode(t);
  }
}
