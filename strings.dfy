/** The string operations the services rely on: JavaScript's rendering of an
    integer as decimal text (`String(n)`, template literals, `toString()`),
    `split('.')`, and `String.prototype.replace` with a global literal pattern. */
module Strings {
  import opened Wrappers

  predicate IsDigit(c: char) {
    '0' <= c <= '9'
  }

  predicate AllDigits(s: string) {
    forall i :: 0 <= i < |s| ==> IsDigit(s[i])
  }

  function DigitChar(d: nat): (c: char)
    requires d < 10
    ensures IsDigit(c)
  {
    ('0' as int + d) as char
  }

  /** Decimal rendering of a natural number, without leading zeros. */
  function NatToString(n: nat): (s: string)
    ensures s != [] && AllDigits(s)
    decreases n
  {
    if n < 10 then [DigitChar(n)] else NatToString(n / 10) + [DigitChar(n % 10)]
  }

  /** Decimal rendering of an integer, with a leading '-' when it is negative. */
  function IntToString(i: int): string {
    if i < 0 then "-" + NatToString(-i) else NatToString(i)
  }

  function DigitsValue(s: string): nat
    requires AllDigits(s)
  {
    if s == [] then 0 else DigitsValue(s[..|s| - 1]) * 10 + (s[|s| - 1] as int - '0' as int)
  }

  /** Reads back a non-empty string of decimal digits. */
  function ParseNat(s: string): Option<nat> {
    if s != [] && AllDigits(s) then Some(DigitsValue(s)) else None
  }

  function ParseInt(s: string): Option<int> {
    if s != [] && s[0] == '-' then
      match ParseNat(s[1..])
      case Some(n) => if n == 0 then None else Some(0 - n as int)
      case None => None
    else ParseNat(s)
  }

  /** Decimal rendering loses nothing: the digits read back as the number. */
  lemma {:induction false} NatToStringRoundTrip(n: nat)
    ensures ParseNat(NatToString(n)) == Some(n)
    decreases n
  {
    if n >= 10 {
      NatToStringRoundTrip(n / 10);
      var s := NatToString(n);
      assert s[..|s| - 1] == NatToString(n / 10);
      assert s[|s| - 1] as int - '0' as int == n % 10;
      assert DigitsValue(s) == (n / 10) * 10 + n % 10;
    }
  }

  lemma IntToStringRoundTrip(i: int)
    ensures ParseInt(IntToString(i)) == Some(i)
  {
    var s := IntToString(i);
    if i < 0 {
      NatToStringRoundTrip(-i);
      assert s == "-" + NatToString(-i);
      assert s[0] == '-' && s[1..] == NatToString(-i);
    } else {
      NatToStringRoundTrip(i);
      assert IsDigit(s[0]);
    }
  }

  /** `s.split(sep)[0]`: the text before the first `sep`, or all of `s`. */
  function FirstSegment(s: string, sep: char): (r: string)
    ensures r <= s && sep !in r
    ensures |r| < |s| ==> s[|r|] == sep
  {
    if s == [] || s[0] == sep then [] else [s[0]] + FirstSegment(s[1..], sep)
  }

  /** A text without `sep` is its own first segment. */
  lemma {:induction false} FirstSegmentWithout(s: string, sep: char)
    requires sep !in s
    ensures FirstSegment(s, sep) == s
    decreases |s|
  {
    if s != [] {
      assert sep !in s[1..];
      FirstSegmentWithout(s[1..], sep);
      assert s == [s[0]] + s[1..];
    }
  }

  /** The text after the first `sep`, when `s` contains one. */
  function AfterFirst(s: string, sep: char): (r: Option<string>)
    ensures r.Some? <==> sep in s
    ensures r.Some? ==> s == FirstSegment(s, sep) + [sep] + r.value
  {
    var head := FirstSegment(s, sep);
    if |head| < |s| then
      assert s == head + [sep] + s[|head| + 1..];
      Some(s[|head| + 1..])
    else
      assert s == head;
      None
  }

  /** Splitting `a + [sep] + b` at its first `sep` gives back `a` and `b` when
      `a` has no `sep`. */
  lemma {:induction false} SplitAtFirst(a: string, sep: char, b: string)
    requires sep !in a
    ensures FirstSegment(a + [sep] + b, sep) == a
    ensures AfterFirst(a + [sep] + b, sep) == Some(b)
    decreases |a|
  {
    var s := a + [sep] + b;
    if a != [] {
      assert s[0] == a[0] && s[1..] == a[1..] + [sep] + b;
      SplitAtFirst(a[1..], sep, b);
      assert a == [a[0]] + a[1..];
    }
  }

  /** The text before and after the last `sep` of `s`. */
  function SplitLast(s: string, sep: char): (r: Option<(string, string)>)
    ensures r.Some? <==> sep in s
    ensures r.Some? ==> s == r.value.0 + [sep] + r.value.1 && sep !in r.value.1
    decreases |s|
  {
    if s == [] then None
    else
      var init, last := s[..|s| - 1], s[|s| - 1];
      assert s == init + [last];
      if last == sep then Some((init, []))
      else match SplitLast(init, sep)
        case Some((a, b)) => Some((a, b + [last]))
        case None => None
  }

  /** Splitting `a + [sep] + b` at its last `sep` gives back `a` and `b` when
      `b` has no `sep`. */
  lemma {:induction false} SplitAtLast(a: string, sep: char, b: string)
    requires sep !in b
    ensures SplitLast(a + [sep] + b, sep) == Some((a, b))
    decreases |b|
  {
    var s := a + [sep] + b;
    if b == [] {
      assert s == a + [sep];
      SplitLastAtEnd(a, sep);
    } else {
      var b' := b[..|b| - 1];
      assert s == (a + [sep] + b') + [b[|b| - 1]];
      SplitAtLast(a, sep, b');
      SplitLastExtend(a + [sep] + b', b[|b| - 1], sep, a, b');
      assert b == b' + [b[|b| - 1]];
    }
  }

  lemma SplitLastAtEnd(a: string, sep: char)
    ensures SplitLast(a + [sep], sep) == Some((a, []))
  {
    assert (a + [sep])[..|a|] == a;
  }

  lemma SplitLastExtend(init: string, last: char, sep: char, a: string, b: string)
    requires last != sep && SplitLast(init, sep) == Some((a, b))
    ensures SplitLast(init + [last], sep) == Some((a, b + [last]))
  {
    assert (init + [last])[..|init|] == init;
  }

  /** `s.split(sep)[1] || ''`: the segment between the first and the second
      `sep`, or the empty string when `s` has no `sep`. */
  function SecondSegment(s: string, sep: char): string {
    match AfterFirst(s, sep)
    case Some(rest) => FirstSegment(rest, sep)
    case None => ""
  }

  predicate OccursAt(s: string, p: string, i: int) {
    0 <= i && i + |p| <= |s| && s[i..i + |p|] == p
  }

  predicate Occurs(s: string, p: string) {
    exists i | 0 <= i <= |s| :: OccursAt(s, p, i)
  }

  /** `s.replace(new RegExp(p, 'g'), v)` for a pattern `p` that matches only
      itself: every leftmost non-overlapping occurrence of `p`, scanning left
      to right, is replaced by `v`; the replaced text is not scanned again. */
  function ReplaceAll(s: string, p: string, v: string): string
    requires p != []
    decreases |s|
  {
    if |s| < |p| then s
    else if s[..|p|] == p then v + ReplaceAll(s[|p|..], p, v)
    else [s[0]] + ReplaceAll(s[1..], p, v)
  }

  lemma NotOccursTail(s: string, p: string)
    requires s != [] && !Occurs(s, p)
    ensures !Occurs(s[1..], p)
  {
    forall i | 0 <= i <= |s[1..]|
      ensures !OccursAt(s[1..], p, i)
    {
      if i + |p| <= |s[1..]| {
        assert s[1..][i..i + |p|] == s[i + 1..i + 1 + |p|];
        assert !OccursAt(s, p, i + 1);
      }
    }
  }

  /** A pattern that does not occur leaves the text unchanged. */
  lemma {:induction false} ReplaceAllAbsent(s: string, p: string, v: string)
    requires p != [] && !Occurs(s, p)
    ensures ReplaceAll(s, p, v) == s
    decreases |s|
  {
    if |s| >= |p| {
      assert !OccursAt(s, p, 0);
      assert s[0..|p|] == s[..|p|];
      NotOccursTail(s, p);
      ReplaceAllAbsent(s[1..], p, v);
      assert s == [s[0]] + s[1..];
    }
  }

  /** Replacing a pattern by itself is the identity. */
  lemma {:induction false} ReplaceAllSelf(s: string, p: string)
    requires p != []
    ensures ReplaceAll(s, p, p) == s
    decreases |s|
  {
    if |s| >= |p| {
      if s[..|p|] == p {
        ReplaceAllSelf(s[|p|..], p);
        assert s == s[..|p|] + s[|p|..];
      } else {
        ReplaceAllSelf(s[1..], p);
        assert s == [s[0]] + s[1..];
      }
    }
  }

  /** A text that is exactly the pattern is replaced as a whole. */
  lemma ReplaceAllWhole(p: string, v: string)
    requires p != []
    ensures ReplaceAll(p, p, v) == v
  {
    assert p[..|p|] == p;
    assert p[|p|..] == [];
  }

  /** A text without the character `c` contains no pattern that starts with `c`. */
  lemma AbsentCharNoOccurrence(s: string, p: string)
    requires p != [] && p[0] !in s
    ensures !Occurs(s, p)
  {
  }
}
