/**
 * String helpers with Python's meaning: `str.join`, `str.split` on one
 * character, `str.lower` on ASCII, decimal rendering (`str(n)`, `f"{n:02d}"`)
 * and `int(...)` on decimal text. Each rendering has its parser, and the
 * round-trip lemmas below connect them.
 */
module Text {
  import opened Wrappers

  /** `sep.join(parts)`. */
  function Join(parts: seq<string>, sep: string): (r: string)
    ensures parts == [] ==> r == ""
    ensures |parts| == 1 ==> r == parts[0]
    decreases |parts|
  {
    if parts == [] then ""
    else if |parts| == 1 then parts[0]
    else parts[0] + sep + Join(parts[1..], sep)
  }

  /** `s.split(c)`: at least one part, none of which contains `c`. */
  function Split(s: string, c: char): (r: seq<string>)
    ensures |r| >= 1
    ensures forall k :: 0 <= k < |r| ==> c !in r[k]
    decreases |s|
  {
    if s == [] then [""]
    else
      var rest := Split(s[1..], c);
      if s[0] == c then [""] + rest else [[s[0]] + rest[0]] + rest[1..]
  }

  lemma {:induction false} SplitWithoutSeparator(s: string, c: char)
    requires c !in s
    ensures Split(s, c) == [s]
    decreases |s|
  {
    if s != [] {
      assert c !in s[1..];
      SplitWithoutSeparator(s[1..], c);
      assert [s[0]] + s[1..] == s;
    }
  }

  /** Splitting `a + c + t` on `c` yields `a` followed by the parts of `t`. */
  lemma {:induction false} SplitAfterPrefix(a: string, c: char, t: string)
    requires c !in a
    ensures Split(a + [c] + t, c) == [a] + Split(t, c)
    decreases |a|
  {
    var s := a + [c] + t;
    if a == [] {
      assert s[0] == c && s[1..] == t;
    } else {
      assert s[0] == a[0] && s[1..] == a[1..] + [c] + t;
      assert c !in a[1..];
      SplitAfterPrefix(a[1..], c, t);
      assert [a[0]] + a[1..] == a;
    }
  }

  lemma SplitPair(a: string, c: char, b: string)
    requires c !in a && c !in b
    ensures Split(a + [c] + b, c) == [a, b]
  {
    SplitAfterPrefix(a, c, b);
    SplitWithoutSeparator(b, c);
  }

  /** Joining the parts of a split with the separator gives back the text. */
  lemma {:induction false} JoinSplit(s: string, c: char)
    ensures Join(Split(s, c), [c]) == s
    decreases |s|
  {
    if s != [] {
      var rest := Split(s[1..], c);
      JoinSplit(s[1..], c);
      if s[0] == c {
        assert Split(s, c)[1..] == rest;
        assert Join(Split(s, c), [c]) == "" + [c] + Join(rest, [c]);
      } else if |rest| == 1 {
        assert Split(s, c) == [[s[0]] + rest[0]];
      } else {
        assert Split(s, c)[1..] == rest[1..];
        assert Join(rest, [c]) == rest[0] + [c] + Join(rest[1..], [c]);
      }
      assert [s[0]] + s[1..] == s;
    }
  }

  /** Splitting a join of separator-free parts gives back the parts. */
  lemma {:induction false} SplitJoin(parts: seq<string>, c: char)
    requires parts != []
    requires forall k :: 0 <= k < |parts| ==> c !in parts[k]
    ensures Split(Join(parts, [c]), c) == parts
    decreases |parts|
  {
    if |parts| == 1 {
      SplitWithoutSeparator(parts[0], c);
    } else {
      SplitJoin(parts[1..], c);
      SplitAfterPrefix(parts[0], c, Join(parts[1..], [c]));
      assert [parts[0]] + parts[1..] == parts;
    }
  }

  /** Joining one more part adds the separator and that part. */
  lemma {:induction false} JoinAppend(parts: seq<string>, x: string, sep: string)
    requires parts != []
    ensures Join(parts + [x], sep) == Join(parts, sep) + sep + x
    decreases |parts|
  {
    var ps := parts + [x];
    assert ps[0] == parts[0];
    if |parts| == 1 {
      assert ps[1..] == [x];
    } else {
      assert ps[1..] == parts[1..] + [x];
      JoinAppend(parts[1..], x, sep);
    }
  }

  /** `s.lower()` on ASCII letters; other characters are kept. */
  function Lower(s: string): (r: string)
    ensures |r| == |s|
    ensures forall k :: 0 <= k < |s| ==> r[k] == LowerChar(s[k])
    decreases |s|
  {
    if s == [] then [] else [LowerChar(s[0])] + Lower(s[1..])
  }

  function LowerChar(ch: char): char {
    if 'A' <= ch <= 'Z' then ((ch as int) + 32) as char else ch
  }

  predicate IsDigit(ch: char) { '0' <= ch <= '9' }

  predicate AllDigits(s: string) { forall k :: 0 <= k < |s| ==> IsDigit(s[k]) }

  function DigitChar(d: nat): (ch: char)
    requires d < 10
    ensures IsDigit(ch) && (ch as int) - ('0' as int) == d
  {
    ((d + 48) as char)
  }

  /** The value of a string of decimal digits, most significant first. */
  function DigitsValue(s: string): nat
    requires AllDigits(s)
    decreases |s|
  {
    if s == [] then 0
    else DigitsValue(s[..|s| - 1]) * 10 + ((s[|s| - 1] as int) - ('0' as int))
  }

  /** `str(n)` for a natural number: decimal digits without leading zeros. */
  function NatToString(n: nat): (r: string)
    ensures |r| >= 1 && AllDigits(r)
    ensures |r| > 1 ==> r[0] != '0'
    decreases n
  {
    if n < 10 then [DigitChar(n)] else NatToString(n / 10) + [DigitChar(n % 10)]
  }

  /** `str(i)` for any integer. */
  function IntToString(i: int): (r: string)
    ensures i >= 0 ==> r == NatToString(i)
    ensures i < 0 ==> r == "-" + NatToString(-i)
  {
    if i >= 0 then NatToString(i) else "-" + NatToString(-i)
  }

  /** `f"{n:02d}"` for a natural number: at least two digits, zero-padded. */
  function Pad2(n: nat): (r: string)
    ensures |r| >= 2 && AllDigits(r)
  {
    if n < 10 then "0" + [DigitChar(n)] else NatToString(n)
  }

  /** `int(s)` on an unsigned decimal string; None where Python raises. */
  function ParseNat(s: string): (r: Option<nat>)
    ensures r.Some? <==> s != "" && AllDigits(s)
  {
    if s != "" && AllDigits(s) then Some(DigitsValue(s)) else None
  }

  predicate IsSign(ch: char) { ch == '-' || ch == '+' }

  /** Decimal text with an optional sign: a sign, if any, then at least one digit. */
  predicate SignedDigits(s: string) {
    s != "" && (if IsSign(s[0]) then s[1..] != "" && AllDigits(s[1..]) else AllDigits(s))
  }

  /** `int(s)` on decimal text with an optional sign; None where Python raises. */
  function ParseInt(s: string): (r: Option<int>)
    ensures r.Some? <==> SignedDigits(s)
    ensures r.Some? && !IsSign(s[0]) ==> r.value == DigitsValue(s)
    ensures r.Some? && s[0] == '+' ==> r.value == DigitsValue(s[1..])
    ensures r.Some? && s[0] == '-' ==> r.value == -(DigitsValue(s[1..]) as int)
  {
    if |s| > 0 && (s[0] == '-' || s[0] == '+') then
      match ParseNat(s[1..])
      case None => None
      case Some(n) => var m: int := n; if s[0] == '-' then Some(-m) else Some(m)
    else
      match ParseNat(s)
      case None => None
      case Some(n) => Some(n)
  }

  lemma {:induction false} ParseNatToString(n: nat)
    ensures ParseNat(NatToString(n)) == Some(n)
    decreases n
  {
    var s := NatToString(n);
    if n < 10 {
      assert s[..|s| - 1] == [];
      assert DigitsValue(s) == n;
    } else {
      ParseNatToString(n / 10);
      assert s[..|s| - 1] == NatToString(n / 10);
      assert DigitsValue(s) == DigitsValue(NatToString(n / 10)) * 10 + n % 10;
    }
  }

  lemma ParseIntToString(i: int)
    ensures ParseInt(IntToString(i)) == Some(i)
  {
    ParseNatToString(if i >= 0 then i else -i);
    if i < 0 {
      assert ("-" + NatToString(-i))[1..] == NatToString(-i);
    }
  }

  lemma ParsePad2(n: nat)
    ensures ParseNat(Pad2(n)) == Some(n)
  {
    if n < 10 {
      var s := Pad2(n);
      assert s[..1] == "0" && s[..1][..0] == [];
      assert DigitsValue(s[..1]) == 0;
      assert DigitsValue(s) == n;
    } else {
      ParseNatToString(n);
    }
  }

  lemma DigitsHaveNo(s: string, c: char)
    requires AllDigits(s) && !IsDigit(c)
    ensures c !in s
  {
  }

  /**
   * Reads back the duration texts both formatters write: "<n>m", "<h>h" and
   * "<h>h <m>m", as a number of minutes.
   */
  function ParseDurationText(s: string): Option<int> {
    var parts := Split(s, ' ');
    if |parts| == 1 then
      var p := parts[0];
      if |p| >= 1 && p[|p| - 1] == 'm' then ParseInt(p[..|p| - 1])
      else if |p| >= 1 && p[|p| - 1] == 'h' then
        match ParseNat(p[..|p| - 1])
        case None => None
        case Some(h) => Some(h * 60)
      else None
    else if |parts| == 2 then
      var a, b := parts[0], parts[1];
      if |a| >= 1 && a[|a| - 1] == 'h' && |b| >= 1 && b[|b| - 1] == 'm' then
        match (ParseNat(a[..|a| - 1]), ParseNat(b[..|b| - 1]))
        case (Some(h), Some(m)) => Some(h * 60 + m)
        case _ => None
      else None
    else None
  }

  lemma NoSpaceInNumber(i: int)
    ensures ' ' !in IntToString(i)
  {
    if i >= 0 {
      DigitsHaveNo(NatToString(i), ' ');
    } else {
      DigitsHaveNo(NatToString(-i), ' ');
      assert IntToString(i) == ['-'] + NatToString(-i);
    }
  }

  lemma ParseMinutesText(i: int)
    ensures ParseDurationText(IntToString(i) + "m") == Some(i)
  {
    var p := IntToString(i) + "m";
    NoSpaceInNumber(i);
    SplitWithoutSeparator(p, ' ');
    assert p[..|p| - 1] == IntToString(i);
    ParseIntToString(i);
  }

  lemma ParseHoursText(h: nat)
    ensures ParseDurationText(NatToString(h) + "h") == Some(h * 60)
  {
    var p := NatToString(h) + "h";
    NoSpaceInNumber(h);
    SplitWithoutSeparator(p, ' ');
    assert p[..|p| - 1] == NatToString(h);
    ParseNatToString(h);
  }

  lemma ParseHoursMinutesText(h: nat, m: nat)
    ensures ParseDurationText(NatToString(h) + "h " + NatToString(m) + "m") == Some(h * 60 + m)
  {
    var a, b := NatToString(h) + "h", NatToString(m) + "m";
    NoSpaceInNumber(h);
    NoSpaceInNumber(m);
    SplitPair(a, ' ', b);
    var s := NatToString(h) + "h " + NatToString(m) + "m";
    assert s == a + [' '] + b;
    assert Split(s, ' ') == [a, b];
    assert a[..|a| - 1] == NatToString(h) && b[..|b| - 1] == NatToString(m);
    ParseNatToString(h);
    ParseNatToString(m);
    assert a[|a| - 1] == 'h' && b[|b| - 1] == 'm';
  }
}
