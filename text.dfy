/** The few pieces of Rust's `str` and `u32` behaviour the puzzles rely on. */
module Text {
  import opened Prelude

  /** `str::split_once(c)`: the text before and after the first `c`. */
  function SplitOnce(s: string, c: char): (r: Option<(string, string)>)
    ensures r.None? <==> c !in s
    ensures r.Some? ==> s == r.value.0 + [c] + r.value.1 && c !in r.value.0
  {
    if |s| == 0 then None
    else if s[0] == c then Some(([], s[1..]))
    else
      match SplitOnce(s[1..], c)
      case None => None
      case Some((before, after)) => Some(([s[0]] + before, after))
  }

  /** ASCII whitespace as `char::is_whitespace` sees it: tab, line feed,
      vertical tab, form feed, carriage return and space. */
  predicate IsWhitespace(c: char) {
    c == ' ' || '\t' <= c <= '\r'
  }

  predicate AllWhitespace(s: string) {
    forall k | 0 <= k < |s| :: IsWhitespace(s[k])
  }

  /** How many whitespace characters `s` starts with. */
  function Leading(s: string): (n: nat)
    ensures n <= |s|
  {
    if |s| > 0 && IsWhitespace(s[0]) then 1 + Leading(s[1..]) else 0
  }

  /** How many whitespace characters `s` ends with. */
  function Trailing(s: string): (n: nat)
    ensures n <= |s|
  {
    if |s| > 0 && IsWhitespace(s[|s| - 1]) then 1 + Trailing(s[..|s| - 1]) else 0
  }

  /** `Leading` counts whitespace only, and all of it. */
  lemma {:induction false} LeadingIsWhitespace(s: string)
    ensures AllWhitespace(s[..Leading(s)])
    ensures Leading(s) == |s| || !IsWhitespace(s[Leading(s)])
  {
    if |s| > 0 && IsWhitespace(s[0]) {
      LeadingIsWhitespace(s[1..]);
      assert s[..Leading(s)] == [s[0]] + s[1..][..Leading(s[1..])];
    }
  }

  /** `Trailing` counts whitespace only, and all of it. */
  lemma {:induction false} TrailingIsWhitespace(s: string)
    ensures AllWhitespace(s[|s| - Trailing(s)..])
    ensures Trailing(s) == |s| || !IsWhitespace(s[|s| - Trailing(s) - 1])
  {
    if |s| > 0 && IsWhitespace(s[|s| - 1]) {
      var init := s[..|s| - 1];
      TrailingIsWhitespace(init);
      var from := |init| - Trailing(init);
      assert |s| - Trailing(s) == from;
      forall k | from <= k < |s| ensures IsWhitespace(s[k]) {
        if k < |init| {
          assert s[k] == init[from..][k - from];
        }
      }
      assert from == 0 || s[from - 1] == init[from - 1];
    }
  }

  /** `str::trim_start`, on ASCII whitespace: the text after the leading
      whitespace. */
  function TrimStart(s: string): string {
    s[Leading(s)..]
  }

  /** `str::trim_end`, on ASCII whitespace: the text before the trailing
      whitespace. */
  function TrimEnd(s: string): string {
    s[..|s| - Trailing(s)]
  }

  /** `str::trim`: the slice of `s` left once whitespace is dropped from both
      ends; everything dropped is whitespace and the slice neither starts nor
      ends with whitespace. */
  function Trim(s: string): (r: string)
    ensures Leading(s) + |r| <= |s|
    ensures r == s[Leading(s)..Leading(s) + |r|]
    ensures AllWhitespace(s[..Leading(s)])
    ensures AllWhitespace(s[Leading(s) + |r|..])
    ensures r == [] || (!IsWhitespace(r[0]) && !IsWhitespace(r[|r| - 1]))
  {
    var m := TrimStart(s);
    LeadingIsWhitespace(s);
    TrailingIsWhitespace(m);
    TrimParts(s, Leading(s), Trailing(m));
    TrimEnd(m)
  }

  /** Dropping `lead` whitespace characters from the front of `s` and then
      `trail` from the back leaves a slice of `s` whose ends are not
      whitespace when the counts are maximal. */
  lemma TrimParts(s: string, lead: nat, trail: nat)
    requires lead <= |s| && trail <= |s| - lead
    requires AllWhitespace(s[..lead]) && (lead == |s| || !IsWhitespace(s[lead]))
    requires AllWhitespace(s[lead..][|s| - lead - trail..])
    requires trail == |s| - lead || !IsWhitespace(s[lead..][|s| - lead - trail - 1])
    ensures s[lead..][..|s| - lead - trail] == s[lead..|s| - trail]
    ensures AllWhitespace(s[|s| - trail..])
    ensures var r := s[lead..|s| - trail];
      r == [] || (!IsWhitespace(r[0]) && !IsWhitespace(r[|r| - 1]))
  {
    assert s[|s| - trail..] == s[lead..][|s| - lead - trail..];
  }

  /** The largest `u32`. */
  const U32_MAX: nat := 0xFFFF_FFFF

  predicate IsDigit(c: char) {
    '0' <= c <= '9'
  }

  predicate AllDigits(s: string) {
    forall k | 0 <= k < |s| :: IsDigit(s[k])
  }

  function DigitValue(c: char): (d: nat)
    requires IsDigit(c)
    ensures d < 10
  {
    c as int - '0' as int
  }

  /** The number a string of decimal digits denotes, most significant first. */
  function DecimalValue(s: string): nat
    requires AllDigits(s)
  {
    if |s| == 0 then 0 else 10 * DecimalValue(s[..|s| - 1]) + DigitValue(s[|s| - 1])
  }

  /** What `str::parse::<u32>` reads as digits: the text after one optional
      leading `+`. */
  function Unsigned(s: string): (d: string)
    ensures |s| > 0 && s[0] == '+' ==> s == ['+'] + d
    ensures (|s| == 0 || s[0] != '+') ==> d == s
  {
    if |s| > 0 && s[0] == '+' then s[1..] else s
  }

  /** `str::parse::<u32>`: an optional `+`, then decimal digits; fails on an
      empty digit string, on any other character, and on a value that does not
      fit in 32 bits. */
  function ParseU32(s: string): (r: Option<nat>)
    ensures r.Some? <==> var d := Unsigned(s); |d| > 0 && AllDigits(d) && DecimalValue(d) <= U32_MAX
    ensures r.Some? ==> r.value <= U32_MAX
    ensures r.Some? ==> AllDigits(Unsigned(s)) && r.value == DecimalValue(Unsigned(s))
  {
    var d := Unsigned(s);
    if |d| > 0 && AllDigits(d) && DecimalValue(d) <= U32_MAX then Some(DecimalValue(d)) else None
  }

  /** A leading zero does not change the number digits denote. */
  lemma {:induction false} LeadingZero(d: string)
    requires AllDigits(d)
    ensures AllDigits(['0'] + d) && DecimalValue(['0'] + d) == DecimalValue(d)
  {
    if |d| > 0 {
      var init := d[..|d| - 1];
      assert (['0'] + d)[..|d|] == ['0'] + init;
      LeadingZero(init);
    }
  }

  /** Leading zeros are read past: `"007"` parses as `7`, and a run of zeros
      before any digits parses as the same number the digits do. */
  lemma ParseLeadingZero(d: string)
    requires |d| > 0 && AllDigits(d)
    ensures ParseU32(['0'] + d) == ParseU32(d)
  {
    LeadingZero(d);
  }

  /** The decimal rendering of `n` (`u32::to_string`), the partner of `ParseU32`. */
  function Decimal(n: nat): (s: string)
    ensures |s| > 0 && AllDigits(s)
  {
    var last := ['0' + (n % 10) as char];
    if n < 10 then last else Decimal(n / 10) + last
  }

  /** Rendering a `u32` and parsing it back gives the number again. */
  lemma {:induction false} ParseDecimal(n: nat)
    requires n <= U32_MAX
    ensures ParseU32(Decimal(n)) == Some(n)
    ensures ParseU32(['+'] + Decimal(n)) == Some(n)
  {
    var s := Decimal(n);
    assert IsDigit(s[0]);
    assert (['+'] + s)[1..] == s;
    DecimalValueOfDecimal(n);
  }

  /** A number too large for 32 bits does not parse, even in its own
      decimal rendering. */
  lemma ParseOverflows(n: nat)
    requires n > U32_MAX
    ensures ParseU32(Decimal(n)) == None
  {
    var s := Decimal(n);
    assert IsDigit(s[0]);
    DecimalValueOfDecimal(n);
  }

  /** Nothing, a bare sign, a minus sign and untrimmed whitespace do not
      parse. */
  lemma ParseRejects(d: string)
    requires AllDigits(d)
    ensures ParseU32("") == None && ParseU32("+") == None
    ensures ParseU32("-" + d) == None
    ensures ParseU32(" " + d) == None && ParseU32(d + " ") == None
  {
    assert ("-" + d)[0] == '-';
    assert (" " + d)[0] == ' ';
    assert (d + " ")[|d|] == ' ';
  }

  lemma {:induction false} DecimalValueOfDecimal(n: nat)
    ensures DecimalValue(Decimal(n)) == n
  {
    var s := Decimal(n);
    if n >= 10 {
      DecimalValueOfDecimal(n / 10);
      assert s[..|s| - 1] == Decimal(n / 10);
    }
  }
}
