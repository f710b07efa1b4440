/**
 The few JavaScript string built-ins the main page relies on, as total
 functions on `string`:
 - `s.split(',')`, where `''.split(',')` is `['']`;
 - `parts.join(',')`, where `[].join(',')` is `''`;
 - `Number(s)` and `parseInt(s, 10)`, which agree on strings of decimal digits;
 - `n.toString()` for a natural number.
 */
module Text {

  /** `s.split(',')`: the maximal comma-free pieces of `s`, left to right. */
  function Split(s: string): (pieces: seq<string>)
    ensures |pieces| >= 1
    ensures forall i :: 0 <= i < |pieces| ==> ',' !in pieces[i]
  {
    if s == [] then [[]]
    else
      var rest := Split(s[1..]);
      if s[0] == ',' then [[]] + rest
      else [[s[0]] + rest[0]] + rest[1..]
  }

  /** `parts.join(',')`. */
  function Join(parts: seq<string>): (s: string)
    ensures |parts| == 0 ==> s == ""
    ensures |parts| >= 1 ==> parts[0] <= s
  {
    if |parts| == 0 then ""
    else if |parts| == 1 then parts[0]
    else parts[0] + [','] + Join(parts[1..])
  }

  /** A piece without a comma splits to itself. */
  lemma {:induction false} SplitNoComma(s: string)
    requires ',' !in s
    ensures Split(s) == [s]
  {
    if s != [] {
      assert ',' !in s[1..];
      SplitNoComma(s[1..]);
      assert s[0] != ',' by { assert s[0] in s; }
      assert s == [s[0]] + s[1..];
    }
  }

  /** Splitting distributes over a separating comma. */
  lemma {:induction false} SplitAround(a: string, b: string)
    ensures Split(a + [','] + b) == Split(a) + Split(b)
  {
    if a == [] {
      assert a + [','] + b == [','] + b;
      assert ([','] + b)[1..] == b;
    } else {
      var s := a + [','] + b;
      assert s[0] == a[0];
      assert s[1..] == a[1..] + [','] + b;
      SplitAround(a[1..], b);
    }
  }

  /** Splitting undoes joining when no part holds a comma and there is at least one part. */
  lemma {:induction false} SplitJoin(parts: seq<string>)
    requires |parts| >= 1
    requires forall i :: 0 <= i < |parts| ==> ',' !in parts[i]
    ensures Split(Join(parts)) == parts
  {
    SplitNoComma(parts[0]);
    if |parts| > 1 {
      SplitJoin(parts[1..]);
      SplitAround(parts[0], Join(parts[1..]));
      assert [parts[0]] + parts[1..] == parts;
    }
  }

  /** Joining undoes splitting, for every string. */
  lemma {:induction false} JoinSplit(s: string)
    ensures Join(Split(s)) == s
  {
    if s != [] {
      var rest := Split(s[1..]);
      JoinSplit(s[1..]);
      if s[0] == ',' {
        assert ([[]] + rest)[1..] == rest;
        assert Join([[]] + rest) == [] + [','] + Join(rest);
        assert s == [','] + s[1..];
      } else {
        var pieces := [[s[0]] + rest[0]] + rest[1..];
        assert Split(s) == pieces;
        if |rest| == 1 {
          assert Join(pieces) == [s[0]] + rest[0];
        } else {
          assert pieces[1..] == rest[1..];
          assert Join(rest) == rest[0] + [','] + Join(rest[1..]);
          assert Join(pieces) == ([s[0]] + rest[0]) + [','] + Join(rest[1..]);
        }
        assert s == [s[0]] + s[1..];
      }
    }
  }

  predicate IsDigit(c: char)
  {
    '0' <= c <= '9'
  }

  predicate AllDigits(s: string)
  {
    forall i :: 0 <= i < |s| ==> IsDigit(s[i])
  }

  /** A non-empty string of decimal digits: the only `totalRecipes` text this model reads. */
  predicate IsDecimal(s: string)
  {
    |s| > 0 && AllDigits(s)
  }

  function DigitValue(c: char): (d: nat)
    requires IsDigit(c)
    ensures d < 10
  {
    (c as int) - ('0' as int)
  }

  function DigitChar(d: nat): (c: char)
    requires d < 10
    ensures IsDigit(c) && DigitValue(c) == d
  {
    (('0' as int) + d) as char
  }

  /** `Number(s)` and `parseInt(s, 10)` on a string of decimal digits (leading zeros allowed). */
  function ParseDecimal(s: string): (n: nat)
    requires AllDigits(s)
    ensures n < Pow10(|s|)
  {
    if s == [] then 0
    else 10 * ParseDecimal(s[..|s| - 1]) + DigitValue(s[|s| - 1])
  }

  function Pow10(k: nat): (p: nat)
    ensures p >= 1
  {
    if k == 0 then 1 else 10 * Pow10(k - 1)
  }

  /** `n.toString()`: the shortest decimal numeral of `n`. */
  function NatToString(n: nat): (s: string)
    ensures IsDecimal(s)
    ensures |s| > 1 ==> s[0] != '0'
  {
    if n < 10 then [DigitChar(n)]
    else NatToString(n / 10) + [DigitChar(n % 10)]
  }

  /** `Number(n.toString()) == n`. */
  lemma {:induction false} ParseNatToString(n: nat)
    ensures ParseDecimal(NatToString(n)) == n
  {
    var s := NatToString(n);
    if n >= 10 {
      ParseNatToString(n / 10);
      assert s[..|s| - 1] == NatToString(n / 10);
    }
  }

  /** A numeral's value is at least its leading digit. */
  lemma {:induction false} ParseAtLeastLeadingDigit(s: string)
    requires IsDecimal(s)
    ensures ParseDecimal(s) >= DigitValue(s[0])
  {
    if |s| > 1 {
      ParseAtLeastLeadingDigit(s[..|s| - 1]);
    }
  }

  /** `Number(s).toString() == s` for a numeral without leading zeros. */
  lemma {:induction false} NatToStringParse(s: string)
    requires IsDecimal(s)
    requires |s| > 1 ==> s[0] != '0'
    ensures NatToString(ParseDecimal(s)) == s
  {
    var n := ParseDecimal(s);
    var last := s[|s| - 1];
    if |s| == 1 {
      assert DigitChar(DigitValue(last)) == last;
    } else {
      var init := s[..|s| - 1];
      ParseAtLeastLeadingDigit(init);
      assert n / 10 == ParseDecimal(init) && n % 10 == DigitValue(last);
      NatToStringParse(init);
      assert DigitChar(DigitValue(last)) == last;
      assert s == init + [last];
    }
  }
}
