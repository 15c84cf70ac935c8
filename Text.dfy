/** The few string operations of JavaScript the adapter relies on: the decimal
    rendering of an integer (`String(n)`, as `Array.prototype.join` uses it),
    `parseInt(s, 10)` on decimal strings, `Array.prototype.join` and, as its
    inverse, `String.prototype.split`. */
module Text {
  import opened Js

  predicate IsDigit(c: char)
  {
    '0' <= c <= '9'
  }

  predicate AllDigits(s: string)
  {
    forall i :: 0 <= i < |s| ==> IsDigit(s[i])
  }

  function DigitChar(d: nat): (c: char)
    requires d < 10
    ensures IsDigit(c)
  {
    ('0' as int + d) as char
  }

  function DigitValue(c: char): nat
    requires IsDigit(c)
  {
    c as int - '0' as int
  }

  /** Decimal rendering of a natural number, most significant digit first,
      without leading zeros. */
  function RenderNat(n: nat): (s: string)
    ensures s != [] && AllDigits(s)
  {
    if n < 10 then [DigitChar(n)] else RenderNat(n / 10) + [DigitChar(n % 10)]
  }

  /** `String(n)` for an integer: a minus sign, then the digits of |n|. */
  function Render(n: int): (s: string)
    ensures ',' !in s
    ensures n >= 0 ==> AllDigits(s)
  {
    if n < 0 then "-" + RenderNat(-n) else RenderNat(n)
  }

  /** `s.startsWith(prefix)`. */
  predicate StartsWith(s: string, prefix: string)
  {
    |prefix| <= |s| && s[..|prefix|] == prefix
  }

  /** The value of a string of decimal digits. */
  function DigitsValue(s: string): nat
    requires AllDigits(s)
  {
    if s == [] then 0 else DigitsValue(s[..|s| - 1]) * 10 + DigitValue(s[|s| - 1])
  }

  /** `parseInt(s, 10)` on a decimal numeral (an optional minus sign and at
      least one digit). Other strings are outside the model and give None. */
  function ParseInt(s: string): Option<int>
  {
    if s != [] && s[0] == '-' && |s| > 1 && AllDigits(s[1..]) then
      var magnitude: int := DigitsValue(s[1..]);
      Some(-magnitude)
    else if s != [] && AllDigits(s) then Some(DigitsValue(s))
    else None
  }

  /** `parts.join(sep)`. */
  function Join(parts: seq<string>, sep: string): (r: string)
    ensures parts == [] ==> r == ""
  {
    if parts == [] then ""
    else if |parts| == 1 then parts[0]
    else parts[0] + sep + Join(parts[1..], sep)
  }

  /** `s.split(sep)` for a one-character separator; like JavaScript, the empty
      string splits into one empty piece. */
  function Split(s: string, sep: char): (r: seq<string>)
    ensures |r| > 0
  {
    if s == [] then [""]
    else
      var rest := Split(s[1..], sep);
      if s[0] == sep then [""] + rest else [[s[0]] + rest[0]] + rest[1..]
  }

  lemma {:induction false} DigitsValueOfRender(n: nat)
    ensures DigitsValue(RenderNat(n)) == n
  {
    var s := RenderNat(n);
    if n >= 10 {
      var prefix := RenderNat(n / 10);
      assert s == prefix + [DigitChar(n % 10)];
      assert s[..|s| - 1] == prefix;
      DigitsValueOfRender(n / 10);
    }
  }

  /** parseInt undoes String: the numeral handed on names the same integer. */
  lemma ParseIntOfRender(n: int)
    ensures ParseInt(Render(n)) == Some(n)
  {
    if n < 0 {
      var s := Render(n);
      assert s[1..] == RenderNat(-n);
      DigitsValueOfRender(-n);
    } else {
      DigitsValueOfRender(n);
    }
  }

  /** A piece without the separator splits into itself. */
  lemma {:induction false} SplitPlain(p: string, sep: char)
    requires sep !in p
    ensures Split(p, sep) == [p]
  {
    if p != [] {
      SplitPlain(p[1..], sep);
      assert [p[0]] + p[1..] == p;
    }
  }

  /** Splitting `p + sep + rest` cuts at the first separator. */
  lemma {:induction false} SplitAtSeparator(p: string, sep: char, rest: string)
    requires sep !in p
    ensures Split(p + [sep] + rest, sep) == [p] + Split(rest, sep)
  {
    var s := p + [sep] + rest;
    if p == [] {
      assert s[1..] == rest;
    } else {
      assert s[1..] == p[1..] + [sep] + rest;
      SplitAtSeparator(p[1..], sep, rest);
      assert [p[0]] + p[1..] == p;
    }
  }

  /** split undoes join when no part contains the separator. */
  lemma {:induction false} SplitOfJoin(parts: seq<string>, sep: char)
    requires parts != []
    requires forall i :: 0 <= i < |parts| ==> sep !in parts[i]
    ensures Split(Join(parts, [sep]), sep) == parts
  {
    if |parts| == 1 {
      SplitPlain(parts[0], sep);
    } else {
      SplitOfJoin(parts[1..], sep);
      SplitAtSeparator(parts[0], sep, Join(parts[1..], [sep]));
    }
  }
}
