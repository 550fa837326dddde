/** String helpers: Python's `str.join`, character counting, ASCII lower-casing. */
module Text {

  /** `sep.join(xs)`: the items of `xs` with `sep` between consecutive ones. */
  function Join(xs: seq<string>, sep: string): string
  {
    if |xs| == 0 then ""
    else if |xs| == 1 then xs[0]
    else xs[0] + sep + Join(xs[1..], sep)
  }

  /** The number of occurrences of `c` in `s`. */
  function Count(c: char, s: string): nat
  {
    if |s| == 0 then 0
    else (if s[0] == c then 1 else 0) + Count(c, s[1..])
  }

  /** The sum of `Count(c, x)` over the items `x` of `xs`. */
  function CountAll(c: char, xs: seq<string>): nat
  {
    if |xs| == 0 then 0 else Count(c, xs[0]) + CountAll(c, xs[1..])
  }

  /** True when `c` occurs in no item of `xs`. */
  predicate NoneContains(c: char, xs: seq<string>)
  {
    forall i :: 0 <= i < |xs| ==> c !in xs[i]
  }

  lemma {:induction false} CountAbsent(c: char, s: string)
    requires c !in s
    ensures Count(c, s) == 0
  {
    if |s| > 0 {
      assert c !in s[1..];
      CountAbsent(c, s[1..]);
    }
  }

  lemma {:induction false} CountConcat(c: char, a: string, b: string)
    ensures Count(c, a + b) == Count(c, a) + Count(c, b)
  {
    if |a| > 0 {
      assert (a + b)[1..] == a[1..] + b;
      CountConcat(c, a[1..], b);
    } else {
      assert a + b == b;
    }
  }

  lemma CountConcat3(c: char, a: string, b: string, d: string)
    ensures Count(c, a + b + d) == Count(c, a) + Count(c, b) + Count(c, d)
  {
    CountConcat(c, a, b);
    CountConcat(c, a + b, d);
  }

  lemma CountConcat5(c: char, a: string, b: string, d: string, e: string, f: string)
    ensures Count(c, a + b + d + e + f) == Count(c, a) + Count(c, b) + Count(c, d) + Count(c, e) + Count(c, f)
  {
    CountConcat3(c, a, b, d);
    CountConcat3(c, a + b + d, e, f);
  }

  lemma CountConcat7(c: char, a: string, b: string, d: string, e: string, f: string, g: string, h: string)
    ensures Count(c, a + b + d + e + f + g + h)
         == Count(c, a) + Count(c, b) + Count(c, d) + Count(c, e) + Count(c, f) + Count(c, g) + Count(c, h)
  {
    CountConcat3(c, a, b, d);
    CountConcat3(c, a + b + d, e, f);
    CountConcat3(c, a + b + d + e + f, g, h);
  }

  lemma {:induction false} CountAllAbsent(c: char, xs: seq<string>)
    requires NoneContains(c, xs)
    ensures CountAll(c, xs) == 0
  {
    if |xs| > 0 {
      CountAbsent(c, xs[0]);
      CountAllAbsent(c, xs[1..]);
    }
  }

  /** Occurrences of `c` in a joined string: those in the items plus one set per separator. */
  lemma {:induction false} CountJoin(c: char, xs: seq<string>, sep: string)
    ensures |xs| > 0 ==> Count(c, Join(xs, sep)) == CountAll(c, xs) + (|xs| - 1) * Count(c, sep)
    ensures |xs| == 0 ==> Count(c, Join(xs, sep)) == 0
  {
    if |xs| > 1 {
      CountJoin(c, xs[1..], sep);
      CountConcat(c, xs[0] + sep, Join(xs[1..], sep));
      CountConcat(c, xs[0], sep);
      assert xs[0] + sep + Join(xs[1..], sep) == (xs[0] + sep) + Join(xs[1..], sep);
    } else if |xs| == 1 {
      assert CountAll(c, xs[1..]) == 0;
    }
  }

  lemma {:induction false} JoinLength(xs: seq<string>, sep: string)
    ensures |xs| > 0 ==> |Join(xs, sep)| == SumLengths(xs) + (|xs| - 1) * |sep|
  {
    if |xs| > 1 {
      JoinLength(xs[1..], sep);
    }
  }

  function SumLengths(xs: seq<string>): nat
  {
    if |xs| == 0 then 0 else |xs[0]| + SumLengths(xs[1..])
  }

  /** Python's `str.lower()` restricted to ASCII letters. */
  function Lower(s: string): (r: string)
    ensures |r| == |s|
    ensures forall i :: 0 <= i < |s| ==> r[i] == LowerChar(s[i])
  {
    if |s| == 0 then "" else [LowerChar(s[0])] + Lower(s[1..])
  }

  function LowerChar(c: char): char
  {
    if 'A' <= c <= 'Z' then (c as int - 'A' as int + 'a' as int) as char else c
  }

  /** Text without upper-case letters is its own lower-case form. */
  lemma LowerUnchanged(s: string)
    requires forall i :: 0 <= i < |s| ==> !('A' <= s[i] <= 'Z')
    ensures Lower(s) == s
  {
    assert forall i :: 0 <= i < |s| ==> Lower(s)[i] == s[i];
  }

  /** Decimal rendering of an integer, as Python's `str(int)` gives it. */
  function IntToString(i: int): string
  {
    if i < 0 then "-" + NatToString(-i) else NatToString(i)
  }

  function NatToString(n: nat): string
    decreases n
  {
    if n < 10 then [DigitChar(n)] else NatToString(n / 10) + [DigitChar(n % 10)]
  }

  function DigitChar(d: nat): char
    requires d < 10
  {
    "0123456789"[d]
  }
}
