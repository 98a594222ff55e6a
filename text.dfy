/**
  Text helpers shared by the rendered commands: Python's `%s` rendering of an
  integer, and the small scanning functions the parsers of the rendered text
  are built from.
*/
module Text {
  import opened Wrappers

  /** `n` spaces. */
  function Spaces(n: nat): (s: string)
    ensures |s| == n && forall i :: 0 <= i < n ==> s[i] == ' '
  {
    seq(n, _ => ' ')
  }

  /** `s` with the prefix `p` removed, when `s` starts with `p`. */
  function StripPrefix(s: string, p: string): (r: Option<string>)
    ensures r.Some? <==> p <= s
    ensures r.Some? ==> s == p + r.value
  {
    if p <= s then Some(s[|p|..]) else None
  }

  /**
    The text before the first occurrence of `c` in `s`, and the rest of `s`,
    which starts with that `c`; `None` when `c` does not occur.
  */
  function SplitAt(s: string, c: char): (r: Option<(string, string)>)
    ensures r.Some? <==> c in s
    ensures r.Some? ==> s == r.value.0 + r.value.1 && c !in r.value.0
    ensures r.Some? ==> |r.value.1| > 0 && r.value.1[0] == c
  {
    if |s| == 0 then None
    else if s[0] == c then Some(([], s))
    else
      match SplitAt(s[1..], c)
      case None => None
      case Some(p) =>
        assert s == [s[0]] + (p.0 + p.1);
        Some(([s[0]] + p.0, p.1))
  }

  /** Splitting `x + t` at `c` gives back `x` when `c` is not in `x` and `t` starts with `c`. */
  lemma {:induction false} SplitAtConcat(x: string, t: string, c: char)
    requires c !in x && |t| > 0 && t[0] == c
    ensures SplitAt(x + t, c) == Some((x, t))
  {
    if |x| == 0 {
      assert x + t == t;
    } else {
      assert (x + t)[0] == x[0] != c;
      assert (x + t)[1..] == x[1..] + t;
      SplitAtConcat(x[1..], t, c);
      assert [x[0]] + x[1..] == x;
    }
  }

  predicate IsDigit(c: char) { '0' <= c <= '9' }

  predicate AllDigits(s: string) { forall i :: 0 <= i < |s| ==> IsDigit(s[i]) }

  function DigitChar(d: nat): (c: char)
    requires d < 10
    ensures IsDigit(c)
  {
    (d + '0' as int) as char
  }

  /** Decimal digits of `n`, most significant first, without leading zeros. */
  function NatToDecimal(n: nat): (s: string)
    ensures |s| > 0 && AllDigits(s)
    ensures |s| > 1 ==> s[0] != '0'
  {
    if n < 10 then [DigitChar(n)] else NatToDecimal(n / 10) + [DigitChar(n % 10)]
  }

  /** Python's `'%s' % n` for an integer `n`. */
  function IntToDecimal(n: int): (s: string)
    ensures |s| > 0 && '\n' !in s
  {
    if n < 0 then "-" + NatToDecimal(-n) else NatToDecimal(n)
  }

  /** The value of a string of decimal digits. */
  function ParseNat(s: string): nat
    requires AllDigits(s)
  {
    if |s| == 0 then 0 else ParseNat(s[..|s| - 1]) * 10 + (s[|s| - 1] as int - '0' as int)
  }

  /** The integer a non-empty optionally signed digit string denotes. */
  function ParseInt(s: string): Option<int> {
    if |s| > 1 && s[0] == '-' && AllDigits(s[1..]) then Some(0 - ParseNat(s[1..]) as int)
    else if |s| > 0 && AllDigits(s) then Some(ParseNat(s))
    else None
  }

  lemma {:induction false} NatToDecimalRoundTrip(n: nat)
    ensures ParseNat(NatToDecimal(n)) == n
  {
    if n >= 10 {
      NatToDecimalRoundTrip(n / 10);
      var s := NatToDecimal(n);
      assert s[..|s| - 1] == NatToDecimal(n / 10);
    }
  }

  /** Parsing the rendering of an integer gives the integer back. */
  lemma IntToDecimalRoundTrip(n: int)
    ensures ParseInt(IntToDecimal(n)) == Some(n)
  {
    if n < 0 {
      NatToDecimalRoundTrip(-n);
      assert IntToDecimal(n)[1..] == NatToDecimal(-n);
    } else {
      NatToDecimalRoundTrip(n);
    }
  }
}
