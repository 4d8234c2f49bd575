/**
 * Decimal rendering of natural numbers, the inverse parse, and the thousands
 * grouping with dots that the "id-ID" locale applies to an integer amount. For
 * whole numbers below 2^53, which a JavaScript number holds exactly and prints
 * without an exponent, this is how template strings print them (`${id}`,
 * `{duration}`).
 */
module Decimal {

  predicate IsDigit(c: char) {
    '0' <= c <= '9'
  }

  predicate AllDigits(s: string) {
    forall i :: 0 <= i < |s| ==> IsDigit(s[i])
  }

  function DigitValue(c: char): (d: nat)
    requires IsDigit(c)
    ensures d < 10
  {
    c as int - '0' as int
  }

  function DigitChar(d: nat): (c: char)
    requires d < 10
    ensures IsDigit(c) && DigitValue(c) == d
  {
    (d + '0' as int) as char
  }

  /** A numeral as JavaScript prints an integer: one or more digits, no leading zero. */
  predicate Canonical(s: string) {
    1 <= |s| && AllDigits(s) && (|s| > 1 ==> s[0] != '0')
  }

  /** The shortest decimal numeral of `n`: digits only, no leading zero. */
  function DecimalString(n: nat): (s: string)
    ensures Canonical(s)
    ensures n < 10 <==> |s| == 1
  {
    if n < 10 then [DigitChar(n)] else DecimalString(n / 10) + [DigitChar(n % 10)]
  }

  /** The value of a digit string, most significant digit first. */
  function ParseDecimal(s: string): nat
    requires AllDigits(s)
  {
    if s == [] then 0 else ParseDecimal(s[..|s| - 1]) * 10 + DigitValue(s[|s| - 1])
  }

  /** Reading a rendered number back gives the number. */
  lemma {:induction false} ParseDecimalString(n: nat)
    ensures ParseDecimal(DecimalString(n)) == n
  {
    if n >= 10 {
      var s := DecimalString(n);
      assert s[..|s| - 1] == DecimalString(n / 10);
      ParseDecimalString(n / 10);
    }
  }

  /** Distinct numbers render as distinct numerals. */
  lemma DecimalStringInjective(a: nat, b: nat)
    requires DecimalString(a) == DecimalString(b)
    ensures a == b
  {
    ParseDecimalString(a);
    ParseDecimalString(b);
  }

  /**
   * A canonical numeral is the printed form of the number it denotes, so no
   * other digit string with the same value is canonical.
   */
  lemma {:induction false} CanonicalNumeral(s: string)
    requires Canonical(s)
    ensures DecimalString(ParseDecimal(s)) == s
    decreases |s|
  {
    if |s| == 1 {
      assert DigitChar(DigitValue(s[0])) == s[0];
    } else {
      var prefix := s[..|s| - 1];
      assert prefix[0] == s[0];
      CanonicalNumeral(prefix);
      assert ParseDecimal(prefix) != 0;
      var n := ParseDecimal(s);
      var d := DigitValue(s[|s| - 1]);
      assert n == ParseDecimal(prefix) * 10 + d;
      assert n / 10 == ParseDecimal(prefix) && n % 10 == d;
      assert DigitChar(d) == s[|s| - 1];
      assert s == prefix + [s[|s| - 1]];
    }
  }

  /** The string with every '.' taken out. */
  function RemoveDots(s: string): (r: string)
    ensures |r| <= |s|
  {
    if s == [] then []
    else RemoveDots(s[..|s| - 1]) + (if s[|s| - 1] == '.' then [] else [s[|s| - 1]])
  }

  lemma {:induction false} RemoveDotsAppend(a: string, b: string)
    ensures RemoveDots(a + b) == RemoveDots(a) + RemoveDots(b)
    decreases |b|
  {
    if b == [] {
      assert a + b == a;
    } else {
      var b' := b[..|b| - 1];
      assert (a + b)[..|a + b| - 1] == a + b';
      RemoveDotsAppend(a, b');
    }
  }

  lemma {:induction false} RemoveDotsOfDigits(s: string)
    requires AllDigits(s)
    ensures RemoveDots(s) == s
  {
    if s != [] {
      RemoveDotsOfDigits(s[..|s| - 1]);
    }
  }

  /**
   * Groups a digit string in threes from the right, separated by '.', as the
   * "id-ID" locale writes an integer ("7000000" becomes "7.000.000").
   */
  function GroupThousands(ds: string): (r: string)
    requires 1 <= |ds| && AllDigits(ds)
    ensures |r| == |ds| + (|ds| - 1) / 3
    ensures forall i :: 0 <= i < |r| ==> r[i] == '.' || IsDigit(r[i])
    ensures r[0] == ds[0] && r[|r| - 1] == ds[|ds| - 1]
  {
    if |ds| <= 3 then ds
    else GroupThousands(ds[..|ds| - 3]) + "." + ds[|ds| - 3..]
  }

  /** A dot stands exactly at every fourth position counted from the end. */
  lemma {:induction false} GroupThousandsDotPositions(ds: string)
    requires 1 <= |ds| && AllDigits(ds)
    ensures DotEveryFourth(GroupThousands(ds))
  {
    if |ds| > 3 {
      GroupThousandsDotPositions(ds[..|ds| - 3]);
      AppendGroupKeepsDots(GroupThousands(ds[..|ds| - 3]), ds[|ds| - 3..]);
    }
  }

  /** The dots of `r` stand exactly at every fourth position counted from its end. */
  predicate DotEveryFourth(r: string) {
    forall i :: 0 <= i < |r| ==> (r[i] == '.' <==> (|r| - i) % 4 == 0)
  }

  /** Appending a dot and three digits to a grouped string keeps it grouped. */
  lemma AppendGroupKeepsDots(g: string, tail: string)
    requires DotEveryFourth(g)
    requires |tail| == 3 && AllDigits(tail)
    ensures DotEveryFourth(g + "." + tail)
  {
    var r := g + "." + tail;
    forall i | 0 <= i < |r|
      ensures r[i] == '.' <==> (|r| - i) % 4 == 0
    {
      if i < |g| {
        assert r[i] == g[i];
        assert (|r| - i) % 4 == (|g| - i) % 4;
      } else if i == |g| {
        assert r[i] == '.';
      } else {
        assert r[i] == tail[i - |g| - 1];
        assert 1 <= |r| - i <= 3;
      }
    }
  }

  /** Removing dots from "g.tail" with an all-digit tail leaves the digits of g, then tail. */
  lemma RemoveDotsAroundDot(g: string, tail: string)
    requires AllDigits(tail)
    ensures RemoveDots(g + "." + tail) == RemoveDots(g) + tail
  {
    RemoveDotsAppend(g, ".");
    RemoveDotsAppend(g + ".", tail);
    assert RemoveDots(".") == [];
    RemoveDotsOfDigits(tail);
  }

  /** Grouping only inserts separators: removing them gives the digits back. */
  lemma {:induction false} GroupThousandsKeepsDigits(ds: string)
    requires 1 <= |ds| && AllDigits(ds)
    ensures RemoveDots(GroupThousands(ds)) == ds
  {
    if |ds| <= 3 {
      RemoveDotsOfDigits(ds);
    } else {
      var head, tail := ds[..|ds| - 3], ds[|ds| - 3..];
      GroupThousandsKeepsDigits(head);
      RemoveDotsAroundDot(GroupThousands(head), tail);
      assert head + tail == ds;
    }
  }
}
