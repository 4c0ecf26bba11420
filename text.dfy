/**
 * Strings as JavaScript sees them: decimal digits, `String(n)` for a
 * non-negative integer, `padStart`, `parseInt` of a digit run, and the
 * relational operator `>` on strings (code-unit lexicographic order).
 */
module Text {

  predicate IsDigit(c: char) { '0' <= c <= '9' }

  function DigitValue(c: char): (d: nat)
    requires IsDigit(c)
    ensures d < 10
  {
    c as int - '0' as int
  }

  function DigitChar(d: nat): (c: char)
    requires d < 10
    ensures IsDigit(c) && DigitValue(c) == d
  {
    (d + '0' as int) as char
  }

  /** The regular-expression class `\d` repeated over the whole string. */
  predicate AllDigits(s: string) {
    forall i :: 0 <= i < |s| ==> IsDigit(s[i])
  }

  function Pow10(n: nat): (p: nat)
    ensures p >= 1
  {
    if n == 0 then 1 else 10 * Pow10(n - 1)
  }

  /** The value of a run of decimal digits, as `parseInt(s)` reads it. */
  function ParseNat(s: string): nat
    requires AllDigits(s)
  {
    if s == [] then 0 else ParseNat(s[..|s| - 1]) * 10 + DigitValue(s[|s| - 1])
  }

  /** `String(n)` for a non-negative integer: its shortest decimal rendering. */
  function NatToString(n: nat): (s: string)
    ensures AllDigits(s) && |s| >= 1
    ensures s[0] == '0' ==> n == 0
  {
    if n < 10 then [DigitChar(n)] else NatToString(n / 10) + [DigitChar(n % 10)]
  }

  /** `String(i)` for any integer. */
  function IntToString(i: int): (s: string)
    ensures |s| >= 1
    ensures s[0] == '-' <==> i < 0
  {
    if i < 0 then "-" + NatToString(-i) else NatToString(i)
  }

  /** Text `String(i)` can write: an optional minus sign, then at least one digit. */
  predicate IsIntText(s: string) {
    s != [] && if s[0] == '-' then |s| >= 2 && AllDigits(s[1..]) else AllDigits(s)
  }

  /** `Number(s)` for such a text. */
  function ParseInt(s: string): int
    requires IsIntText(s)
  {
    if s[0] == '-' then -(ParseNat(s[1..]) as int) else ParseNat(s)
  }

  /** `s.padStart(width, fill)` with a one-character fill string. */
  function PadStart(s: string, width: nat, fill: char): (r: string)
    ensures |r| == if |s| >= width then |s| else width
    ensures r[|r| - |s|..] == s
    ensures forall i :: 0 <= i < |r| - |s| ==> r[i] == fill
  {
    if |s| >= width then s else seq(width - |s|, _ => fill) + s
  }

  /** `String(n).padStart(2, '0')`. */
  function Pad2(n: nat): string {
    PadStart(NatToString(n), 2, '0')
  }

  /** The last `width` decimal digits of n, zero-filled (the printf `%0*d` form). */
  function Digits(n: nat, width: nat): (s: string)
    ensures |s| == width && AllDigits(s)
  {
    if width == 0 then "" else Digits(n / 10, width - 1) + [DigitChar(n % 10)]
  }

  /** JavaScript `a > b` on strings: the first differing code unit decides, and a proper extension is greater. */
  predicate StringGreater(a: string, b: string)
    decreases |a|
  {
    if b == [] then a != []
    else if a == [] then false
    else if a[0] == b[0] then StringGreater(a[1..], b[1..])
    else a[0] > b[0]
  }

  lemma {:induction false} ParseNatToString(n: nat)
    ensures ParseNat(NatToString(n)) == n
  {
    if n >= 10 {
      var s := NatToString(n / 10);
      ParseNatToString(n / 10);
      var t := s + [DigitChar(n % 10)];
      assert t[..|t| - 1] == s;
    }
  }

  /** `Number(String(i)) == i` for every integer. */
  lemma IntToStringRoundTrip(i: int)
    ensures IsIntText(IntToString(i)) && ParseInt(IntToString(i)) == i
  {
    if i < 0 {
      var t := NatToString(-i);
      ParseNatToString(-i);
      assert ("-" + t)[1..] == t;
    } else {
      ParseNatToString(i);
    }
  }

  lemma {:induction false} NatToStringLength(n: nat, w: nat)
    requires w >= 1 && Pow10(w - 1) <= n < Pow10(w)
    ensures |NatToString(n)| == w
  {
    if n >= 10 {
      assert w >= 2;
      NatToStringLength(n / 10, w - 1);
    }
  }

  lemma NatToStringOneDigit(n: nat)
    requires n < 10
    ensures NatToString(n) == [DigitChar(n)]
  {
  }

  lemma NatToStringTwoDigits(n: nat)
    requires 10 <= n < 100
    ensures NatToString(n) == [DigitChar(n / 10), DigitChar(n % 10)]
  {
    NatToStringOneDigit(n / 10);
  }

  lemma PadStartOne(c: char, fill: char)
    ensures PadStart([c], 2, fill) == [fill, c]
  {
  }

  /** The two characters of a two-digit `padStart` rendering. */
  lemma Pad2Chars(n: nat)
    requires n < 100
    ensures Pad2(n) == [DigitChar(n / 10), DigitChar(n % 10)]
  {
    if n < 10 {
      NatToStringOneDigit(n);
      PadStartOne(DigitChar(n), '0');
      assert DigitChar(0) == '0';
    } else {
      NatToStringTwoDigits(n);
    }
  }

  lemma ParseNatTwo(a: char, b: char)
    requires IsDigit(a) && IsDigit(b)
    ensures ParseNat([a, b]) == DigitValue(a) * 10 + DigitValue(b)
  {
    assert [a, b][..1] == [a];
    assert ParseNat([a]) == DigitValue(a) by {
      assert [a][..0] == [];
    }
  }

  /** A two-digit `padStart` rendering reads back as the number it renders. */
  lemma Pad2RoundTrip(n: nat)
    requires n < 100
    ensures |Pad2(n)| == 2 && AllDigits(Pad2(n)) && ParseNat(Pad2(n)) == n
  {
    Pad2Chars(n);
    ParseNatTwo(DigitChar(n / 10), DigitChar(n % 10));
  }

  /** Below 100, the two-character `padStart` rendering is the zero-filled two-digit one. */
  lemma Pad2IsDigits(n: nat)
    requires n < 100
    ensures Pad2(n) == Digits(n, 2)
  {
    Pad2Chars(n);
    var tens := n / 10;
    assert tens < 10;
    DigitsOne(tens);
    assert Digits(n, 2) == Digits(tens, 1) + [DigitChar(n % 10)];
  }

  lemma DigitsOne(k: nat)
    requires k < 10
    ensures Digits(k, 1) == [DigitChar(k)]
  {
    assert k / 10 == 0 && k % 10 == k;
    assert Digits(k, 1) == Digits(k / 10, 0) + [DigitChar(k % 10)];
  }

  lemma {:induction false} DigitsRoundTrip(n: nat, width: nat)
    requires n < Pow10(width)
    ensures ParseNat(Digits(n, width)) == n
  {
    if width > 0 {
      assert Pow10(width) == 10 * Pow10(width - 1);
      assert n / 10 < Pow10(width - 1);
      DigitsRoundTrip(n / 10, width - 1);
      var s := Digits(n, width);
      assert s[..|s| - 1] == Digits(n / 10, width - 1);
      assert DigitValue(s[|s| - 1]) == n % 10;
      assert n == n / 10 * 10 + n % 10;
    }
  }

  lemma {:induction false} ParseNatBound(s: string)
    requires AllDigits(s)
    ensures ParseNat(s) < Pow10(|s|)
    decreases |s|
  {
    if s != [] {
      ParseNatBound(s[..|s| - 1]);
    }
  }

  /** A digit run is the zero-filled rendering, at its own width, of the number it spells. */
  lemma {:induction false} DigitsOfParse(s: string)
    requires AllDigits(s)
    ensures Digits(ParseNat(s), |s|) == s
    decreases |s|
  {
    if s != [] {
      var p := s[..|s| - 1];
      DigitsOfParse(p);
      var n := ParseNat(s);
      assert n / 10 == ParseNat(p) && n % 10 == DigitValue(s[|s| - 1]);
      assert DigitChar(DigitValue(s[|s| - 1])) == s[|s| - 1];
      assert s == p + [s[|s| - 1]];
    }
  }

  lemma {:induction false} StringGreaterIrreflexive(a: string)
    ensures !StringGreater(a, a)
    decreases |a|
  {
    if a != [] {
      StringGreaterIrreflexive(a[1..]);
    }
  }

  /** Distinct strings are always ordered one way or the other, never both. */
  lemma {:induction false} StringGreaterTrichotomy(a: string, b: string)
    ensures a != b ==> (StringGreater(a, b) <==> !StringGreater(b, a))
    ensures a == b ==> !StringGreater(a, b)
    decreases |a|
  {
    if a == b {
      StringGreaterIrreflexive(a);
    } else if a != [] && b != [] && a[0] == b[0] {
      StringGreaterTrichotomy(a[1..], b[1..]);
    }
  }

  /** A common prefix does not change how `>` orders two strings. */
  lemma {:induction false} StringGreaterPrefix(p: string, a: string, b: string)
    ensures StringGreater(p + a, p + b) == StringGreater(a, b)
    decreases |p|
  {
    if p != [] {
      assert (p + a)[0] == p[0] == (p + b)[0];
      assert (p + a)[1..] == p[1..] + a;
      assert (p + b)[1..] == p[1..] + b;
      StringGreaterPrefix(p[1..], a, b);
    } else {
      assert p + a == a && p + b == b;
    }
  }

  /** Between strings of equal length, `>` is decided before anything appended to them. */
  lemma {:induction false} StringGreaterAppend(a: string, b: string, x: string, y: string)
    requires |a| == |b| && StringGreater(a, b)
    ensures StringGreater(a + x, b + y)
    decreases |a|
  {
    assert a != [] && b != [];
    assert (a + x)[0] == a[0] && (b + y)[0] == b[0];
    if a[0] == b[0] {
      assert (a + x)[1..] == a[1..] + x;
      assert (b + y)[1..] == b[1..] + y;
      StringGreaterAppend(a[1..], b[1..], x, y);
    }
  }

  /** Zero-filled renderings of the same width order as the numbers do. */
  lemma {:induction false} DigitsOrder(m: nat, n: nat, width: nat)
    requires n < m < Pow10(width)
    ensures StringGreater(Digits(m, width), Digits(n, width))
    decreases width
  {
    assert width > 0;
    assert Pow10(width) == 10 * Pow10(width - 1);
    assert m / 10 < Pow10(width - 1);
    if m / 10 > n / 10 {
      DigitsOrder(m / 10, n / 10, width - 1);
      StringGreaterAppend(Digits(m / 10, width - 1), Digits(n / 10, width - 1), [DigitChar(m % 10)], [DigitChar(n % 10)]);
    } else {
      assert m / 10 == n / 10 && m % 10 > n % 10;
      StringGreaterPrefix(Digits(m / 10, width - 1), [DigitChar(m % 10)], [DigitChar(n % 10)]);
    }
  }
}
