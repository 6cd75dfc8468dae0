/** Decimal numerals: plain (%d) and zero-padded (%020d). */
module Decimal {
  import opened Ordering

  function Digit(d: nat): (c: char)
    requires d < 10
  {
    ('0' as int + d) as char
  }

  predicate IsDigit(c: char) {
    '0' <= c <= '9'
  }

  /** fmt.Sprintf("%d", n) */
  function Numeral(n: nat): string {
    if n < 10 then [Digit(n)] else Numeral(n / 10) + [Digit(n % 10)]
  }

  predicate AllDigits(s: string) {
    forall i | 0 <= i < |s| :: IsDigit(s[i])
  }

  function Value(s: string): nat
    requires AllDigits(s)
  {
    if s == [] then 0
    else Value(s[..|s| - 1]) * 10 + (s[|s| - 1] as int - '0' as int)
  }

  lemma {:induction false} NumeralRoundTrip(n: nat)
    ensures AllDigits(Numeral(n)) && Value(Numeral(n)) == n
  {
    if n >= 10 {
      NumeralRoundTrip(n / 10);
      var s := Numeral(n);
      assert s[..|s| - 1] == Numeral(n / 10);
    } else {
      var s := Numeral(n);
      assert s[..|s| - 1] == [];
    }
  }

  /** The last `width` decimal digits of n, with leading zeros. */
  function Padded(n: nat, width: nat): string {
    if width == 0 then [] else Padded(n / 10, width - 1) + [Digit(n % 10)]
  }

  function Pow10(k: nat): nat {
    if k == 0 then 1 else 10 * Pow10(k - 1)
  }

  lemma {:induction false} PaddedLength(n: nat, width: nat)
    ensures |Padded(n, width)| == width
  {
    if width == 0 {
    } else {
      PaddedLength(n / 10, width - 1);
    }
  }

  /** Texts of equal length compare by their first different prefix, then by their suffixes. */
  lemma {:induction false} StringLessSplits(a: string, b: string, x: string, y: string)
    requires |a| == |b|
    ensures StringLess(a + x, b + y) <==> StringLess(a, b) || (a == b && StringLess(x, y))
  {
    if a == [] {
      assert a + x == x && b + y == y;
    } else {
      assert (a + x)[1..] == a[1..] + x && (b + y)[1..] == b[1..] + y;
      assert a == [a[0]] + a[1..] && b == [b[0]] + b[1..];
      StringLessSplits(a[1..], b[1..], x, y);
    }
  }

  /** Zero-padding makes the byte order of the texts the numeric order of the numbers. */
  lemma {:induction false} PaddedOrder(n: nat, m: nat, width: nat)
    requires n < Pow10(width) && m < Pow10(width)
    ensures StringLess(Padded(n, width), Padded(m, width)) <==> n < m
    ensures Padded(n, width) == Padded(m, width) <==> n == m
  {
    if width == 0 {
    } else {
      PaddedOrder(n / 10, m / 10, width - 1);
      PaddedLength(n / 10, width - 1);
      PaddedLength(m / 10, width - 1);
      var a, b := Padded(n / 10, width - 1), Padded(m / 10, width - 1);
      var x, y := [Digit(n % 10)], [Digit(m % 10)];
      StringLessSplits(a, b, x, y);
      assert StringLess(x, y) <==> n % 10 < m % 10;
      assert a + x == b + y <==> a == b && x == y by {
        if a + x == b + y {
          assert (a + x)[..|a|] == a && (b + y)[..|a|] == b && (a + x)[|a|] == x[0] && (b + y)[|a|] == y[0];
        }
      }
    }
  }
}
