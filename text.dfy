/** The textual form of integers and the default ordering of JavaScript
    strings, both of which the dashboard relies on implicitly. */
module Text {

  function DigitChar(d: nat): (c: char)
    requires d < 10
    ensures '0' <= c <= '9'
  {
    ('0' as int + d) as char
  }

  /** Decimal digits of a natural number, most significant first, with no
      leading zero. */
  function Digits(n: nat): (s: string)
    ensures |s| >= 1
    ensures (|s| == 1) == (n < 10)
    decreases n
  {
    if n < 10 then [DigitChar(n)] else Digits(n / 10) + [DigitChar(n % 10)]
  }

  /** How a template literal or `String(n)` renders an integer. */
  function DecimalText(i: int): (s: string)
    ensures s != []
  {
    if i < 0 then "-" + Digits(-i) else Digits(i)
  }

  /** The order of JavaScript's `<` on strings and of `Array.prototype.sort`
      without a comparator: character by character, a proper prefix first.
      Characters here are Unicode scalar values, where JavaScript compares
      UTF-16 code units; the two orders agree on the digit strings this
      model sorts. */
  predicate LexLess(x: string, y: string)
  {
    if x == [] then y != []
    else if y == [] then false
    else if x[0] != y[0] then x[0] < y[0]
    else LexLess(x[1..], y[1..])
  }

  lemma {:induction false} LexLessIrreflexive(x: string)
    ensures !LexLess(x, x)
  {
    if x != [] {
      LexLessIrreflexive(x[1..]);
    }
  }

  lemma {:induction false} LexLessTransitive(x: string, y: string, z: string)
    requires LexLess(x, y) && LexLess(y, z)
    ensures LexLess(x, z)
  {
    if x != [] && y != [] && z != [] && x[0] == y[0] && y[0] == z[0] {
      LexLessTransitive(x[1..], y[1..], z[1..]);
    }
  }

  /** Two strings that differ are ordered one way or the other. */
  lemma {:induction false} LexLessTotal(x: string, y: string)
    ensures x == y || LexLess(x, y) || LexLess(y, x)
  {
    if x != [] && y != [] && x[0] == y[0] {
      LexLessTotal(x[1..], y[1..]);
      if x[1..] == y[1..] {
        assert x == [x[0]] + x[1..] && y == [y[0]] + y[1..];
      }
    }
  }

  /** Appending one character to each of two strings of equal length. */
  lemma {:induction false} LexLessSnoc(x: string, y: string, c: char, d: char)
    requires |x| == |y|
    ensures LexLess(x + [c], y + [d]) <==> LexLess(x, y) || (x == y && c < d)
  {
    if x != [] {
      assert (x + [c])[1..] == x[1..] + [c];
      assert (y + [d])[1..] == y[1..] + [d];
      LexLessSnoc(x[1..], y[1..], c, d);
      if x[0] == y[0] && x[1..] == y[1..] {
        assert x == [x[0]] + x[1..] && y == [y[0]] + y[1..];
      }
    }
  }

  /** Numeric order compares the leading digits first, then the last one. */
  lemma {:induction false} NumericOrderByLastDigit(a: nat, b: nat)
    ensures a < b <==> a / 10 < b / 10 || (a / 10 == b / 10 && a % 10 < b % 10)
  {
    assert a == 10 * (a / 10) + a % 10;
    assert b == 10 * (b / 10) + b % 10;
  }

  /** For numbers written with the same number of digits, the string order
      of their decimal texts is their numeric order. */
  lemma {:induction false} LexOrderMatchesNumeric(a: nat, b: nat)
    requires |Digits(a)| == |Digits(b)|
    ensures LexLess(Digits(a), Digits(b)) <==> a < b
    decreases a + b
  {
    if a < 10 {
      assert b < 10;
      assert Digits(a) == [DigitChar(a)] && Digits(b) == [DigitChar(b)];
    } else {
      assert b >= 10;
      var x, y := Digits(a / 10), Digits(b / 10);
      var c, d := DigitChar(a % 10), DigitChar(b % 10);
      assert Digits(a) == x + [c] && Digits(b) == y + [d];
      LexLessSnoc(x, y, c, d);
      LexOrderMatchesNumeric(a / 10, b / 10);
      LexOrderMatchesNumeric(b / 10, a / 10);
      if x == y {
        LexLessIrreflexive(x);
      }
      assert x == y <==> a / 10 == b / 10;
      assert c < d <==> a % 10 < b % 10;
      NumericOrderByLastDigit(a, b);
    }
  }

  /** Every year from 1000 to 9999 is written with exactly four digits. */
  lemma {:induction false} FourDigits(n: nat)
    requires 1000 <= n <= 9999
    ensures |Digits(n)| == 4
  {
    var n1, n2, n3 := n / 10, n / 10 / 10, n / 10 / 10 / 10;
    assert 100 <= n1 <= 999 && 10 <= n2 <= 99 && 1 <= n3 <= 9;
    assert |Digits(n3)| == 1;
    assert |Digits(n2)| == |Digits(n3)| + 1;
    assert |Digits(n1)| == |Digits(n2)| + 1;
    assert |Digits(n)| == |Digits(n1)| + 1;
  }
}
