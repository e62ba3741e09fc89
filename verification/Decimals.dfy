/** Decimal integers: Python's `str(int)`, `int(str)` and the index pattern
    that override targets accept. */
module Decimals {
  predicate IsDigit(c: char) { '0' <= c <= '9' }

  predicate AllDigits(s: string) { forall i | 0 <= i < |s| :: IsDigit(s[i]) }

  function DigitChar(d: nat): (c: char)
    requires d < 10
    ensures IsDigit(c) && DigitValue(c) == d
  {
    ('0' as int + d) as char
  }

  function DigitValue(c: char): nat
    requires IsDigit(c)
  {
    c as int - '0' as int
  }

  function OfNat(n: nat): (s: string)
    ensures s != "" && AllDigits(s)
    ensures s[0] == '0' ==> s == "0"
  {
    if n < 10 then [DigitChar(n)] else OfNat(n / 10) + [DigitChar(n % 10)]
  }

  /** `str(n)` */
  function OfInt(n: int): string {
    if n < 0 then "-" + OfNat(-n) else OfNat(n)
  }

  function ToNat(s: string): nat
    requires AllDigits(s)
  {
    if s == "" then 0 else 10 * ToNat(s[..|s| - 1]) + DigitValue(s[|s| - 1])
  }

  /** The pattern `0|-?[1-9][0-9]*`, matched against the whole text. */
  predicate IsIndexText(s: string) {
    || s == "0"
    || IsPositiveText(s)
    || (s != "" && s[0] == '-' && IsPositiveText(s[1..]))
  }

  predicate IsPositiveText(s: string) { s != "" && AllDigits(s) && s[0] != '0' }

  /** `int(s)` on a text that matches the pattern. */
  function ToInt(s: string): int
    requires IsIndexText(s)
  {
    if s[0] == '-' then -(ToNat(s[1..]) as int) else ToNat(s)
  }

  lemma {:induction false} ToNatOfNat(n: nat)
    ensures ToNat(OfNat(n)) == n
  {
    if n >= 10 {
      ToNatOfNat(n / 10);
      assert OfNat(n)[..|OfNat(n)| - 1] == OfNat(n / 10);
    } else {
      assert ToNat([DigitChar(n)][..0]) == 0;
    }
  }

  lemma {:induction false} OfNatToNat(s: string)
    requires s == "0" || IsPositiveText(s)
    ensures OfNat(ToNat(s)) == s
    ensures s != "0" ==> ToNat(s) > 0
  {
    var last := |s| - 1;
    if last == 0 {
      assert s[..last] == "";
      assert s == [DigitChar(ToNat(s))];
    } else {
      var front := s[..last];
      OfNatToNat(front);
      var n, d := ToNat(front), DigitValue(s[last]);
      assert ToNat(s) == 10 * n + d;
      assert (10 * n + d) / 10 == n && (10 * n + d) % 10 == d && 10 * n + d >= 10;
      assert s == front + [s[last]] && s[last] == DigitChar(d);
    }
  }

  /** The pattern accepts exactly the texts that `str` prints, and `int` undoes `str`. */
  lemma PatternIsImage(s: string, n: int)
    ensures IsIndexText(s) && ToInt(s) == n <==> s == OfInt(n)
  {
    if s == OfInt(n) {
      var m: nat := if n < 0 then -n else n;
      ToNatOfNat(m);
      assert m > 0 ==> OfNat(m) != "0" by { assert ToNat("0") == 0 by { assert "0"[..0] == ""; } }
    }
    if IsIndexText(s) && ToInt(s) == n {
      if s[0] == '-' {
        OfNatToNat(s[1..]);
        assert s == "-" + s[1..];
      } else {
        OfNatToNat(s);
      }
    }
  }

  /** Two decimal numerals followed by non-digits can be told apart. */
  lemma DigitsDelimited(a: string, x: string, b: string, y: string)
    requires AllDigits(a) && AllDigits(b)
    requires x == "" || !IsDigit(x[0])
    requires y == "" || !IsDigit(y[0])
    requires a + x == b + y
    ensures a == b && x == y
  {
    var t := a + x;
    assert forall i | 0 <= i < |a| :: t[i] == a[i];
    assert forall i | 0 <= i < |b| :: t[i] == b[i];
    assert x != "" ==> t[|a|] == x[0];
    assert y != "" ==> t[|b|] == y[0];
    assert |a| == |b|;
    assert a == t[..|a|] && b == t[..|b|];
    assert x == t[|a|..] && y == t[|b|..];
  }

  lemma OfIntDelimited(n: int, x: string, m: int, y: string)
    requires x == "" || !IsDigit(x[0])
    requires y == "" || !IsDigit(y[0])
    requires OfInt(n) + x == OfInt(m) + y
    ensures n == m && x == y
  {
    hide OfNat, ToNat;
    var s, t := OfInt(n), OfInt(m);
    assert s[0] == (s + x)[0] == (t + y)[0] == t[0];
    assert (n < 0) == (m < 0);
    if n < 0 {
      assert (s + x)[1..] == OfNat(-n) + x;
      assert (t + y)[1..] == OfNat(-m) + y;
      DigitsDelimited(OfNat(-n), x, OfNat(-m), y);
      ToNatOfNat(-n);
      ToNatOfNat(-m);
    } else {
      DigitsDelimited(OfNat(n), x, OfNat(m), y);
      ToNatOfNat(n);
      ToNatOfNat(m);
    }
  }
}
