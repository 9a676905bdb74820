/** The three pieces of Python text handling the NCF formatting relies on:
    `str(n)` of an integer, `s.zfill(width)`, and `int(s)` as its inverse. */
module Texto {
  import opened Base

  predicate EsDigito(c: char) {
    '0' <= c <= '9'
  }

  predicate SoloDigitos(s: string) {
    forall i :: 0 <= i < |s| ==> EsDigito(s[i])
  }

  function Digito(d: nat): (c: char)
    requires d < 10
    ensures EsDigito(c)
  {
    (48 + d) as char
  }

  function ValorDigito(c: char): (d: nat)
    requires EsDigito(c)
    ensures d < 10
    ensures Digito(d) == c
  {
    c as int - 48
  }

  /** The decimal digits of n, most significant first and without leading
      zeros: what `str(n)` gives for n >= 0. */
  function Decimal(n: nat): (s: string)
    ensures 1 <= |s|
    ensures SoloDigitos(s)
    ensures |s| > 1 ==> s[0] != '0'
  {
    if n < 10 then [Digito(n)] else Decimal(n / 10) + [Digito(n % 10)]
  }

  /** Python `str(n)` of an int: a '-' sign before the digits of |n|. */
  function IntToString(n: int): (s: string)
    ensures 1 <= |s|
    ensures n < 0 <==> s[0] == '-'
    ensures n < 0 ==> SoloDigitos(s[1..])
    ensures n >= 0 ==> SoloDigitos(s)
  {
    if n < 0 then "-" + Decimal(-n) else Decimal(n)
  }

  function Ceros(k: nat): (z: string)
    ensures |z| == k
    ensures forall i :: 0 <= i < k ==> z[i] == '0'
  {
    seq(k, _ => '0')
  }

  /** Length of the sign prefix `zfill` keeps in front of the padding. */
  function Signo(s: string): (n: nat)
    ensures n <= |s|
  {
    if |s| > 0 && (s[0] == '-' || s[0] == '+') then 1 else 0
  }

  /** Python `s.zfill(width)`: pads with '0' up to `width` characters, the
      padding going after a leading sign; never truncates. */
  function ZFill(s: string, width: int): (r: string)
    ensures |r| == if |s| >= width then |s| else width
  {
    if |s| >= width then s
    else
      var k := Signo(s);
      s[..k] + Ceros(width - |s|) + s[k..]
  }

  /** The shape of `zfill`'s result: the sign first, then the zeros, then the
      digits unchanged. */
  lemma ZFillForma(s: string, width: int)
    ensures var r := ZFill(s, width);
      && r[..Signo(s)] == s[..Signo(s)]
      && r[|r| - (|s| - Signo(s))..] == s[Signo(s)..]
      && forall i :: Signo(s) <= i < |r| - (|s| - Signo(s)) ==> r[i] == '0'
  {
  }

  /** The value of a non-empty run of decimal digits. */
  function ValorDecimal(s: string): nat
    requires SoloDigitos(s)
  {
    if s == [] then 0 else ValorDecimal(s[..|s| - 1]) * 10 + ValorDigito(s[|s| - 1])
  }

  /** Python `int(s)` restricted to an optional sign followed by decimal digits;
      anything else is a ValueError, here None. */
  function ParseInt(s: string): Option<int> {
    if |s| >= 2 && s[0] == '-' && SoloDigitos(s[1..]) then Some(-(ValorDecimal(s[1..]) as int))
    else if |s| >= 2 && s[0] == '+' && SoloDigitos(s[1..]) then Some(ValorDecimal(s[1..]))
    else if |s| >= 1 && SoloDigitos(s) then Some(ValorDecimal(s))
    else None
  }

  lemma {:induction false} ValorDecimalDeDecimal(n: nat)
    ensures ValorDecimal(Decimal(n)) == n
    decreases n
  {
    if n >= 10 {
      var s := Decimal(n);
      assert s[..|s| - 1] == Decimal(n / 10);
      ValorDecimalDeDecimal(n / 10);
    }
  }

  lemma {:induction false} ValorDecimalCeros(k: nat, s: string)
    requires SoloDigitos(s)
    ensures SoloDigitos(Ceros(k) + s)
    ensures ValorDecimal(Ceros(k) + s) == ValorDecimal(s)
    decreases |s|
  {
    var t := Ceros(k) + s;
    if s == [] {
      assert t == Ceros(k);
      ValorCeros(k);
    } else {
      assert t[..|t| - 1] == Ceros(k) + s[..|s| - 1];
      ValorDecimalCeros(k, s[..|s| - 1]);
    }
  }

  lemma {:induction false} ValorCeros(k: nat)
    ensures SoloDigitos(Ceros(k))
    ensures ValorDecimal(Ceros(k)) == 0
  {
    if k > 0 {
      assert Ceros(k)[..k - 1] == Ceros(k - 1);
      ValorCeros(k - 1);
    }
  }

  lemma ParseIntSinSigno(u: string)
    requires 1 <= |u| && SoloDigitos(u)
    ensures ParseInt(u) == Some(ValorDecimal(u) as int)
  {
  }

  lemma ParseIntNegativo(u: string)
    requires 1 <= |u| && SoloDigitos(u)
    ensures ParseInt(['-'] + u) == Some(-(ValorDecimal(u) as int))
  {
    var t := ['-'] + u;
    assert t[1..] == u;
  }

  /** zfill of a negative number's text: the zeros go between '-' and the digits. */
  lemma ZFillNegativo(d: string, width: int, p: nat)
    requires 1 <= |d| && d[0] != '-' && d[0] != '+'
    requires p == if 1 + |d| >= width then 0 else width - 1 - |d|
    ensures ZFill(['-'] + d, width) == ['-'] + (Ceros(p) + d)
  {
    var s := ['-'] + d;
    assert Signo(s) == 1 && s[..1] == ['-'] && s[1..] == d;
    if |s| >= width {
      assert Ceros(p) + d == d;
    }
  }

  /** zfill of a non-negative number's text: the zeros go in front. */
  lemma ZFillSinSigno(d: string, width: int, p: nat)
    requires 1 <= |d| && d[0] != '-' && d[0] != '+'
    requires p == if |d| >= width then 0 else width - |d|
    ensures ZFill(d, width) == Ceros(p) + d
  {
    assert Signo(d) == 0 && d[..0] == [] && d[0..] == d;
    if |d| >= width {
      assert Ceros(p) + d == d;
    }
  }

  /** Round trip: padding `str(n)` with zeros loses nothing, `int` reads n back. */
  lemma ZFillRoundTrip(n: int, width: int)
    ensures ParseInt(ZFill(IntToString(n), width)) == Some(n)
  {
    var m: nat := if n < 0 then -n else n;
    var d := Decimal(m);
    ValorDecimalDeDecimal(m);
    var p: nat := if |IntToString(n)| >= width then 0 else width - |IntToString(n)|;
    ValorDecimalCeros(p, d);
    if n < 0 {
      assert IntToString(n) == ['-'] + d;
      ZFillNegativo(d, width, p);
      ParseIntNegativo(Ceros(p) + d);
    } else {
      assert IntToString(n) == d;
      ZFillSinSigno(d, width, p);
      ParseIntSinSigno(Ceros(p) + d);
    }
  }
}
