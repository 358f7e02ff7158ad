/** Character-level helpers the wire format relies on: Python's `str.strip()`
    and fixed-width decimal fields. */
module Text {
  import opened Pins

  /** ASCII characters Python's `str.isspace()` accepts. */
  predicate IsSpace(c: char) {
    c == ' ' || ('\t' <= c <= '\r') || ('\U{1C}' <= c <= '\U{1F}')
  }

  /** Leading whitespace removed. */
  function TrimLeft(s: string): (r: string)
    ensures |r| <= |s| && r == s[|s| - |r|..]
    ensures forall i :: 0 <= i < |s| - |r| ==> IsSpace(s[i])
    ensures r != [] ==> !IsSpace(r[0])
    decreases |s|
  {
    if |s| > 0 && IsSpace(s[0]) then TrimLeft(s[1..]) else s
  }

  /** Trailing whitespace removed. */
  function TrimRight(s: string): (r: string)
    ensures |r| <= |s| && r == s[..|r|]
    ensures forall i :: |r| <= i < |s| ==> IsSpace(s[i])
    ensures r != [] ==> !IsSpace(r[|r| - 1])
    decreases |s|
  {
    if |s| > 0 && IsSpace(s[|s| - 1]) then TrimRight(s[..|s| - 1]) else s
  }

  /** Python's `str.strip()` with no argument (on ASCII text). */
  function Strip(s: string): (r: string)
    ensures |r| <= |s|
    ensures r != [] ==> !IsSpace(r[0]) && !IsSpace(r[|r| - 1])
  {
    TrimRight(TrimLeft(s))
  }

  /** A non-blank first character survives stripping. */
  lemma StripKeepsFirst(s: string)
    requires s != [] && !IsSpace(s[0])
    ensures Strip(s) != [] && Strip(s)[0] == s[0]
  {
    assert TrimLeft(s) == s;
  }

  /** Stripping a frame whose body has non-blank ends and whose tail is all
      whitespace (the line terminator) yields exactly the body. */
  lemma {:induction false} StripKeepsBody(body: string, tail: string)
    requires body != [] && !IsSpace(body[0]) && !IsSpace(body[|body| - 1])
    requires forall i :: 0 <= i < |tail| ==> IsSpace(tail[i])
    ensures Strip(body + tail) == body
  {
    assert (body + tail)[0] == body[0];
    assert TrimLeft(body + tail) == body + tail;
    TrimRightDropsTail(body, tail);
  }

  lemma {:induction false} TrimRightDropsTail(body: string, tail: string)
    requires body != [] && !IsSpace(body[|body| - 1])
    requires forall i :: 0 <= i < |tail| ==> IsSpace(tail[i])
    ensures TrimRight(body + tail) == body
    decreases |tail|
  {
    if tail == [] {
      assert body + tail == body;
    } else {
      var s := body + tail;
      assert s[|s| - 1] == tail[|tail| - 1];
      assert s[..|s| - 1] == body + tail[..|tail| - 1];
      TrimRightDropsTail(body, tail[..|tail| - 1]);
    }
  }

  predicate IsDigit(c: char) {
    '0' <= c <= '9'
  }

  function DigitValue(c: char): (v: nat)
    requires IsDigit(c)
    ensures v < 10
  {
    c as int - '0' as int
  }

  function DigitChar(v: int): (c: char)
    requires 0 <= v < 10
    ensures IsDigit(c) && DigitValue(c) == v
  {
    ('0' as int + v) as char
  }

  function Pow10(w: nat): (p: nat)
    ensures p >= 1
  {
    if w == 0 then 1 else 10 * Pow10(w - 1)
  }

  /** The `w` least significant decimal digits of `n`, most significant first,
      zero padded (Python's `%0wd` for `0 <= n < 10^w`). Division is floor
      division, as Python's `//` and `%` with a positive divisor. */
  function DecimalDigits(n: int, w: nat): (s: string)
    ensures |s| == w
    ensures forall i :: 0 <= i < w ==> IsDigit(s[i])
    decreases w
  {
    if w == 0 then [] else DecimalDigits(n / 10, w - 1) + [DigitChar(n % 10)]
  }

  /** The number a field of ASCII digits denotes, or None when some character
      is not a digit. */
  function DigitsValue(s: string): (r: Option<nat>)
    ensures r.Some? <==> forall i :: 0 <= i < |s| ==> IsDigit(s[i])
    ensures r.Some? ==> r.value < Pow10(|s|)
  {
    if |s| == 0 then Some(0)
    else if !IsDigit(s[|s| - 1]) then None
    else match DigitsValue(s[..|s| - 1])
      case None => None
      case Some(v) => Some(10 * v + DigitValue(s[|s| - 1]))
  }

  /** Reading back `w` digits gives `n` reduced modulo 10^w. */
  lemma {:induction false} DecimalDigitsValue(n: int, w: nat)
    ensures DigitsValue(DecimalDigits(n, w)) == Some(n % Pow10(w))
    decreases w
  {
    if w == 0 {
      assert n % 1 == 0;
    } else {
      var s := DecimalDigits(n, w);
      assert s[..|s| - 1] == DecimalDigits(n / 10, w - 1);
      DecimalDigitsValue(n / 10, w - 1);
      ModSplit(n, Pow10(w - 1));
    }
  }

  /** A field of `w` digits names the number it was written from. */
  lemma {:induction false} DigitsValueDecimal(s: string, v: nat)
    requires DigitsValue(s) == Some(v)
    ensures DecimalDigits(v, |s|) == s
  {
    if |s| > 0 {
      var last := s[|s| - 1];
      var u := DigitsValue(s[..|s| - 1]).value;
      assert v == 10 * u + DigitValue(last);
      DivModUnique(v, 10, u, DigitValue(last));
      DigitsValueDecimal(s[..|s| - 1], u);
      assert s == s[..|s| - 1] + [last];
    }
  }

  lemma DivModUnique(a: int, d: int, q: int, r: int)
    requires d > 0 && 0 <= r < d && a == d * q + r
    ensures a / d == q && a % d == r
  {
    var q', r' := a / d, a % d;
    assert d * q - d * q' == d * (q - q');
    MulSign(d, q - q');
  }

  /** A multiple of a positive `d` by a non-zero factor is at least `d` away
      from zero. */
  lemma MulSign(d: int, t: int)
    requires d > 0
    ensures t >= 1 ==> d * t >= d
    ensures t <= -1 ==> d * t <= -d
  {
    if t >= 1 {
      assert d * t == d * (t - 1) + d;
      MulNonNegative(d, t - 1);
    } else if t <= -1 {
      assert d * t == -(d * (-t - 1)) - d;
      MulNonNegative(d, -t - 1);
    }
  }

  lemma MulNonNegative(x: int, y: int)
    requires x >= 0 && y >= 0
    ensures x * y >= 0
  {
  }

  lemma ModSplit(n: int, p: nat)
    requires p >= 1
    ensures 10 * ((n / 10) % p) + n % 10 == n % (10 * p)
  {
    var q, r := n / 10, n % 10;
    var k, m := q / p, q % p;
    assert n == 10 * q + r;
    assert q == p * k + m;
    assert n == (10 * p) * k + (10 * m + r) by {
      assert 10 * q == 10 * (p * k) + 10 * m;
      assert 10 * (p * k) == (10 * p) * k;
    }
    assert 10 * m + r < 10 * p by {
      assert m <= p - 1;
      assert 10 * m <= 10 * (p - 1);
    }
    DivModUnique(n, 10 * p, k, 10 * m + r);
  }

  /** `(a // b) // c == a // (b * c)` for positive divisors. */
  lemma DivDiv(a: int, b: int, c: int)
    requires b > 0 && c > 0
    ensures a / b / c == a / (b * c)
  {
    var q1, r1 := a / b, a % b;
    var q2, r2 := q1 / c, q1 % c;
    Regroup(a, b, c, q1, r1, q2, r2);
    MulNonNegative(b, r2);
    MulNonNegative(b, c - 1 - r2);
    assert b * (c - 1 - r2) == b * c - b - b * r2;
    DivModUnique(a, b * c, q2, b * r2 + r1);
  }

  lemma Regroup(a: int, b: int, c: int, q1: int, r1: int, q2: int, r2: int)
    requires a == b * q1 + r1 && q1 == c * q2 + r2
    ensures a == (b * c) * q2 + (b * r2 + r1)
  {
    assert b * q1 == b * (c * q2) + b * r2;
    assert b * (c * q2) == (b * c) * q2;
  }
}
