/**
  The pieces of Java's integer arithmetic and of java.lang.String that the campaign
  code depends on, written out explicitly: the widths of `int` and `long`, truncating
  division, the narrowing `(int)` casts, `Math.round`, `String.trim`, `toLowerCase`,
  `equalsIgnoreCase`, `String.format("%0Nd", n)` and `Long.parseLong`.
 */
module JavaLang {
  import opened Wrappers

  const INT_MIN: int := -0x8000_0000
  const INT_MAX: int := 0x7FFF_FFFF
  const LONG_MIN: int := -0x8000_0000_0000_0000
  const LONG_MAX: int := 0x7FFF_FFFF_FFFF_FFFF

  /** A value of Java type `int`. */
  type Int32 = x: int | INT_MIN <= x <= INT_MAX

  predicate IsInt(x: int) { INT_MIN <= x <= INT_MAX }

  predicate IsLong(x: int) { LONG_MIN <= x <= LONG_MAX }

  function Max(a: int, b: int): int { if a >= b then a else b }

  // ---------------------------------------------------------------------------
  // Integer arithmetic
  // ---------------------------------------------------------------------------

  /** Java's integer `/` by a positive divisor: the quotient is truncated toward zero. */
  function TruncDiv(a: int, b: int): (q: int)
    requires b > 0
    ensures 0 <= a ==> 0 <= q && q * b <= a < q * b + b
    ensures a < 0 ==> q <= 0 && q * b - b < a <= q * b
  {
    if a >= 0 then
      DivisionBounds(a, b);
      a / b
    else
      DivisionBounds(-a, b);
      -((-a) / b)
  }

  /** Euclidean division of a natural by a positive divisor. */
  lemma DivisionBounds(a: int, b: int)
    requires 0 <= a && 0 < b
    ensures 0 <= a / b && (a / b) * b <= a < (a / b) * b + b
  {
    var q, r := a / b, a % b;
    assert a == q * b + r && 0 <= r < b;
  }

  /** Java's narrowing conversion `(int)` of a `long`: keeps the low 32 bits as two's complement. */
  function LongToInt(x: int): (r: int)
    ensures IsInt(r)
    ensures (x - r) % 0x1_0000_0000 == 0
    ensures IsInt(x) ==> r == x
  {
    (x - INT_MIN) % 0x1_0000_0000 + INT_MIN
  }

  /** Java's `long` arithmetic, which keeps the low 64 bits of the exact result as two's complement. */
  function LongWrap(x: int): (r: int)
    ensures IsLong(r)
    ensures (x - r) % 0x1_0000_0000_0000_0000 == 0
    ensures IsLong(x) ==> r == x
  {
    (x - LONG_MIN) % 0x1_0000_0000_0000_0000 + LONG_MIN
  }

  /** Java's conversion `(int)` of a finite `double` holding an integral value: it saturates. */
  function SaturateToInt(x: int): (r: int)
    ensures IsInt(r)
    ensures IsInt(x) ==> r == x
    ensures x > INT_MAX ==> r == INT_MAX
    ensures x < INT_MIN ==> r == INT_MIN
  {
    if x > INT_MAX then INT_MAX else if x < INT_MIN then INT_MIN else x
  }

  /**
    `Math.round(double)`: the nearest `long`, ties rounded toward positive infinity,
    saturating at the ends of the `long` range.
   */
  function Round(x: real): (r: int)
    ensures IsLong(r)
    ensures IsLong((x + 0.5).Floor) ==> r as real - 0.5 <= x < r as real + 0.5
  {
    var f := (x + 0.5).Floor;
    if f > LONG_MAX then LONG_MAX else if f < LONG_MIN then LONG_MIN else f
  }

  // ---------------------------------------------------------------------------
  // String.trim, toLowerCase, equalsIgnoreCase
  // ---------------------------------------------------------------------------

  /** `String.trim` removes every leading and trailing code unit at or below U+0020. */
  predicate IsTrimmed(c: char) { c <= ' ' }

  predicate AllTrimmed(s: string) { forall i :: 0 <= i < |s| ==> IsTrimmed(s[i]) }

  function TrimStart(s: string): (r: string)
    ensures |r| <= |s| && r == s[|s| - |r|..]
    ensures AllTrimmed(s[..|s| - |r|])
    ensures r == [] || !IsTrimmed(r[0])
  {
    if s != [] && IsTrimmed(s[0]) then
      var r := TrimStart(s[1..]);
      assert s[..|s| - |r|] == [s[0]] + s[1..][..|s| - 1 - |r|];
      r
    else s
  }

  function TrimEnd(s: string): (r: string)
    ensures |r| <= |s| && r == s[..|r|]
    ensures AllTrimmed(s[|r|..])
    ensures r == [] || !IsTrimmed(r[|r| - 1])
  {
    if s != [] && IsTrimmed(s[|s| - 1]) then
      var r := TrimEnd(s[..|s| - 1]);
      assert s[|r|..] == s[..|s| - 1][|r|..] + [s[|s| - 1]];
      r
    else s
  }

  /** `String.trim()`. */
  function Trim(s: string): (r: string)
    ensures r == [] || (!IsTrimmed(r[0]) && !IsTrimmed(r[|r| - 1]))
  {
    TrimEnd(TrimStart(s))
  }

  /**
    The lower-case mapping of `toLowerCase()` on the letters A-Z. No other character
    lower-cases to a digit, a sign or one of the letters the campaign code compares
    against, so folding only A-Z decides the same branches.
   */
  function LowerChar(c: char): char
  {
    if 'A' <= c <= 'Z' then (c as int + 32) as char else c
  }

  /** Lower-casing never turns a character into one `trim()` removes, nor the reverse. */
  lemma LowerCharKeepsPadding(c: char)
    ensures IsTrimmed(LowerChar(c)) <==> IsTrimmed(c)
  {
  }

  /** Trimmed text stays trimmed when lower-cased. */
  lemma LowerKeepsTrimmed(t: string)
    requires t == [] || (!IsTrimmed(t[0]) && !IsTrimmed(t[|t| - 1]))
    ensures Lower(t) == [] || (!IsTrimmed(Lower(t)[0]) && !IsTrimmed(Lower(t)[|t| - 1]))
  {
    if t != [] {
      LowerCharKeepsPadding(t[0]);
      LowerCharKeepsPadding(t[|t| - 1]);
    }
  }

  /** `toLowerCase()`: the same length, no capital left, every other character kept. */
  function Lower(s: string): (r: string)
    ensures |r| == |s|
    ensures forall i :: 0 <= i < |s| ==> !('A' <= r[i] <= 'Z')
    ensures forall i :: 0 <= i < |s| && !('A' <= s[i] <= 'Z') ==> r[i] == s[i]
  {
    seq(|s|, i requires 0 <= i < |s| => LowerChar(s[i]))
  }

  /**
    `String.equalsIgnoreCase`. Java also equates a few non-ASCII letters with
    `i`, `k` and `s`; none of those letters occurs in the words this model compares
    against ("bearer", "header").
   */
  predicate EqualsIgnoreCase(a: string, b: string)
    ensures EqualsIgnoreCase(a, b) <==> |a| == |b| && forall i :: 0 <= i < |a| ==> LowerChar(a[i]) == LowerChar(b[i])
  {
    Lower(a) == Lower(b)
  }

  // ---------------------------------------------------------------------------
  // Decimal digits: String.format("%0Nd", n) and Long.parseLong
  // ---------------------------------------------------------------------------

  predicate IsDigit(c: char) { '0' <= c <= '9' }

  predicate AllDigits(s: string) { forall i :: 0 <= i < |s| ==> IsDigit(s[i]) }

  function DigitChar(d: nat): (c: char)
    requires d < 10
    ensures IsDigit(c) && c as int - '0' as int == d
  {
    ('0' as int + d) as char
  }

  /** The decimal digits of `n`, without leading zeros (`Integer.toString` of a non-negative value). */
  function Decimal(n: nat): (r: string)
    ensures r != [] && AllDigits(r)
    ensures |r| == 1 || r[0] != '0'
  {
    if n < 10 then [DigitChar(n)] else Decimal(n / 10) + [DigitChar(n % 10)]
  }

  /** The number a string of decimal digits denotes. */
  function DigitsValue(s: string): nat
    requires AllDigits(s)
  {
    if s == [] then 0 else DigitsValue(s[..|s| - 1]) * 10 + (s[|s| - 1] as int - '0' as int)
  }

  function Zeros(k: nat): (r: string)
    ensures |r| == k && AllDigits(r)
  {
    seq(k, _ => '0')
  }

  /** `String.format("%0<width>d", n)` for `n >= 0`: left-padded with zeros to `width` digits. */
  function ZeroPad(n: nat, width: nat): (r: string)
    ensures AllDigits(r) && r != []
    ensures |r| == Max(width, |Decimal(n)|)
  {
    var d := Decimal(n);
    Zeros(if width > |d| then width - |d| else 0) + d
  }

  /**
    `Long.parseLong(s)`: an optional sign followed by at least one decimal digit,
    denoting a value in the `long` range; anything else throws
    NumberFormatException, shown as `None`. (Java also accepts non-ASCII decimal
    digits; this model accepts only 0-9.)
   */
  function ParseLong(s: string): (r: Option<int>)
    ensures r.Some? ==> IsLong(r.value)
    ensures r.Some? ==> s != [] && (IsDigit(s[0]) || ((s[0] == '-' || s[0] == '+') && |s| >= 2))
  {
    if s == [] then None
    else
      var signed := s[0] == '-' || s[0] == '+';
      var digits := if signed then s[1..] else s;
      if digits == [] || !AllDigits(digits) then None
      else
        var v: int := if s[0] == '-' then -(DigitsValue(digits) as int) else DigitsValue(digits);
        if IsLong(v) then Some(v) else None
  }

  // ---------------------------------------------------------------------------
  // Lemmas
  // ---------------------------------------------------------------------------

  lemma {:induction false} TrimStartSkips(pre: string, x: string)
    requires AllTrimmed(pre)
    ensures TrimStart(pre + x) == TrimStart(x)
  {
    if pre != [] {
      assert (pre + x)[0] == pre[0];
      assert (pre + x)[1..] == pre[1..] + x;
      TrimStartSkips(pre[1..], x);
    } else {
      assert pre + x == x;
    }
  }

  lemma {:induction false} TrimEndSkips(x: string, post: string)
    requires AllTrimmed(post)
    ensures TrimEnd(x + post) == TrimEnd(x)
  {
    if post != [] {
      assert (x + post)[|x + post| - 1] == post[|post| - 1];
      assert (x + post)[..|x + post| - 1] == x + post[..|post| - 1];
      TrimEndSkips(x, post[..|post| - 1]);
    } else {
      assert x + post == x;
    }
  }

  lemma {:induction false} TrimStartAppend(s: string, post: string)
    ensures TrimStart(s + post) == if TrimStart(s) == [] then TrimStart(post) else TrimStart(s) + post
  {
    if s == [] {
      assert s + post == post;
    } else if IsTrimmed(s[0]) {
      assert (s + post)[1..] == s[1..] + post;
      TrimStartAppend(s[1..], post);
    }
  }

  /** Surrounding whitespace does not change what `trim()` returns. */
  lemma TrimIgnoresPadding(pre: string, s: string, post: string)
    requires AllTrimmed(pre) && AllTrimmed(post)
    ensures Trim(pre + s + post) == Trim(s)
  {
    assert pre + s + post == pre + (s + post);
    TrimStartSkips(pre, s + post);
    TrimStartAppend(s, post);
    if TrimStart(s) == [] {
      TrimStartSkips(post, []);
      assert post + [] == post;
    } else {
      TrimEndSkips(TrimStart(s), post);
    }
  }

  lemma LowerIdempotent(s: string)
    ensures Lower(Lower(s)) == Lower(s)
  {
  }

  lemma {:induction false} TrimStartLower(s: string)
    ensures TrimStart(Lower(s)) == Lower(TrimStart(s))
  {
    if s != [] {
      assert Lower(s)[0] == LowerChar(s[0]);
      assert IsTrimmed(LowerChar(s[0])) <==> IsTrimmed(s[0]);
      assert Lower(s)[1..] == Lower(s[1..]);
      TrimStartLower(s[1..]);
    } else {
      assert Lower(s) == [];
    }
  }

  lemma {:induction false} TrimEndLower(s: string)
    ensures TrimEnd(Lower(s)) == Lower(TrimEnd(s))
  {
    if s != [] {
      assert Lower(s)[..|s| - 1] == Lower(s[..|s| - 1]);
      TrimEndLower(s[..|s| - 1]);
    }
  }

  /** Lower-casing does not touch the characters `trim()` removes, so the two commute. */
  lemma TrimLower(s: string)
    ensures Trim(Lower(s)) == Lower(Trim(s))
  {
    TrimStartLower(s);
    TrimEndLower(TrimStart(s));
  }

  lemma {:induction false} ZerosValue(k: nat)
    ensures DigitsValue(Zeros(k)) == 0
  {
    if k > 0 {
      assert Zeros(k)[..k - 1] == Zeros(k - 1);
      ZerosValue(k - 1);
    }
  }

  lemma {:induction false} LeadingZerosValue(k: nat, s: string)
    requires AllDigits(s)
    ensures DigitsValue(Zeros(k) + s) == DigitsValue(s)
  {
    if s == [] {
      assert Zeros(k) + s == Zeros(k);
      ZerosValue(k);
    } else {
      var z := Zeros(k) + s;
      assert z[..|z| - 1] == Zeros(k) + s[..|s| - 1];
      LeadingZerosValue(k, s[..|s| - 1]);
    }
  }

  /** Formatting then reading back the digits gives the number: `Decimal` is the inverse of `DigitsValue`. */
  lemma {:induction false} DecimalValue(n: nat)
    ensures DigitsValue(Decimal(n)) == n
  {
    if n >= 10 {
      var d := Decimal(n);
      assert d[..|d| - 1] == Decimal(n / 10);
      DecimalValue(n / 10);
    }
  }

  /** Zero padding keeps the value: reading `%0Nd` output back gives `n`. */
  lemma ZeroPadValue(n: nat, width: nat)
    ensures DigitsValue(ZeroPad(n, width)) == n
  {
    var d := Decimal(n);
    LeadingZerosValue(if width > |d| then width - |d| else 0, d);
    DecimalValue(n);
  }

  /** Distinct numbers give distinct zero-padded strings of the same width. */
  lemma ZeroPadInjective(a: nat, b: nat, width: nat)
    requires a != b
    ensures ZeroPad(a, width) != ZeroPad(b, width)
  {
    ZeroPadValue(a, width);
    ZeroPadValue(b, width);
  }

  /** `Long.parseLong` reads back what `Long.toString` writes, for non-negative values. */
  lemma ParseLongDecimal(n: nat)
    requires n <= LONG_MAX
    ensures ParseLong(Decimal(n)) == Some(n)
  {
    DecimalValue(n);
  }

  /**
    Any string of decimal digits, with leading zeros or a leading `+`, reads as the
    number it denotes when that fits a `long`, and throws otherwise.
   */
  lemma ParseLongDigits(d: string)
    requires d != [] && AllDigits(d)
    ensures ParseLong(d) == (if DigitsValue(d) <= LONG_MAX then Some(DigitsValue(d) as int) else None)
    ensures ParseLong("+" + d) == ParseLong(d)
  {
    assert ("+" + d)[1..] == d;
  }

  /** A `-` before a string of decimal digits negates it, down to `Long.MIN_VALUE`, and throws below. */
  lemma ParseLongMinusDigits(d: string)
    requires d != [] && AllDigits(d)
    ensures ParseLong("-" + d) == (if DigitsValue(d) <= -LONG_MIN then Some(-(DigitsValue(d) as int)) else None)
  {
    assert ("-" + d)[1..] == d;
  }

  /** A character other than a digit, anywhere except a leading sign, makes `Long.parseLong` throw. */
  lemma ParseLongRejectsNonDigit(s: string, i: nat)
    requires i < |s| && !IsDigit(s[i])
    requires i == 0 ==> s[0] != '-' && s[0] != '+'
    ensures ParseLong(s) == None
  {
    if s[0] == '-' || s[0] == '+' {
      assert s[1..][i - 1] == s[i];
    }
  }

  /** ... and for negative values, down to `Long.MIN_VALUE`. */
  lemma ParseLongNegative(n: nat)
    requires 1 <= n <= -LONG_MIN
    ensures ParseLong("-" + Decimal(n)) == Some(-(n as int))
  {
    DecimalValue(n);
    assert ("-" + Decimal(n))[1..] == Decimal(n);
  }
}
