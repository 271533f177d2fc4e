/**
  `CampaignService.parseDuration` and the parts of `java.time.Duration` the campaign
  uses. A duration is held as a whole number of milliseconds.
 */
module Durations {
  import opened Wrappers
  import opened JavaLang

  /** The exceptions `parseDuration` can throw. */
  datatype DurationError =
    | NotANumber      // Long.parseLong threw NumberFormatException
    | Overflow        // Duration.ofMinutes / ofHours / ofDays threw ArithmeticException
    | NotIsoDuration  // Duration.parse threw DateTimeParseException

  /** The unit suffixes, in the order `parseDuration` tests them. */
  datatype Unit = Millis | Seconds | Minutes | Hours | Days

  function SuffixText(u: Unit): string
  {
    match u
    case Millis => "ms"
    case Seconds => "s"
    case Minutes => "m"
    case Hours => "h"
    case Days => "d"
  }

  function MillisPer(u: Unit): nat
  {
    match u
    case Millis => 1
    case Seconds => 1000
    case Minutes => 60_000
    case Hours => 3_600_000
    case Days => 86_400_000
  }

  /** The text `parseDuration` inspects: `s.trim().toLowerCase()`. */
  function Normalize(s: string): (r: string)
    ensures r == [] || (!IsTrimmed(r[0]) && !IsTrimmed(r[|r| - 1]))
    ensures forall i :: 0 <= i < |r| ==> !('A' <= r[i] <= 'Z')
  {
    LowerKeepsTrimmed(Trim(s));
    Lower(Trim(s))
  }

  /** `t.endsWith(x)`. */
  predicate EndsWith(t: string, x: string)
  {
    |x| <= |t| && forall i :: 0 <= i < |x| ==> t[|t| - |x| + i] == x[i]
  }

  /** `t.endsWith(String.valueOf(c))`. */
  predicate EndsWithChar(t: string, c: char)
  {
    t != [] && t[|t| - 1] == c
  }

  /**
    The first suffix test of `parseDuration` that `t` passes, if any: the unit whose
    suffix `t` ends with, `ms` taking precedence over `s`; none exactly when `t` does
    not end with s, m, h or d.
   */
  function UnitOf(t: string): (u: Option<Unit>)
    ensures u.Some? ==> EndsWith(t, SuffixText(u.value))
    ensures u.None? <==> !HasUnitSuffix(t)
    ensures EndsWith(t, "ms") ==> u == Some(Millis)
    ensures u == Some(Seconds) ==> !EndsWith(t, "ms")
  {
    assert "ms"[0] == 'm' && "ms"[1] == 's';
    if EndsWithChar(t, 's') && |t| >= 2 && t[|t| - 2] == 'm' then Some(Millis)
    else if EndsWithChar(t, 's') then Some(Seconds)
    else if EndsWithChar(t, 'm') then Some(Minutes)
    else if EndsWithChar(t, 'h') then Some(Hours)
    else if EndsWithChar(t, 'd') then Some(Days)
    else None
  }

  /** The last letters of the suffix branches of `parseDuration`. */
  predicate UnitLetter(c: char) { c == 's' || c == 'm' || c == 'h' || c == 'd' }

  /** True when one of the suffix branches of `parseDuration` handles `t`: it ends with s, m, h or d. */
  predicate HasUnitSuffix(t: string)
  {
    EndsWithChar(t, 's') || EndsWithChar(t, 'm') || EndsWithChar(t, 'h') || EndsWithChar(t, 'd')
  }

  /**
    `Duration.ofMillis(n)`, `ofSeconds(n)`, `ofMinutes(n)`, `ofHours(n)`, `ofDays(n)`.
    The last three compute the seconds with `Math.multiplyExact`, which throws when
    the product leaves the `long` range.
   */
  function Of(u: Unit, n: int): (r: Result<int, DurationError>)
    requires IsLong(n)
    ensures r.Ok? ==> r.value == n * MillisPer(u) && IsLong(r.value / 1000)
    ensures r.Err? ==> r.error == Overflow && (u == Minutes || u == Hours || u == Days)
  {
    match u
    case Millis => Ok(n)
    case Seconds => Ok(n * 1000)
    case Minutes => MultiplyExact(n, 60)
    case Hours => MultiplyExact(n, 3600)
    case Days => MultiplyExact(n, 86400)
  }

  /** `Duration.ofSeconds(Math.multiplyExact(n, secondsPerUnit))`, in milliseconds. */
  function MultiplyExact(n: int, secondsPerUnit: nat): (r: Result<int, DurationError>)
    ensures r.Ok? <==> IsLong(n * secondsPerUnit)
    ensures r.Ok? ==> r.value == n * secondsPerUnit * 1000 && r.value / 1000 == n * secondsPerUnit
    ensures r.Err? ==> r.error == Overflow
  {
    var seconds := n * secondsPerUnit;
    if IsLong(seconds) then Ok(seconds * 1000) else Err(Overflow)
  }

  /**
    `parseDuration(s)`: trim and lower-case, then the first matching suffix among
    `ms`, `s`, `m`, `h`, `d` selects the unit and `Long.parseLong` reads the rest.
    Only text with none of those suffixes reaches `Duration.parse`, and
    `Duration.parse` rejects all such text (lemma `IsoDurationEndsWithUnit`), so that
    branch is the error `NotIsoDuration`. Result: milliseconds.
   */
  function ParseDuration(s: string): (r: Result<int, DurationError>)
    ensures r == Err(NotIsoDuration) <==> !HasUnitSuffix(Normalize(s))
    ensures r.Ok? ==> IsLong(r.value / 1000)
  {
    ParseNormalized(Normalize(s))
  }

  /** `parseDuration` after the trim and the lower-casing. */
  function ParseNormalized(t: string): (r: Result<int, DurationError>)
    ensures r == Err(NotIsoDuration) <==> !HasUnitSuffix(t)
    ensures r.Ok? ==> IsLong(r.value / 1000)
  {
    match UnitOf(t)
    case None => Err(NotIsoDuration)
    case Some(u) =>
      match ParseLong(t[..|t| - |SuffixText(u)|])
      case None => Err(NotANumber)
      case Some(n) => Of(u, n)
  }

  /** `Duration.getSeconds()`: the whole seconds, rounded toward negative infinity. */
  function WholeSeconds(ms: int): (s: int)
    ensures s * 1000 <= ms < s * 1000 + 1000
  {
    ms / 1000
  }

  /** `Duration.toMinutes()`: `getSeconds() / 60`, with Java's truncating division. */
  function WholeMinutes(ms: int): (m: int)
    ensures 0 <= ms ==> 0 <= m && m * 60_000 <= ms < m * 60_000 + 60_000
    ensures ms < 0 ==> m <= 0 && m * 60 - 60 < WholeSeconds(ms) <= m * 60
  {
    TruncDiv(WholeSeconds(ms), 60)
  }

  // ---------------------------------------------------------------------------
  // The strings java.time.Duration.parse accepts
  // ---------------------------------------------------------------------------

  predicate IsSign(c: char) { c == '-' || c == '+' }

  /** `[-+]?[0-9]+` */
  predicate IsSignedInteger(s: string)
  {
    var d := if s != [] && IsSign(s[0]) then s[1..] else s;
    d != [] && AllDigits(d)
  }

  /** The index of the first character of `s` in `cs`, or -1. */
  function IndexOfAny(s: string, cs: set<char>): (i: int)
    ensures -1 <= i < |s|
    ensures 0 <= i ==> s[i] in cs && forall k :: 0 <= k < i ==> s[k] !in cs
    ensures i == -1 ==> forall k :: 0 <= k < |s| ==> s[k] !in cs
  {
    if s == [] then -1
    else if s[0] in cs then 0
    else
      var j := IndexOfAny(s[1..], cs);
      if j < 0 then -1 else j + 1
  }

  /** `[-+]?[0-9]+(?:[.,][0-9]{0,9})?` */
  predicate IsSecondsAmount(s: string)
  {
    var i := IndexOfAny(s, {'.', ','});
    if i < 0 then IsSignedInteger(s)
    else IsSignedInteger(s[..i]) && AllDigits(s[i + 1..]) && |s| - i - 1 <= 9
  }

  /**
    Removes an optional leading section `[-+]?[0-9]+<c>` from `v`. As `c` occurs in
    no other part of the pattern, the section, when present, ends at the first `c`.
    `None` when the text before the first `c` is not a signed integer.
   */
  function SkipSection(v: string, c: char): (r: Option<string>)
    ensures r.Some? ==> |r.value| <= |v| && r.value == v[|v| - |r.value|..]
    ensures r.Some? && r.value != [] ==> r.value[|r.value| - 1] == v[|v| - 1]
    ensures r.Some? && r.value == [] && v != [] ==> v[|v| - 1] == c
    ensures r.Some? && r.value != v ==> |v| - |r.value| >= 2
  {
    var i := IndexOfAny(v, {c});
    if i < 0 then Some(v)
    else if IsSignedInteger(v[..i]) then Some(v[i + 1..])
    else None
  }

  /** The optional seconds section `[-+]?[0-9]+(?:[.,][0-9]{0,9})?s`, the last of the time part. */
  predicate IsSecondsSection(b: string)
  {
    b == [] || (b[|b| - 1] == 's' && IsSecondsAmount(b[..|b| - 1]))
  }

  /** After the `t`: hours, minutes and seconds sections, each optional, at least one present. */
  predicate IsTimePart(v: string)
  {
    && v != []
    && SkipSection(v, 'h').Some?
    && SkipSection(SkipSection(v, 'h').value, 'm').Some?
    && IsSecondsSection(SkipSection(SkipSection(v, 'h').value, 'm').value)
  }

  /** Before the `t`: an optional days section. */
  predicate IsDatePart(u: string)
  {
    u == [] || (u[|u| - 1] == 'd' && IsSignedInteger(u[..|u| - 1]))
  }

  /**
    The lower-case text `Duration.parse` accepts: the pattern
    `[-+]?P(?:[-+]?[0-9]+D)?(T(?:[-+]?[0-9]+H)?(?:[-+]?[0-9]+M)?(?:[-+]?[0-9]+(?:[.,][0-9]{0,9})?S)?)?`
    (case-insensitive), with at least one section, and a `T` only when a time section follows it.
   */
  predicate IsIsoDuration(t: string)
  {
    var k := IsoSectionsStart(t);
    k <= |t| && t[k - 1] == 'p' && IsIsoSections(t[k..])
  }

  /** Where the sections start: after an optional sign and the `p`. */
  function IsoSectionsStart(t: string): nat
  {
    if t != [] && IsSign(t[0]) then 2 else 1
  }

  /** What follows the `p`: the date part, then optionally `t` and the time part. */
  predicate IsIsoSections(rest: string)
  {
    var j := IndexOfAny(rest, {'t'});
    if j < 0 then rest != [] && IsDatePart(rest)
    else IsDatePart(rest[..j]) && IsTimePart(rest[j + 1..])
  }

  // ---------------------------------------------------------------------------
  // Lemmas
  // ---------------------------------------------------------------------------

  lemma SecondsSectionEndsWithS(b: string)
    requires IsSecondsSection(b) && b != []
    ensures |b| >= 2 && b[|b| - 1] == 's'
  {
    var x := b[..|b| - 1];
    assert IsSecondsAmount(x);
    var i := IndexOfAny(x, {'.', ','});
    if 0 <= i {
      assert IsSignedInteger(x[..i]);
    }
  }

  lemma DatePartEndsWithD(u: string)
    requires IsDatePart(u) && u != []
    ensures |u| >= 2 && u[|u| - 1] == 'd'
  {
    assert IsSignedInteger(u[..|u| - 1]);
  }

  lemma TimePartEndsWithUnit(v: string)
    requires IsTimePart(v)
    ensures |v| >= 2
    ensures UnitLetter(v[|v| - 1])
  {
    var a := SkipSection(v, 'h').value;
    var b := SkipSection(a, 'm').value;
    assert IsSecondsSection(b);
    if b != [] {
      SecondsSectionEndsWithS(b);
    } else if a != [] {
      assert a[|a| - 1] == 'm';
    }
  }

  lemma IsoSectionsEndWithUnit(rest: string)
    requires IsIsoSections(rest)
    ensures |rest| >= 2
    ensures UnitLetter(rest[|rest| - 1])
  {
    var j := IndexOfAny(rest, {'t'});
    if j < 0 {
      DatePartEndsWithD(rest);
    } else {
      var k: nat := j + 1;
      TimePartEndsWithUnit(rest[k..]);
      LastOfTail(rest, k);
    }
  }

  /** The last character of a non-empty tail is the last character of the whole. */
  lemma LastOfTail(s: string, k: nat)
    requires k <= |s| && |s[k..]| >= 2 && UnitLetter(s[k..][|s[k..]| - 1])
    ensures |s| >= 2 && UnitLetter(s[|s| - 1])
  {
    assert s[k..][|s[k..]| - 1] == s[|s| - 1];
  }

  /**
    Every ISO-8601 duration `Duration.parse` accepts ends with a unit letter, so in
    `parseDuration` it is taken by one of the suffix branches and never reaches
    `Duration.parse`: that fallback only ever sees text it rejects.
   */
  lemma IsoDurationEndsWithUnit(t: string)
    requires IsIsoDuration(t)
    ensures HasUnitSuffix(t)
    ensures |t| >= 3 && (IsSign(t[0]) ==> |t| >= 4)
    ensures t[0] == 'p' || (IsSign(t[0]) && t[1] == 'p')
  {
    var k := IsoSectionsStart(t);
    IsoSectionsEndWithUnit(t[k..]);
    LastOfTail(t, k);
  }

  /** The fallback branch of `parseDuration` always throws. */
  lemma FallbackAlwaysFails(s: string)
    requires !HasUnitSuffix(Normalize(s))
    ensures ParseDuration(s) == Err(NotIsoDuration)
    ensures !IsIsoDuration(Normalize(s))
  {
    if IsIsoDuration(Normalize(s)) {
      IsoDurationEndsWithUnit(Normalize(s));
    }
  }

  /** `Long.parseLong` rejects text whose first digit position holds the letter `p`. */
  lemma ParseLongRejectsP(x: string)
    requires x != [] && (x[0] == 'p' || (IsSign(x[0]) && |x| >= 2 && x[1] == 'p'))
    ensures ParseLong(x) == None
  {
    var digits := if IsSign(x[0]) then x[1..] else x;
    assert !IsDigit(digits[0]);
  }

  /**
    An ISO-8601 duration such as "pt10m" is rejected: it goes to a suffix branch, and
    `Long.parseLong` of the text before the suffix ("pt10") fails.
   */
  lemma IsoTextIsRejected(t: string)
    requires IsIsoDuration(t)
    ensures ParseNormalized(t) == Err(NotANumber)
  {
    IsoDurationEndsWithUnit(t);
    PTextRejected(t);
  }

  /**
    Text with a unit suffix whose first non-sign character is `p`, with at least one
    character between it and the suffix, fails in `Long.parseLong`.
   */
  lemma PTextRejected(t: string)
    requires HasUnitSuffix(t) && |t| >= 3 && (IsSign(t[0]) ==> |t| >= 4)
    requires t[0] == 'p' || (IsSign(t[0]) && t[1] == 'p')
    ensures ParseNormalized(t) == Err(NotANumber)
  {
    var u := UnitOf(t).value;
    var prefix := t[..|t| - |SuffixText(u)|];
    assert prefix[0] == t[0];
    if IsSign(t[0]) {
      assert prefix[1] == t[1];
    }
    ParseLongRejectsP(prefix);
    assert ParseNormalized(t) == Err(NotANumber) by {
      assert UnitOf(t) == Some(u) && ParseLong(prefix) == None;
    }
  }

  /** Whatever its case and padding, an ISO-8601 duration such as "PT10M" is rejected by `parseDuration`. */
  lemma IsoDurationsAreRejected(s: string)
    requires IsIsoDuration(Normalize(s))
    ensures ParseDuration(s) == Err(NotANumber)
  {
    IsoTextIsRejected(Normalize(s));
  }

  lemma TrimKeepsUnpadded(s: string)
    requires s != [] && !IsTrimmed(s[0]) && !IsTrimmed(s[|s| - 1])
    ensures Trim(s) == s
  {
  }

  lemma LowerKeepsLowerCase(s: string)
    requires forall i :: 0 <= i < |s| ==> !('A' <= s[i] <= 'Z')
    ensures Lower(s) == s
  {
  }

  /** Padding with whitespace and changing letter case do not change what `parseDuration` returns. */
  lemma ParseIgnoresPaddingAndCase(pre: string, s: string, post: string)
    requires AllTrimmed(pre) && AllTrimmed(post)
    ensures ParseDuration(pre + s + post) == ParseDuration(s)
    ensures ParseDuration(Lower(s)) == ParseDuration(s)
  {
    TrimIgnoresPadding(pre, s, post);
    TrimLower(s);
    LowerIdempotent(Trim(s));
  }

  /** A count written in decimal followed by a unit suffix is already trimmed and in lower case. */
  lemma CountWithUnitIsNormal(n: nat, u: Unit)
    ensures Normalize(Decimal(n) + SuffixText(u)) == Decimal(n) + SuffixText(u)
  {
    var d := Decimal(n);
    var x := SuffixText(u);
    var t := d + x;
    assert !IsTrimmed(t[0]) by { assert t[0] == d[0]; }
    assert !IsTrimmed(t[|t| - 1]) by { assert t[|t| - 1] == x[|x| - 1]; }
    TrimKeepsUnpadded(t);
    forall i | 0 <= i < |t| ensures !('A' <= t[i] <= 'Z') {
      if i < |d| { assert t[i] == d[i]; } else { assert t[i] == x[i - |d|]; }
    }
    LowerKeepsLowerCase(t);
  }

  /** A unit suffix after a digit is taken for its own unit: `ms` is tested before `s`. */
  lemma UnitAfterDigit(d: string, u: Unit)
    requires d != [] && IsDigit(d[|d| - 1])
    ensures UnitOf(d + SuffixText(u)) == Some(u)
  {
    var t := d + SuffixText(u);
    assert t[|d| - 1] == d[|d| - 1];
    match u
    case Millis =>
      assert t[|t| - 1] == 's' && t[|t| - 2] == 'm';
    case Seconds =>
      assert t[|t| - 1] == 's' && t[|t| - 2] == d[|d| - 1];
    case Minutes =>
      assert t[|t| - 1] == 'm';
    case Hours =>
      assert t[|t| - 1] == 'h';
    case Days =>
      assert t[|t| - 1] == 'd';
  }

  lemma ParseNormalizedCount(n: nat, u: Unit)
    requires n <= LONG_MAX
    ensures ParseNormalized(Decimal(n) + SuffixText(u)) == Of(u, n)
  {
    var d := Decimal(n);
    assert IsDigit(d[|d| - 1]);
    assert ParseLong(d) == Some(n) by { ParseLongDecimal(n); }
    ParsedBeforeSuffix(d, u, n);
  }

  /**
    Whatever text precedes a unit suffix is handed to `Long.parseLong`: the suffix selects
    its own unit (an `s` is read as `ms` only after an `m`), and the result is that many
    units when the text parses and `NotANumber` when it does not.
   */
  lemma ParseNormalizedSuffix(c: string, u: Unit)
    requires u == Seconds && c != [] ==> c[|c| - 1] != 'm'
    ensures ParseNormalized(c + SuffixText(u)) ==
      match ParseLong(c)
      case None => Err(NotANumber)
      case Some(n) => Of(u, n)
  {
    var t := c + SuffixText(u);
    UnitOfSuffix(c, u);
    assert t[..|t| - |SuffixText(u)|] == c;
  }

  /** The unit a suffix selects after any text, save an `m` before `s`. */
  lemma UnitOfSuffix(c: string, u: Unit)
    requires u == Seconds && c != [] ==> c[|c| - 1] != 'm'
    ensures UnitOf(c + SuffixText(u)) == Some(u)
  {
    var t := c + SuffixText(u);
    var x := SuffixText(u);
    assert t[|t| - 1] == x[|x| - 1];
    if u == Millis {
      assert t[|t| - 2] == 'm';
    } else if u == Seconds && c != [] {
      assert t[|t| - 2] == c[|c| - 1];
    }
    UnitOfLastLetters(t, u);
  }

  /** The unit `UnitOf` picks from the last one or two letters of the text. */
  lemma UnitOfLastLetters(t: string, u: Unit)
    requires t != [] && t[|t| - 1] == SuffixText(u)[|SuffixText(u)| - 1]
    requires u == Millis ==> |t| >= 2 && t[|t| - 2] == 'm'
    requires u == Seconds && |t| >= 2 ==> t[|t| - 2] != 'm'
    ensures UnitOf(t) == Some(u)
  {
    match u
    case Millis =>
    case Seconds =>
    case Minutes =>
    case Hours =>
    case Days =>
  }

  /**
    A count of digits before a unit suffix may carry leading zeros and a `+`: it is that
    many units, or `NotANumber` when it does not fit a `long`.
   */
  lemma ParseNormalizedDigits(d: string, u: Unit)
    requires d != [] && AllDigits(d)
    ensures ParseNormalized(d + SuffixText(u)) == (if DigitsValue(d) <= LONG_MAX then Of(u, DigitsValue(d)) else Err(NotANumber))
    ensures ParseNormalized("+" + d + SuffixText(u)) == ParseNormalized(d + SuffixText(u))
  {
    ParseLongDigits(d);
    assert IsDigit(d[|d| - 1]);
    ParseNormalizedSuffix(d, u);
    var c := "+" + d;
    assert c[|c| - 1] == d[|d| - 1];
    ParseNormalizedSuffix(c, u);
  }

  /**
    After a `-`, the count `v` the digits denote is negated, down to `Long.MIN_VALUE`,
    and `NotANumber` below.
   */
  lemma ParseNormalizedMinusDigits(d: string, u: Unit, v: nat)
    requires d != [] && AllDigits(d) && v == DigitsValue(d)
    ensures v <= -LONG_MIN ==> ParseNormalized("-" + d + SuffixText(u)) == Of(u, -(v as int))
    ensures v > -LONG_MIN ==> ParseNormalized("-" + d + SuffixText(u)) == Err(NotANumber)
  {
    ParseLongMinusDigits(d);
    MinusValueBeforeSuffix(d, u, v);
  }

  /** The same, for any value `v` that `Long.parseLong` negates or rejects as it does the digits' value. */
  lemma MinusValueBeforeSuffix(d: string, u: Unit, v: nat)
    requires d != [] && AllDigits(d)
    requires ParseLong("-" + d) == (if v <= -LONG_MIN then Some(-(v as int)) else None)
    ensures v <= -LONG_MIN ==> ParseNormalized("-" + d + SuffixText(u)) == Of(u, -(v as int))
    ensures v > -LONG_MIN ==> ParseNormalized("-" + d + SuffixText(u)) == Err(NotANumber)
  {
    if v <= -LONG_MIN {
      MinusParsedBeforeSuffix(d, u, -(v as int));
    } else {
      MinusRejectedBeforeSuffix(d, u);
    }
  }

  /** A `-` and digits that `Long.parseLong` reads as `n`, before a unit suffix, are `n` units. */
  lemma MinusParsedBeforeSuffix(d: string, u: Unit, n: int)
    requires d != [] && AllDigits(d) && ParseLong("-" + d) == Some(n)
    ensures ParseNormalized("-" + d + SuffixText(u)) == Of(u, n)
  {
    var c := "-" + d;
    assert c[|c| - 1] == d[|d| - 1];
    ParsedBeforeSuffix(c, u, n);
  }

  /** A `-` and digits that `Long.parseLong` rejects, before a unit suffix, are `NotANumber`. */
  lemma MinusRejectedBeforeSuffix(d: string, u: Unit)
    requires d != [] && AllDigits(d) && ParseLong("-" + d) == None
    ensures ParseNormalized("-" + d + SuffixText(u)) == Err(NotANumber)
  {
    var c := "-" + d;
    assert c[|c| - 1] == d[|d| - 1];
    RejectedBeforeSuffix(c, u);
  }

  /** A count that `Long.parseLong` rejects, before a unit suffix, is `NotANumber`. */
  lemma RejectedBeforeSuffix(c: string, u: Unit)
    requires u == Seconds && c != [] ==> c[|c| - 1] != 'm'
    requires ParseLong(c) == None
    ensures ParseNormalized(c + SuffixText(u)) == Err(NotANumber)
  {
    ParseNormalizedSuffix(c, u);
  }

  /** A count that `Long.parseLong` reads as `n`, before a unit suffix, is `n` units. */
  lemma ParsedBeforeSuffix(c: string, u: Unit, n: int)
    requires u == Seconds && c != [] ==> c[|c| - 1] != 'm'
    requires ParseLong(c) == Some(n)
    ensures ParseNormalized(c + SuffixText(u)) == Of(u, n)
  {
    ParseNormalizedSuffix(c, u);
  }

  /** A count holding a character other than a digit, past a leading sign, is `NotANumber`. */
  lemma ParseNormalizedRejectsNonDigit(c: string, u: Unit, i: nat)
    requires i < |c| && !IsDigit(c[i]) && (i == 0 ==> c[0] != '-' && c[0] != '+')
    requires u == Seconds ==> c[|c| - 1] != 'm'
    ensures ParseNormalized(c + SuffixText(u)) == Err(NotANumber)
  {
    ParseLongRejectsNonDigit(c, i);
    ParseNormalizedSuffix(c, u);
  }

  /**
    A count that starts with no padding character and holds no capital, followed by a
    unit suffix, is already normalised: `parseDuration` sees it as it stands.
   */
  lemma NormalWithUnit(c: string, u: Unit)
    requires c != [] && !IsTrimmed(c[0])
    requires forall i :: 0 <= i < |c| ==> !('A' <= c[i] <= 'Z')
    ensures ParseDuration(c + SuffixText(u)) == ParseNormalized(c + SuffixText(u))
  {
    var x := SuffixText(u);
    var t := c + x;
    assert !IsTrimmed(t[0]) by { assert t[0] == c[0]; }
    assert !IsTrimmed(t[|t| - 1]) by { assert t[|t| - 1] == x[|x| - 1]; }
    TrimKeepsUnpadded(t);
    forall i | 0 <= i < |t| ensures !('A' <= t[i] <= 'Z') {
      if i < |c| { assert t[i] == c[i]; } else { assert t[i] == x[i - |c|]; }
    }
    LowerKeepsLowerCase(t);
  }

  /** A digit string starts with no padding character and holds no capital. */
  lemma DigitsAreNormal(d: string)
    requires d != [] && AllDigits(d)
    ensures !IsTrimmed(d[0])
    ensures forall i :: 0 <= i < |d| ==> !('A' <= d[i] <= 'Z')
  {
  }

  /** ... and so does a digit string after a sign. */
  lemma SignedDigitsAreNormal(sign: char, d: string)
    requires (sign == '+' || sign == '-') && AllDigits(d)
    ensures !IsTrimmed(([sign] + d)[0])
    ensures forall i :: 0 <= i < |[sign] + d| ==> !('A' <= ([sign] + d)[i] <= 'Z')
  {
    var c := [sign] + d;
    forall i | 0 <= i < |c|
      ensures !('A' <= c[i] <= 'Z')
    {
      if i > 0 {
        assert c[i] == d[i - 1];
      }
    }
  }

  /** Two digit strings together are a digit string. */
  lemma AppendDigits(a: string, b: string)
    requires AllDigits(a) && AllDigits(b)
    ensures AllDigits(a + b)
  {
    forall i | 0 <= i < |a + b|
      ensures IsDigit((a + b)[i])
    {
      if i >= |a| {
        assert (a + b)[i] == b[i - |a|];
      }
    }
  }

  /** A decimal count with leading zeros, such as "007m", denotes the same number of units. */
  lemma ParseCountWithLeadingZeros(k: nat, n: nat, u: Unit)
    requires n <= LONG_MAX
    ensures ParseDuration(Zeros(k) + Decimal(n) + SuffixText(u)) == Of(u, n)
  {
    var d := Zeros(k) + Decimal(n);
    AppendDigits(Zeros(k), Decimal(n));
    assert ParseDuration(d + SuffixText(u)) == ParseNormalized(d + SuffixText(u)) by {
      DigitsAreNormal(d);
      NormalWithUnit(d, u);
    }
    assert DigitsValue(d) == n by {
      LeadingZerosValue(k, Decimal(n));
      DecimalValue(n);
    }
    ParseNormalizedDigits(d, u);
  }

  /** A `+` before a decimal count, as in "+5m", changes nothing. */
  lemma ParsePlusCount(n: nat, u: Unit)
    requires n <= LONG_MAX
    ensures ParseDuration("+" + Decimal(n) + SuffixText(u)) == Of(u, n)
  {
    assert ParseLong("+" + Decimal(n)) == Some(n) by { ParseLongDigits(Decimal(n)); ParseLongDecimal(n); }
    SignedCountWithUnit('+', Decimal(n), u, n);
  }

  /** A `-` before a decimal count, as in "-10m", negates it, down to `Long.MIN_VALUE`. */
  lemma ParseMinusCount(n: nat, u: Unit)
    requires 1 <= n <= -LONG_MIN
    ensures ParseDuration("-" + Decimal(n) + SuffixText(u)) == Of(u, -(n as int))
  {
    assert ParseLong("-" + Decimal(n)) == Some(-(n as int)) by { ParseLongNegative(n); }
    SignedCountWithUnit('-', Decimal(n), u, -(n as int));
  }

  /** A signed digit string that `Long.parseLong` reads as `n`, before a unit suffix: `n` units. */
  lemma SignedCountWithUnit(sign: char, d: string, u: Unit, n: int)
    requires (sign == '+' || sign == '-') && d != [] && AllDigits(d)
    requires ParseLong([sign] + d) == Some(n)
    ensures ParseDuration([sign] + d + SuffixText(u)) == Of(u, n)
  {
    var c := [sign] + d;
    SignedDigitsAreNormal(sign, d);
    assert c[|c| - 1] == d[|d| - 1];
    NormalCountWithUnit(c, u, n);
  }

  /** A count `Long.parseLong` reads as `n`, already normalised, before a unit suffix: `n` units. */
  lemma NormalCountWithUnit(c: string, u: Unit, n: int)
    requires c != [] && !IsTrimmed(c[0]) && (u == Seconds ==> c[|c| - 1] != 'm')
    requires forall i :: 0 <= i < |c| ==> !('A' <= c[i] <= 'Z')
    requires ParseLong(c) == Some(n)
    ensures ParseDuration(c + SuffixText(u)) == Of(u, n)
  {
    NormalWithUnit(c, u);
    ParsedBeforeSuffix(c, u, n);
  }

  /** A decimal count followed by a unit suffix denotes that many units. */
  lemma ParseCountWithUnit(n: nat, u: Unit)
    requires n <= LONG_MAX
    ensures ParseDuration(Decimal(n) + SuffixText(u)) == Of(u, n)
  {
    CountWithUnitIsNormal(n, u);
    ParseNormalizedCount(n, u);
  }

  /** Three-digit counts, such as the 500 of "500ms". */
  lemma DecimalOfThreeDigits(n: nat)
    requires 100 <= n < 1000
    ensures Decimal(n) == [DigitChar(n / 100), DigitChar(n / 10 % 10), DigitChar(n % 10)]
  {
  }

  lemma DecimalOfTwoDigits(n: nat)
    requires 10 <= n < 100
    ensures Decimal(n) == [DigitChar(n / 10), DigitChar(n % 10)]
  {
  }

  /** "500ms" is 500 milliseconds: the `ms` test comes before the `s` test. */
  lemma MillisExample(s: string)
    requires s == "500ms"
    ensures ParseDuration(s) == Ok(500)
  {
    DecimalOfThreeDigits(500);
    assert s == Decimal(500) + SuffixText(Millis);
    ParseCountWithUnit(500, Millis);
  }

  /** "30s" is thirty seconds. */
  lemma SecondsExample(s: string)
    requires s == "30s"
    ensures ParseDuration(s) == Ok(30_000)
  {
    DecimalOfTwoDigits(30);
    assert s == Decimal(30) + SuffixText(Seconds);
    ParseCountWithUnit(30, Seconds);
  }

  /** "10m", the default interval, is ten minutes. */
  lemma MinutesExample(s: string)
    requires s == "10m"
    ensures ParseDuration(s) == Ok(600_000)
  {
    DecimalOfTwoDigits(10);
    assert s == Decimal(10) + SuffixText(Minutes);
    ParseCountWithUnit(10, Minutes);
  }

  /** "4h", the default duration, is four hours. */
  lemma HoursExample(s: string)
    requires s == "4h"
    ensures ParseDuration(s) == Ok(14_400_000)
  {
    assert s == Decimal(4) + SuffixText(Hours);
    ParseCountWithUnit(4, Hours);
  }

  /** "2d" is two days. */
  lemma DaysExample(s: string)
    requires s == "2d"
    ensures ParseDuration(s) == Ok(172_800_000)
  {
    assert s == Decimal(2) + SuffixText(Days);
    ParseCountWithUnit(2, Days);
  }

  /** Leading zeros are allowed: "007m" is seven minutes. */
  lemma LeadingZerosExample(s: string)
    requires s == "007m"
    ensures ParseDuration(s) == Ok(420_000)
  {
    assert s == Zeros(2) + Decimal(7) + SuffixText(Minutes);
    ParseCountWithLeadingZeros(2, 7, Minutes);
  }

  /** A leading plus sign is allowed: "+5m" is five minutes. */
  lemma PlusSignExample(s: string)
    requires s == "+5m"
    ensures ParseDuration(s) == Ok(300_000)
  {
    assert s == "+" + Decimal(5) + SuffixText(Minutes);
    ParsePlusCount(5, Minutes);
  }

  /** A fractional count is not a number: "1.5m" throws NumberFormatException. */
  lemma FractionRejectedExample(s: string)
    requires s == "1.5m"
    ensures ParseDuration(s) == Err(NotANumber)
  {
    var c := "1.5";
    assert s == c + SuffixText(Minutes);
    assert ParseDuration(s) == ParseNormalized(s) by { NormalWithUnit(c, Minutes); }
    ParseNormalizedRejectsNonDigit(c, Minutes, 1);
  }

  /** A count that is not a number at all: "abcm" throws NumberFormatException. */
  lemma LettersRejectedExample(s: string)
    requires s == "abcm"
    ensures ParseDuration(s) == Err(NotANumber)
  {
    var c := "abc";
    assert s == c + SuffixText(Minutes);
    assert ParseDuration(s) == ParseNormalized(s) by { NormalWithUnit(c, Minutes); }
    ParseNormalizedRejectsNonDigit(c, Minutes, 0);
  }

  /** "PT10M" is not read as ISO-8601: it becomes "pt10m", and "pt10" is not a number. */
  lemma IsoExampleRejected(s: string)
    requires s == "PT10M"
    ensures ParseDuration(s) == Err(NotANumber)
  {
    TrimKeepsUnpadded(s);
    var t := Lower(s);
    assert t == "pt10m";
    assert UnitOf(t) == Some(Minutes);
    assert t[..4] == "pt10";
    ParseLongRejectsP(t[..4]);
  }
}
