/**
 * The sync watermark `bliss:last-sync` (signin.js:272-274, 351-353, 363):
 * the number read with `parseInt(..., 10) || 0`, held as a `Date`, and
 * written back as the decimal text of `lastSync.valueOf()`.
 */
module Watermark {
  import opened Wrappers

  /** A `Date`'s time value in milliseconds, or NaN for an invalid date. */
  datatype TimeValue = Ms(ms: int) | NaN

  /** The largest magnitude of a valid time value, 8.64e15 ms. */
  const MaxTime: int := 8_640_000_000_000_000

  /** `new Date(n)` for an integer `n`: out of range gives an invalid date. */
  function TimeClip(n: int): (t: TimeValue)
    ensures t.Ms? <==> -MaxTime <= n <= MaxTime
    ensures t.Ms? ==> t.ms == n
  {
    if -MaxTime <= n <= MaxTime then Ms(n) else NaN
  }

  /** `a.valueOf() < b.valueOf()`: every comparison with NaN is false. */
  predicate Before(a: TimeValue, b: TimeValue)
  {
    a.Ms? && b.Ms? && a.ms < b.ms
  }

  /** White space and line terminators that `parseInt` skips at the front. */
  predicate IsSpace(c: char)
  {
    var k := c as int;
    (9 <= k <= 13) || k == 0x20 || k == 0xA0 || k == 0x1680 || (0x2000 <= k <= 0x200A)
    || k == 0x2028 || k == 0x2029 || k == 0x202F || k == 0x205F || k == 0x3000 || k == 0xFEFF
  }

  predicate IsDigit(c: char)
  {
    '0' as int <= c as int <= '9' as int
  }

  function TrimStart(s: string): string
  {
    if s != [] && IsSpace(s[0]) then TrimStart(s[1..]) else s
  }

  /** The number of leading decimal digits of `s`. */
  function DigitRun(s: string): (n: nat)
    ensures n <= |s|
  {
    if s != [] && IsDigit(s[0]) then 1 + DigitRun(s[1..]) else 0
  }

  /** The value of a string of decimal digits, most significant first. */
  function DigitsValue(d: string): int
  {
    if d == [] then 0
    else DigitsValue(d[..|d| - 1]) * 10 + (d[|d| - 1] as int - '0' as int)
  }

  /**
   * `parseInt(s, 10)`: skip leading white space, read an optional sign and
   * the longest run of digits after it; no digit at all is NaN (`None`).
   */
  function ParseInt(s: string): (r: Option<int>)
    ensures var t := TrimStart(s);
            var body := if t != [] && (t[0] == '-' || t[0] == '+') then t[1..] else t;
            r.Some? <==> body != [] && IsDigit(body[0])
  {
    ParseSigned(TrimStart(s))
  }

  /** `parseInt` once the white space is skipped. */
  function ParseSigned(t: string): Option<int>
  {
    var negative := t != [] && t[0] == '-';
    var body := if t != [] && (t[0] == '-' || t[0] == '+') then t[1..] else t;
    var n := DigitRun(body);
    if n == 0 then None
    else
      var v := DigitsValue(body[..n]);
      Some(if negative then -v else v)
  }

  /**
   * The watermark at the start of a pull (signin.js:272-274): the stored
   * text (a missing item reads as `"null"`) through `parseInt`, NaN and 0
   * replaced by 0 by `|| 0`, then `new Date(...)`.
   */
  function ReadWatermark(stored: Option<string>): (t: TimeValue)
    ensures ParseInt(if stored.None? then "null" else stored.value).None? ==> t == Ms(0)
    ensures t.Ms? ==> -MaxTime <= t.ms <= MaxTime
  {
    var parsed := ParseInt(if stored.None? then "null" else stored.value);
    var n := if parsed.None? then 0 else parsed.value;
    TimeClip(n)
  }

  /** The decimal digits of a natural number, most significant first, no leading zero. */
  function Digits(n: nat): (d: string)
    ensures d != [] && forall i :: 0 <= i < |d| ==> IsDigit(d[i])
    decreases n
  {
    var last := ('0' as int + n % 10) as char;
    if n < 10 then [last] else Digits(n / 10) + [last]
  }

  /**
   * What `localStorage.setItem` stores for `lastSync.valueOf()`: the
   * decimal text of an integer time value, or `"NaN"`.
   */
  function FormatTime(t: TimeValue): (s: string)
    ensures s == "NaN" <==> t.NaN?
    ensures t.Ms? ==> s != [] && (s[0] == '-' <==> t.ms < 0)
    ensures t.Ms? ==> forall i :: (if t.ms < 0 then 1 else 0) <= i < |s| ==> IsDigit(s[i])
  {
    match t
    case NaN => "NaN"
    case Ms(n) =>
      if n < 0 then
        var s := "-" + Digits(-n);
        assert s[0] != "NaN"[0];
        s
      else
        var s := Digits(n);
        assert IsDigit(s[0]) && !IsDigit("NaN"[0]);
        s
  }

  lemma {:induction false} DigitsValueOfDigits(n: nat)
    ensures DigitsValue(Digits(n)) == n
    decreases n
  {
    var d := Digits(n);
    if n >= 10 {
      DigitsValueOfDigits(n / 10);
      assert d[..|d| - 1] == Digits(n / 10);
    }
  }

  /** `parseInt` of a run of digits with an optional leading minus sign. */
  lemma ParseIntOfDigits(negative: bool, d: string)
    requires d != [] && forall i :: 0 <= i < |d| ==> IsDigit(d[i])
    ensures ParseInt((if negative then "-" else "") + d)
         == Some(if negative then -DigitsValue(d) else DigitsValue(d))
  {
    var s := (if negative then "-" else "") + d;
    assert s[0] == if negative then '-' else d[0];
    assert TrimStart(s) == s;
    if negative {
      assert s[1..] == d;
      ParseSignedOfDigits(s, d, true);
    } else {
      ParseSignedOfDigits(s, d, false);
    }
  }

  /** `ParseSigned` of a text whose digits after the optional sign are `d`. */
  lemma ParseSignedOfDigits(t: string, d: string, negative: bool)
    requires d != [] && forall i :: 0 <= i < |d| ==> IsDigit(d[i])
    requires negative ==> t != [] && t[0] == '-' && t[1..] == d
    requires !negative ==> t == d
    ensures ParseSigned(t) == Some(if negative then -DigitsValue(d) else DigitsValue(d))
  {
    DigitRunOfDigits(d);
    assert d[..|d|] == d;
    assert t[0] == '-' <==> negative;
  }

  lemma {:induction false} DigitRunOfDigits(s: string)
    requires forall i :: 0 <= i < |s| ==> IsDigit(s[i])
    ensures DigitRun(s) == |s|
  {
    if s != [] {
      DigitRunOfDigits(s[1..]);
    }
  }

  /**
   * The watermark written at the end of a pull reads back as the same time
   * value on the next pull; an invalid date is written as `"NaN"` and reads
   * back as 0.
   */
  lemma WatermarkRoundTrip(t: TimeValue)
    requires t.Ms? ==> -MaxTime <= t.ms <= MaxTime
    ensures ReadWatermark(Some(FormatTime(t))) == if t.Ms? then t else Ms(0)
  {
    match t
    case NaN =>
      assert TrimStart("NaN") == "NaN";
      assert DigitRun("NaN") == 0;
    case Ms(n) =>
      var m: nat := if n < 0 then -n else n;
      DigitsValueOfDigits(m);
      ParseIntOfDigits(n < 0, Digits(m));
      assert FormatTime(t) == (if n < 0 then "-" else "") + Digits(m);
  }

  /** A missing `bliss:last-sync` item reads as 0. */
  lemma MissingWatermarkIsZero()
    ensures ReadWatermark(None) == Ms(0)
  {
    assert TrimStart("null") == "null";
    assert DigitRun("null") == 0;
  }
}
