/** Times of day as the scheduler handles them: `"HH:MM"` strings split at the
    colon and turned into fractional hours, and the same-day window test. */
module Clock {
  import opened Common

  datatype TimeOfDay = TimeOfDay(hour: nat, minute: nat)

  /** `hour + minute / 60.`, the value the scheduler compares: it lies
      inside the hour for any valid minute. */
  function Hours(c: TimeOfDay): (h: real)
    ensures c.hour as real <= h
    ensures c.minute < 60 ==> h < c.hour as real + 1.0
  {
    c.hour as real + c.minute as real / 60.0
  }

  /** Whole minutes since midnight. */
  function Minutes(c: TimeOfDay): nat
  {
    60 * c.hour + c.minute
  }

  /** Comparing fractional hours is comparing whole minutes. */
  lemma HoursOrderIsMinutesOrder(a: TimeOfDay, b: TimeOfDay)
    ensures Hours(a) <= Hours(b) <==> Minutes(a) <= Minutes(b)
    ensures Hours(a) < Hours(b) <==> Minutes(a) < Minutes(b)
  {
  }

  predicate IsDigit(ch: char)
  {
    '0' <= ch <= '9'
  }

  /** A non-empty string of decimal digits. */
  predicate IsNumeral(s: string)
  {
    |s| > 0 && forall k :: 0 <= k < |s| ==> IsDigit(s[k])
  }

  function DigitValue(ch: char): nat
    requires IsDigit(ch)
  {
    ch as int - '0' as int
  }

  function DigitChar(d: nat): (ch: char)
    requires d < 10
    ensures IsDigit(ch) && DigitValue(ch) == d
  {
    ('0' as int + d) as char
  }

  /** The number a string of decimal digits denotes. */
  function Value(s: string): nat
    requires forall k :: 0 <= k < |s| ==> IsDigit(s[k])
  {
    if s == [] then 0 else 10 * Value(s[..|s| - 1]) + DigitValue(s[|s| - 1])
  }

  /** The index of the first `c` in `s`, or `|s|` when there is none. */
  function Find(s: string, c: char): (k: nat)
    ensures k <= |s|
    ensures k < |s| ==> s[k] == c
    ensures forall j :: 0 <= j < k ==> s[j] != c
  {
    if s == [] then 0 else if s[0] == c then 0 else 1 + Find(s[1..], c)
  }

  /** `t = s.split(":")` followed by `float(t[0]) + float(t[1]) / 60.`: a
      string without a colon has no second part, and a part that is not a
      numeral does not convert; both raise, modelled as `None`. Parts after a
      second colon are ignored. */
  function ParseClock(s: string): (r: Option<TimeOfDay>)
    ensures r.Some? ==> exists k :: 0 <= k < |s| && s[k] == ':'
  {
    var k := Find(s, ':');
    if k == |s| then None
    else
      var first := s[..k];
      var rest := s[k + 1..];
      var second := rest[..Find(rest, ':')];
      if IsNumeral(first) && IsNumeral(second) then Some(TimeOfDay(Value(first), Value(second)))
      else None
  }

  /** `Find` stops at the first `c` that follows a prefix without one. */
  lemma {:induction false} FindAfter(x: string, y: string, c: char)
    requires forall j :: 0 <= j < |x| ==> x[j] != c
    requires y == [] || y[0] == c
    ensures Find(x + y, c) == |x|
  {
    if x == [] {
      assert x + y == y;
    } else {
      assert (x + y)[0] == x[0];
      assert (x + y)[1..] == x[1..] + y;
      FindAfter(x[1..], y, c);
    }
  }

  /** A numeral, a colon, a numeral, and then nothing or a part that starts
      with a further colon: the hour and the minute are the values of the two
      numerals, padded or not (`"7:30"` as well as `"07:30"`). */
  lemma ParseClockParts(a: string, b: string, rest: string)
    requires IsNumeral(a) && IsNumeral(b) && (rest == [] || rest[0] == ':')
    ensures ParseClock(a + ":" + b + rest) == Some(TimeOfDay(Value(a), Value(b)))
  {
    var s := a + ":" + b + rest;
    assert s == a + (":" + b + rest);
    FindAfter(a, ":" + b + rest, ':');
    assert s[..|a|] == a;
    assert s[|a| + 1..] == b + rest;
    FindAfter(b, rest, ':');
    assert (b + rest)[..|b|] == b;
  }

  /** Conversely, every string that converts has that shape, and its hour and
      minute are the values of its two numerals. With `ParseClockParts` this
      says exactly which strings convert and to what. */
  lemma ParseClockSplit(s: string) returns (a: string, b: string, rest: string)
    requires ParseClock(s).Some?
    ensures IsNumeral(a) && IsNumeral(b) && (rest == [] || rest[0] == ':')
    ensures s == a + ":" + b + rest
    ensures ParseClock(s) == Some(TimeOfDay(Value(a), Value(b)))
  {
    var k := Find(s, ':');
    a := s[..k];
    var tail := s[k + 1..];
    var k2 := Find(tail, ':');
    b := tail[..k2];
    rest := tail[k2..];
    assert tail == b + rest;
    assert s == a + [s[k]] + tail;
  }

  /** Two decimal digits, zero-padded, as `%H` and `%M` print them. */
  function TwoDigits(n: nat): (s: string)
    requires n < 100
    ensures IsNumeral(s) && |s| == 2
  {
    [DigitChar(n / 10), DigitChar(n % 10)]
  }

  lemma TwoDigitsValue(n: nat)
    requires n < 100
    ensures Value(TwoDigits(n)) == n
  {
    var s := TwoDigits(n);
    assert s[..1][..0] == [];
    assert s[..1] == [DigitChar(n / 10)];
    assert Value(s[..1]) == n / 10;
    assert Value(s) == 10 * (n / 10) + n % 10;
  }

  /** `"HH:MM"` */
  function Format(c: TimeOfDay): string
    requires c.hour < 100 && c.minute < 100
  {
    TwoDigits(c.hour) + ":" + TwoDigits(c.minute)
  }

  /** Every time of day the web form accepts in `"HH:MM"` form converts back to
      the same hour and minute. */
  lemma ParseFormat(c: TimeOfDay)
    requires c.hour < 24 && c.minute < 60
    ensures ParseClock(Format(c)) == Some(c)
  {
    var s := Format(c);
    var h, m := TwoDigits(c.hour), TwoDigits(c.minute);
    assert s[0] != ':' && s[1] != ':' && s[2] == ':';
    assert Find(s, ':') == 2 by {
      assert s[1..][0] != ':' && s[1..][1..][0] == ':';
      assert Find(s[1..][1..], ':') == 0;
    }
    assert s[..2] == h;
    var rest := s[3..];
    assert rest == m;
    assert rest[0] != ':' && rest[1] != ':';
    assert Find(rest, ':') == 2 by {
      assert Find(rest[1..], ':') == 1 + Find(rest[1..][1..], ':');
      assert rest[1..][1..] == [];
    }
    assert rest[..2] == m;
    TwoDigitsValue(c.hour);
    TwoDigitsValue(c.minute);
  }

  /** A string without a colon never converts. */
  lemma NoColonNoClock(s: string)
    requires forall k :: 0 <= k < |s| ==> s[k] != ':'
    ensures ParseClock(s) == None
  {
  }

  /** The same-day window test `waketm <= nowtm < sleeptm`. */
  predicate InWindow(wake: TimeOfDay, now: TimeOfDay, sleep: TimeOfDay)
  {
    Hours(wake) <= Hours(now) < Hours(sleep)
  }

  /** A window whose wake time is not before its sleep time, such as one that
      crosses midnight, contains no time of day at all. */
  lemma CrossingWindowIsEmpty(wake: TimeOfDay, now: TimeOfDay, sleep: TimeOfDay)
    requires Minutes(wake) >= Minutes(sleep)
    ensures !InWindow(wake, now, sleep)
  {
  }

  /** For a same-day window the test is membership in `[wake, sleep)` by minutes. */
  lemma InWindowByMinutes(wake: TimeOfDay, now: TimeOfDay, sleep: TimeOfDay)
    ensures InWindow(wake, now, sleep) <==> Minutes(wake) <= Minutes(now) < Minutes(sleep)
  {
  }
}
