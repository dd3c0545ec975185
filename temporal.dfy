/**
 * The ledger's temporal value types: a time of day and a calendar date with a time.
 * Both are immutable; their constructors never reject input but replace each
 * out-of-range component by a default. The calendar is flat: February always has
 * 28 days and there are no leap years.
 */
module Temporal {
  import opened Wrappers
  import opened Text

  datatype TimeOfDay = TimeOfDay(hour: int, minute: int, second: int) {
    predicate Valid() {
      0 <= hour <= 23 && 0 <= minute <= 59 && 0 <= second <= 59
    }
  }

  /** A time as the clamping constructor builds it: every component in range. */
  type Time = t: TimeOfDay | t.Valid() witness TimeOfDay(0, 0, 0)

  /** Days in a month of the flat calendar; anything that is not a 28- or 30-day month has 31. */
  function MaxDay(month: int): int {
    if month == 2 then 28
    else if month == 4 || month == 6 || month == 9 || month == 11 then 30
    else 31
  }

  datatype DateTime = DateTime(year: int, month: int, day: int, time: Time) {
    predicate Valid() {
      1900 <= year <= 9999 && 1 <= month <= 12 && 1 <= day <= MaxDay(month)
    }
  }

  /** A date as the clamping constructor builds it. */
  type Date = d: DateTime | d.Valid() witness DateTime(2000, 1, 1, TimeOfDay(0, 0, 0))

  const DefaultYear := 2000
  const DefaultMonth := 1
  const DefaultDay := 1

  /**
   * The Time constructor. Each component is kept exactly when it is in range;
   * otherwise it becomes 0.
   */
  function MakeTime(h: int, m: int, s: int): (t: Time)
    ensures t.hour == h <==> 0 <= h <= 23
    ensures t.minute == m <==> 0 <= m <= 59
    ensures t.second == s <==> 0 <= s <= 59
    ensures t.hour != h ==> t.hour == 0
    ensures t.minute != m ==> t.minute == 0
    ensures t.second != s ==> t.second == 0
  {
    TimeOfDay(if 0 <= h <= 23 then h else 0,
              if 0 <= m <= 59 then m else 0,
              if 0 <= s <= 59 then s else 0)
  }

  /**
   * The Date constructor. Year, month and day are each kept exactly when they are in
   * range and otherwise become 2000, 1 and 1; the time is taken as given. The day
   * limit is computed from the month argument as passed, which for an out-of-range
   * month is 31, the length of the month it is replaced by.
   */
  function MakeDate(y: int, m: int, d: int, t: Time): (r: Date)
    ensures r.year == y <==> 1900 <= y <= 9999
    ensures r.month == m <==> 1 <= m <= 12
    ensures r.day == d <==> 1 <= d <= MaxDay(r.month)
    ensures r.year != y ==> r.year == DefaultYear
    ensures r.month != m ==> r.month == DefaultMonth
    ensures r.day != d ==> r.day == DefaultDay
    ensures r.time == t
  {
    var maxDay := MaxDay(m);
    DateTime(if 1900 <= y <= 9999 then y else DefaultYear,
             if 1 <= m <= 12 then m else DefaultMonth,
             if 1 <= d <= maxDay then d else DefaultDay,
             t)
  }

  /** Rebuilding a valid date through the constructor changes nothing. */
  lemma {:induction false} MakeDateKeepsValid(d: Date)
    ensures MakeDate(d.year, d.month, d.day, MakeTime(d.time.hour, d.time.minute, d.time.second)) == d
  {
  }

  // ---------------------------------------------------------------------------
  // Ordering

  /** Date::operator<: compares year, month, day, hour, minute and second in turn. */
  predicate Less(a: Date, b: Date) {
    if a.year != b.year then a.year < b.year
    else if a.month != b.month then a.month < b.month
    else if a.day != b.day then a.day < b.day
    else if a.time.hour != b.time.hour then a.time.hour < b.time.hour
    else if a.time.minute != b.time.minute then a.time.minute < b.time.minute
    else a.time.second < b.time.second
  }

  /** Date::operator>. */
  predicate Greater(a: Date, b: Date) {
    Less(b, a)
  }

  /** Date::operator<=. */
  predicate LessEq(a: Date, b: Date) {
    !Greater(a, b)
  }

  /** Date::operator>=. */
  predicate GreaterEq(a: Date, b: Date) {
    !Less(a, b)
  }

  /** The six components of a date, most significant first. */
  function Key(d: Date): seq<int> {
    [d.year, d.month, d.day, d.time.hour, d.time.minute, d.time.second]
  }

  /** Strict lexicographic order on integer sequences of equal length. */
  predicate LexLess(a: seq<int>, b: seq<int>)
    requires |a| == |b|
  {
    |a| > 0 && (a[0] < b[0] || (a[0] == b[0] && LexLess(a[1..], b[1..])))
  }

  lemma {:induction false} LexIrreflexive(a: seq<int>)
    ensures !LexLess(a, a)
  {
    if |a| > 0 {
      LexIrreflexive(a[1..]);
    }
  }

  lemma {:induction false} LexTransitive(a: seq<int>, b: seq<int>, c: seq<int>)
    requires |a| == |b| == |c|
    requires LexLess(a, b) && LexLess(b, c)
    ensures LexLess(a, c)
  {
    if a[0] == b[0] && b[0] == c[0] {
      LexTransitive(a[1..], b[1..], c[1..]);
    }
  }

  lemma {:induction false} LexTotal(a: seq<int>, b: seq<int>)
    requires |a| == |b|
    ensures a == b || LexLess(a, b) || LexLess(b, a)
  {
    if |a| > 0 && a[0] == b[0] {
      LexTotal(a[1..], b[1..]);
      if a[1..] == b[1..] {
        assert a == [a[0]] + a[1..] && b == [b[0]] + b[1..];
      }
    }
  }

  /** operator< is exactly the lexicographic order on (year, month, day, hour, minute, second). */
  lemma {:induction false} LessIsLexicographic(a: Date, b: Date)
    ensures Less(a, b) <==> LexLess(Key(a), Key(b))
  {
    var k0, l0 := Key(a), Key(b);
    var k1, l1 := k0[1..], l0[1..];
    var k2, l2 := k1[1..], l1[1..];
    var k3, l3 := k2[1..], l2[1..];
    var k4, l4 := k3[1..], l3[1..];
    var k5, l5 := k4[1..], l4[1..];
    assert k5 == [a.time.second] && l5 == [b.time.second];
    assert k5[1..] == [] && l5[1..] == [];
    assert LexLess(k5, l5) <==> a.time.second < b.time.second;
    assert k4[0] == a.time.minute && l4[0] == b.time.minute;
    assert LexLess(k4, l4) <==> a.time.minute < b.time.minute || (a.time.minute == b.time.minute && LexLess(k5, l5));
    assert k3[0] == a.time.hour && l3[0] == b.time.hour;
    assert LexLess(k3, l3) <==> a.time.hour < b.time.hour || (a.time.hour == b.time.hour && LexLess(k4, l4));
    assert k2[0] == a.day && l2[0] == b.day;
    assert LexLess(k2, l2) <==> a.day < b.day || (a.day == b.day && LexLess(k3, l3));
    assert k1[0] == a.month && l1[0] == b.month;
    assert LexLess(k1, l1) <==> a.month < b.month || (a.month == b.month && LexLess(k2, l2));
    assert LexLess(k0, l0) <==> a.year < b.year || (a.year == b.year && LexLess(k1, l1));
  }

  /** Dates with the same components are the same date. */
  lemma {:induction false} KeyInjective(a: Date, b: Date)
    requires Key(a) == Key(b)
    ensures a == b
  {
    assert Key(a)[0] == Key(b)[0] && Key(a)[1] == Key(b)[1] && Key(a)[2] == Key(b)[2];
    assert Key(a)[3] == Key(b)[3] && Key(a)[4] == Key(b)[4] && Key(a)[5] == Key(b)[5];
  }

  /** operator< is a strict total order: irreflexive, transitive and total on distinct dates. */
  lemma {:induction false} LessIsStrictTotalOrder(a: Date, b: Date, c: Date)
    ensures !Less(a, a)
    ensures Less(a, b) && Less(b, c) ==> Less(a, c)
    ensures a != b ==> Less(a, b) || Less(b, a)
    ensures Less(a, b) ==> !Less(b, a)
  {
    LessIsLexicographic(a, a);
    LexIrreflexive(Key(a));
    LessIsLexicographic(a, b);
    LessIsLexicographic(b, a);
    LessIsLexicographic(b, c);
    LessIsLexicographic(a, c);
    if Less(a, b) && Less(b, c) {
      LexTransitive(Key(a), Key(b), Key(c));
    }
    if Less(a, b) && Less(b, a) {
      LexTransitive(Key(a), Key(b), Key(a));
    }
    LexTotal(Key(a), Key(b));
    if Key(a) == Key(b) {
      KeyInjective(a, b);
    }
  }

  /** The derived operators: <= is "earlier or equal", >= is "later or equal". */
  lemma {:induction false} DerivedOperators(a: Date, b: Date)
    ensures LessEq(a, b) <==> Less(a, b) || a == b
    ensures GreaterEq(a, b) <==> Less(b, a) || a == b
    ensures Greater(a, b) <==> Less(b, a)
  {
    LessIsStrictTotalOrder(a, b, a);
  }

  // ---------------------------------------------------------------------------
  // Text form

  /** parts[0], then each separator followed by the next part. */
  function Joined(parts: seq<string>, separators: string): (r: string)
    requires |parts| == |separators| + 1
    ensures |parts[0]| > 0 ==> |r| > 0 && r[0] == parts[0][0]
    ensures (forall i :: 0 <= i < |parts| ==> AllDigits(parts[i])) ==>
              forall k :: 0 <= k < |r| ==> IsDigit(r[k]) || r[k] in separators
  {
    if separators == [] then parts[0]
    else
      var tail := Joined(parts[1..], separators[1..]);
      assert forall k :: 0 <= k < |tail| && tail[k] in separators[1..] ==> tail[k] in separators;
      parts[0] + ([separators[0]] + tail)
  }

  const DateSeparators := "-- ::"

  const TimeSeparators := "::"

  /** Time::toString: "HH:MM:SS", every component zero-padded to two digits. */
  function TimeText(t: Time): string {
    Joined(TimeParts(t), TimeSeparators)
  }

  function TimeParts(t: Time): (parts: seq<string>)
    ensures |parts| == 3
  {
    [Padded(t.hour, 2), Padded(t.minute, 2), Padded(t.second, 2)]
  }

  /** Splitting joined parts at the n-th separator. */
  lemma {:induction false} JoinedSplit(parts: seq<string>, separators: string, n: nat)
    requires |parts| == |separators| + 1 && n < |separators|
    ensures Joined(parts, separators)
         == Joined(parts[..n + 1], separators[..n]) + [separators[n]] + Joined(parts[n + 1..], separators[n + 1..])
  {
    if n > 0 {
      JoinedSplit(parts[1..], separators[1..], n - 1);
      assert parts[..n + 1][1..] == parts[1..][..n];
      assert separators[..n][1..] == separators[1..][..n - 1];
      assert parts[1..][n..] == parts[n + 1..];
      assert separators[1..][n..] == separators[n + 1..];
    }
  }

  /** The time's text reads back as its three components. */
  lemma {:induction false} TimeTextRoundTrip(t: Time)
    ensures ScanFields(TimeText(t), TimeSeparators) == [t.hour, t.minute, t.second]
  {
    var parts := TimeParts(t);
    assert TimeSeparators[..|parts| - 1] == TimeSeparators;
    ScanSeparatedPrefix(parts, TimeSeparators);
  }

  /** The date's text is its calendar part, a blank, and the text of its time. */
  lemma {:induction false} DateTextEndsWithTime(d: Date)
    ensures DateText(d) == Joined(DateParts(d)[..3], "--") + " " + TimeText(d.time)
  {
    JoinedSplit(DateParts(d), DateSeparators, 2);
    assert DateParts(d)[3..] == TimeParts(d.time);
    assert DateSeparators[..2] == "--" && DateSeparators[3..] == TimeSeparators;
  }

  /** Date::toString: "YYYY-MM-DD HH:MM:SS", every component zero-padded. */
  function DateText(d: Date): string {
    Joined(DateParts(d), DateSeparators)
  }

  /** The zero-padded components of a date, in the order the text form writes them. */
  function DateParts(d: Date): (parts: seq<string>)
    ensures |parts| == 6
  {
    [Padded(d.year, 4), Padded(d.month, 2), Padded(d.day, 2),
     Padded(d.time.hour, 2), Padded(d.time.minute, 2), Padded(d.time.second, 2)]
  }

  /** Each component is written with at least one digit, and its digits spell the component's value. */
  lemma {:induction false} DatePartsDigits(d: Date)
    ensures forall i :: 0 <= i < 6 ==>
              |DateParts(d)[i]| > 0 && AllDigits(DateParts(d)[i]) && Value(DateParts(d)[i]) == Key(d)[i]
  {
  }

  /** The text form holds only digits and the separators "-", " " and ":". */
  lemma {:induction false} DateTextChars(d: Date)
    ensures forall i :: 0 <= i < |DateText(d)| ==> IsDigit(DateText(d)[i]) || DateText(d)[i] in DateSeparators
  {
    DatePartsDigits(d);
  }

  /**
   * The reading `sscanf(text, "%d-%d-%d %d:%d:%d", ...)` performs: the integers read
   * before the first conversion or separator that fails. A blank in the format
   * matches any amount of white space, including none.
   */
  function ScanFields(s: string, separators: string): (r: seq<int>)
    ensures |r| <= |separators| + 1
  {
    match ScanInt(s)
    case None => []
    case Some((v, rest)) =>
      if separators == [] then [v]
      else if separators[0] == ' ' then [v] + ScanFields(SkipSpace(rest), separators[1..])
      else if rest != [] && rest[0] == separators[0] then [v] + ScanFields(rest[1..], separators[1..])
      else [v]
  }

  /** The values a date's fields hold before the scan: 2000-01-01 00:00:00. */
  const DateDefaults: seq<int> := [2000, 1, 1, 0, 0, 0]

  /**
   * How a stored date field is read back: the scanned components, the defaults for
   * every component after the first one that could not be read, and then the
   * clamping constructors.
   */
  function ParseDate(s: string): Date {
    var read := ScanFields(s, DateSeparators);
    var v := read + DateDefaults[|read|..];
    MakeDate(v[0], v[1], v[2], MakeTime(v[3], v[4], v[5]))
  }

  /** The values of a sequence of digit runs. */
  function ValuesOf(parts: seq<string>): (r: seq<nat>)
    requires forall i :: 0 <= i < |parts| ==> AllDigits(parts[i])
    ensures |r| == |parts| && forall i :: 0 <= i < |parts| ==> r[i] == Value(parts[i])
  {
    if parts == [] then [] else [Value(parts[0])] + ValuesOf(parts[1..])
  }

  /**
   * Digit runs joined by non-digit separators scan back as the runs' values, and the
   * scan stops where the text ends even if the format expects more.
   */
  lemma {:induction false} ScanJoined(parts: seq<string>, separators: string, more: string)
    requires |parts| == |separators| + 1
    requires forall i :: 0 <= i < |parts| ==> |parts[i]| > 0 && AllDigits(parts[i])
    requires forall i :: 0 <= i < |separators| ==> !IsDigit(separators[i])
    ensures ScanFields(Joined(parts, separators), separators + more) == ValuesOf(parts)
  {
    if separators == [] {
      assert [] + more == more;
      ScanLast(parts[0], more);
    } else {
      assert (separators + more)[1..] == separators[1..] + more;
      ScanJoinedStep(parts, separators, more);
      ScanJoined(parts[1..], separators[1..], more);
    }
  }

  /** A digit run that ends the text is the last value the scan reads. */
  lemma {:induction false} ScanLast(d: string, more: string)
    requires |d| > 0 && AllDigits(d)
    ensures ScanFields(d, more) == [Value(d)]
  {
    ScanIntOfDigits(d, []);
    assert d + [] == d;
    if more != [] && more[0] == ' ' {
      calc {
        ScanFields(d, more);
      == { ScanFieldsUnfold(d, more, Value(d), []); }
        [Value(d)] + ScanFields(SkipSpace([]), more[1..]);
      == { assert SkipSpace([]) == []; ScanNothing(more[1..]); }
        [Value(d)] + [];
      }
    }
  }

  /** An empty text yields no value. */
  lemma {:induction false} ScanNothing(separators: string)
    ensures ScanFields([], separators) == []
  {
    assert ScanInt([]) == None by { assert SkipSpace([]) == []; assert DigitRun([]) == 0; }
  }

  /** The first step of scanning joined digit runs reads the first run and its separator. */
  lemma {:induction false} ScanJoinedStep(parts: seq<string>, separators: string, more: string)
    requires |parts| == |separators| + 1 && separators != []
    requires forall i :: 0 <= i < |parts| ==> |parts[i]| > 0 && AllDigits(parts[i])
    requires !IsDigit(separators[0])
    ensures ScanFields(Joined(parts, separators), separators + more)
         == [Value(parts[0])] + ScanFields(Joined(parts[1..], separators[1..]), (separators + more)[1..])
  {
    var tail := Joined(parts[1..], separators[1..]);
    var rest := [separators[0]] + tail;
    ScanJoinedFirst(parts, separators);
    assert rest[1..] == tail;
    if separators[0] == ' ' {
      BlankBeforeDigit(parts[1..], separators[1..]);
    }
    ScanFieldsUnfold(Joined(parts, separators), separators + more, Value(parts[0]), rest);
  }

  /** White space skipping stops at the first digit of the joined runs that follow a blank. */
  lemma {:induction false} BlankBeforeDigit(parts: seq<string>, separators: string)
    requires |parts| == |separators| + 1
    requires |parts[0]| > 0 && IsDigit(parts[0][0])
    ensures SkipSpace([' '] + Joined(parts, separators)) == Joined(parts, separators)
  {
    var tail := Joined(parts, separators);
    var s := [' '] + tail;
    assert s[1..] == tail;
    assert tail[0] == parts[0][0];
    assert !IsSpace(tail[0]);
    assert SkipSpace(tail) == tail;
    assert SkipSpace(s) == SkipSpace(s[1..]);
  }

  /** The first conversion over joined digit runs reads the first run and stops at the separator. */
  lemma {:induction false} ScanJoinedFirst(parts: seq<string>, separators: string)
    requires |parts| == |separators| + 1 && separators != []
    requires |parts[0]| > 0 && AllDigits(parts[0])
    requires !IsDigit(separators[0])
    ensures ScanInt(Joined(parts, separators))
         == Some((Value(parts[0]), [separators[0]] + Joined(parts[1..], separators[1..])))
  {
    ScanIntOfDigits(parts[0], [separators[0]] + Joined(parts[1..], separators[1..]));
  }

  /** One unfolding of the scan after a successful conversion that is not the last. */
  lemma {:induction false} ScanFieldsUnfold(s: string, separators: string, v: int, rest: string)
    requires ScanInt(s) == Some((v, rest)) && separators != []
    requires separators[0] == ' ' || (rest != [] && rest[0] == separators[0])
    ensures ScanFields(s, separators)
         == [v] + ScanFields(if separators[0] == ' ' then SkipSpace(rest) else rest[1..], separators[1..])
  {
  }

  /** The text form of a date reads back as the same date. */
  lemma {:induction false} DateTextRoundTrip(d: Date)
    ensures ParseDate(DateText(d)) == d
  {
    var text := DateText(d);
    var v := Key(d)[..6] + DateDefaults[6..];
    assert v == Key(d);
    calc {
      ParseDate(text);
    == { assert DateParts(d)[..6] == DateParts(d); assert DateSeparators[..5] == DateSeparators;
         ScanPrefix(d, 6); ParseDateRead(text, Key(d)[..6]); }
      MakeDate(v[0], v[1], v[2], MakeTime(v[3], v[4], v[5]));
    == { MakeDateKeepsValid(d); }
      d;
    }
  }

  /**
   * A date field cut short after its first n components reads back with those
   * components and the defaults for the rest.
   */
  lemma {:induction false} ParseDatePrefix(d: Date, n: nat)
    requires 1 <= n <= 6
    ensures var v := Key(d)[..n] + DateDefaults[n..];
            ParseDate(Joined(DateParts(d)[..n], DateSeparators[..n - 1]))
            == MakeDate(v[0], v[1], v[2], MakeTime(v[3], v[4], v[5]))
  {
    var text := Joined(DateParts(d)[..n], DateSeparators[..n - 1]);
    ScanPrefix(d, n);
    ParseDateRead(text, Key(d)[..n]);
  }

  /** The first n components of a date are non-empty digit runs whose values are the first n keys. */
  lemma {:induction false} DatePrefixValues(d: Date, n: nat)
    requires n <= 6
    ensures forall i :: 0 <= i < n ==> |DateParts(d)[..n][i]| > 0 && AllDigits(DateParts(d)[..n][i])
    ensures ValuesOf(DateParts(d)[..n]) == Key(d)[..n]
  {
    DatePartsDigits(d);
  }

  /** Digit runs joined by the first separators of a list scan back as their values against the whole list. */
  lemma {:induction false} ScanSeparatedPrefix(parts: seq<string>, separators: string)
    requires 1 <= |parts| <= |separators| + 1
    requires forall i :: 0 <= i < |parts| ==> |parts[i]| > 0 && AllDigits(parts[i])
    requires forall i :: 0 <= i < |separators| ==> !IsDigit(separators[i])
    ensures ScanFields(Joined(parts, separators[..|parts| - 1]), separators) == ValuesOf(parts)
  {
    var n := |parts|;
    assert separators[..n - 1] + separators[n - 1..] == separators;
    ScanJoined(parts, separators[..n - 1], separators[n - 1..]);
  }

  /** The first n components of a date, joined by their separators, scan back as their values. */
  lemma {:induction false} ScanPrefix(d: Date, n: nat)
    requires 1 <= n <= 6
    ensures ScanFields(Joined(DateParts(d)[..n], DateSeparators[..n - 1]), DateSeparators) == Key(d)[..n]
  {
    DatePrefixValues(d, n);
    ScanSeparatedPrefix(DateParts(d)[..n], DateSeparators);
  }

  /** Names the scanned values in a date read, for the lemmas above. */
  lemma {:induction false} ParseDateRead(s: string, read: seq<int>)
    requires ScanFields(s, DateSeparators) == read
    ensures var v := read + DateDefaults[|read|..];
            ParseDate(s) == MakeDate(v[0], v[1], v[2], MakeTime(v[3], v[4], v[5]))
  {
  }

  /**
   * The scan stops at the first component it cannot read: a year followed by a month
   * that is not a number yields that year and the defaults for everything after it,
   * however many readable components follow.
   */
  lemma {:induction false} ParseDateStopsAtUnreadableMonth(year: nat, c: char, rest: string)
    requires 1900 <= year <= 9999
    requires !IsSpace(c) && !IsDigit(c) && c != '-' && c != '+'
    ensures ParseDate(Padded(year, 4) + "-" + [c] + rest) == DateTime(year, DefaultMonth, DefaultDay, TimeOfDay(0, 0, 0))
  {
    var s := Padded(year, 4) + "-" + [c] + rest;
    ScanStopsAtSecond(Padded(year, 4), c, rest);
    ParseDateRead(s, [year]);
  }

  /** A digit run, a "-" and then a character that cannot start a number scan as that run's value alone. */
  lemma {:induction false} ScanStopsAtSecond(d: string, c: char, rest: string)
    requires |d| > 0 && AllDigits(d)
    requires !IsSpace(c) && !IsDigit(c) && c != '-' && c != '+'
    ensures ScanFields(d + "-" + [c] + rest, DateSeparators) == [Value(d)]
  {
    var t := [c] + rest;
    var tail := ['-'] + t;
    assert d + "-" + [c] + rest == d + tail;
    ScanIntOfDigits(d, tail);
    assert tail[1..] == t;
    calc {
      ScanFields(d + tail, DateSeparators);
    == { ScanFieldsUnfold(d + tail, DateSeparators, Value(d), tail); }
      [Value(d)] + ScanFields(t, DateSeparators[1..]);
    == { ScanIntRefuses(c, rest); }
      [Value(d)];
    }
  }

  /** `%d` fails on a text whose first character is neither white space, a sign nor a digit. */
  lemma {:induction false} ScanIntRefuses(c: char, rest: string)
    requires !IsSpace(c) && !IsDigit(c) && c != '-' && c != '+'
    ensures ScanInt([c] + rest) == None
  {
    var t := [c] + rest;
    assert SkipSpace(t) == t;
    assert DigitRun(t) == 0;
  }

  /** For example, "2024-xx-15 10:20:30" is read as 2024-01-01 00:00:00: the day and the time are dropped. */
  lemma {:induction false} ParseDateDropsLaterFields()
    ensures ParseDate("2024-xx-15 10:20:30") == DateTime(2024, 1, 1, TimeOfDay(0, 0, 0))
  {
    PaddedYear();
    assert "2024-xx-15 10:20:30" == Padded(2024, 4) + "-" + ['x'] + "x-15 10:20:30";
    ParseDateStopsAtUnreadableMonth(2024, 'x', "x-15 10:20:30");
  }

  /** The year 2024 is written "2024". */
  lemma {:induction false} PaddedYear()
    ensures Padded(2024, 4) == "2024"
  {
    assert Padded(2, 1) == "2";
    assert Padded(20, 2) == "20";
    assert Padded(202, 3) == "202";
  }

  /** A date field that does not start with a number keeps every default: 2000-01-01 00:00:00. */
  lemma {:induction false} ParseDateUnreadable(s: string)
    requires ScanInt(s) == None
    ensures ParseDate(s) == DateTime(DefaultYear, DefaultMonth, DefaultDay, TimeOfDay(0, 0, 0))
  {
  }
}
