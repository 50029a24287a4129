// seoman/utils/date_utils.py: name lookups, the granularity filters over a
// date range and the date-range partitioning behind every query body list.
// A date is a day number (see Json.Day), written as its `YYYY-MM-DD` text by
// `DateText`; a text in that form is taken to parse back to its day.

module Dates {
  import opened Wrappers
  import opened Strings
  import opened Json

  /** Python's `date.isoweekday()`: 1 is Monday, 7 is Sunday. */
  function IsoWeekday(d: Day): (w: int)
    ensures 1 <= w <= 7
  {
    d % 7 + 1
  }

  /** 2020-01-01, the start `create_date_range` uses when no range is given. */
  const FirstOf2020: Day := 737424

  /** The Gregorian year, month and day of a day number, by the days-to-civil
      conversion that counts from 0000-03-01 in 400-year eras. */
  function Civil(d: Day): (int, int, int)
  {
    var z := d + 306;
    var era := z / 146097;
    var doe := z - era * 146097;
    var yoe := (doe - doe / 1460 + doe / 36524 - doe / 146096) / 365;
    var doy := doe - (365 * yoe + yoe / 4 - yoe / 100);
    var mp := (5 * doy + 2) / 153;
    var month := if mp < 10 then mp + 3 else mp - 9;
    (yoe + era * 400 + (if month <= 2 then 1 else 0), month, doy - (153 * mp + 2) / 5 + 1)
  }

  /** The last `width` decimal digits of `n`, zero-padded. */
  function Padded(n: int, width: nat): (r: string)
    ensures |r| == width && forall i :: 0 <= i < width ==> IsDigit(r[i])
    decreases width
  {
    if width == 0 then [] else Padded(n / 10, width - 1) + [DigitChar(n % 10)]
  }

  /** `date.strftime("%Y-%m-%d")`, which is also `str(date)`. */
  function DateText(d: Day): (r: string)
    ensures |r| == 10 && r[4] == '-' && r[7] == '-'
    ensures forall i :: 0 <= i < |r| ==> IsDigit(r[i]) || r[i] == '-'
  {
    var c := Civil(d);
    Padded(c.0, 4) + "-" + Padded(c.1, 2) + "-" + Padded(c.2, 2)
  }

  /** The first day `create_date_range` uses without a range is 2020-01-01. */
  lemma FirstOf2020Text()
    ensures DateText(FirstOf2020) == "2020-01-01"
  {
    FirstOf2020Civil();
    PaddedDigits();
    assert DateText(FirstOf2020) == Padded(2020, 4) + "-" + Padded(1, 2) + "-" + Padded(1, 2);
  }

  lemma PaddedDigits()
    ensures Padded(2020, 4) == "2020" && Padded(1, 2) == "01"
  {
    assert Padded(2, 1) == "2";
    assert Padded(20, 2) == "20";
    assert Padded(202, 3) == "202";
    assert Padded(0, 1) == "0";
  }

  lemma FirstOf2020Civil()
    ensures Civil(FirstOf2020) == (2020, 1, 1)
  {
    assert 737730 / 146097 == 5 && 7245 / 1460 == 4 && 7245 / 36524 == 0 && 7245 / 146096 == 0;
    assert 7241 / 365 == 19 && 19 / 4 == 4 && 19 / 100 == 0 && 1532 / 153 == 10 && 1532 / 5 == 306;
  }

  const DayNames: seq<string> :=
    ["monday", "tuesday", "wednesday", "thursday", "friday", "saturday", "sunday"]

  const WeekendsCode := 67
  const WeekdaysCode := 12345
  /** What `get_weekday_by_name` answers for a name it does not know. */
  const NoWeekdayCode := 10

  /** `get_weekday_by_name`. */
  function WeekdayByName(name: string): (code: int)
    ensures 1 <= code <= 7 ==> DayNames[code - 1] == name
    ensures name in DayNames ==> 1 <= code <= 7
    ensures code == WeekendsCode <==> name == "weekends"
    ensures code == WeekdaysCode <==> name == "weekdays"
    ensures code == NoWeekdayCode <==> name !in DayNames && name != "weekends" && name != "weekdays"
    ensures code in {1, 2, 3, 4, 5, 6, 7, WeekendsCode, WeekdaysCode, NoWeekdayCode}
  {
    var table := map["monday" := 1, "tuesday" := 2, "wednesday" := 3, "thursday" := 4,
                     "friday" := 5, "saturday" := 6, "sunday" := 7,
                     "weekends" := WeekendsCode, "weekdays" := WeekdaysCode];
    if name in table then table[name] else NoWeekdayCode
  }

  const IntervalNames: seq<string> :=
    ["daily", "twodaily", "threedaily", "fourdaily", "fivedaily", "sixdaily", "weekly",
     "twoweekly", "threeweekly", "monthly", "twomonthly", "quarterly", "yearly"]
  const IntervalLengths: seq<nat> := [1, 2, 3, 4, 5, 6, 7, 14, 21, 30, 60, 90, 365]

  /** `get_day_granularity`: the window length in days for a named interval,
      1 for any other name. */
  function DayGranularity(name: string): (days: nat)
    ensures days >= 1
    ensures forall i :: 0 <= i < |IntervalNames| && IntervalNames[i] == name ==> days == IntervalLengths[i]
    ensures name !in IntervalNames ==> days == 1
    ensures days <= 7 || days in {14, 21, 30, 60, 90, 365}
  {
    var table := map["daily" := 1, "twodaily" := 2, "threedaily" := 3, "fourdaily" := 4,
                     "fivedaily" := 5, "sixdaily" := 6, "weekly" := 7, "twoweekly" := 14,
                     "threeweekly" := 21, "monthly" := 30, "twomonthly" := 60,
                     "quarterly" := 90, "yearly" := 365];
    if name in table then table[name] else 1
  }

  /** `create_date`: a zero argument is one Python finds false (absent or 0);
      `thisYear` stands for `datetime.now().year`. The month is not zero-padded. */
  function CreateDate(year: nat, month: nat, thisYear: nat): (r: string)
    ensures SplitOn(r, '-') ==
      [DecimalString(if year != 0 then year else thisYear),
       if month != 0 then DecimalString(month) else "01",
       "01"]
  {
    var y := DecimalString(if year != 0 then year else thisYear);
    var m := if month != 0 then DecimalString(month) else "01";
    DatePartsSplit(y, m);
    y + "-" + m + "-01"
  }

  lemma DatePartsSplit(y: string, m: string)
    requires IsNumeric(y) && IsNumeric(m)
    ensures SplitOn(y + "-" + m + "-01", '-') == [y, m, "01"]
  {
    assert '-' !in y && '-' !in m by {
      assert forall i :: 0 <= i < |y| ==> y[i] != '-';
      assert forall i :: 0 <= i < |m| ==> m[i] != '-';
    }
    var parts := [y, m, "01"];
    assert Join(parts[2..], "-") == "01";
    assert Join(parts[1..], "-") == m + "-" + "01";
    assert Join(parts, "-") == y + "-" + m + "-01";
    SplitJoin(parts, '-');
  }

  /** The condition a granularity applies to each day of the range. */
  datatype DayRule = OnWeekday(weekday: int) | Weekend | MondayOrFriday | EveryDay

  predicate Keeps(rule: DayRule, d: Day) {
    match rule
    case OnWeekday(w) => IsoWeekday(d) == w
    case Weekend => IsoWeekday(d) == 6 || IsoWeekday(d) == 7
    case MondayOrFriday => IsoWeekday(d) == 1 || IsoWeekday(d) == 5
    case EveryDay => true
  }

  /** The list comprehension `[start + x for x in range((end - start).days + 1) if ...]`. */
  function Matching(start: Day, end: Day, rule: DayRule): seq<Day>
    decreases end - start
  {
    if end < start then []
    else Matching(start, end - 1, rule) + (if Keeps(rule, end) then [end] else [])
  }

  predicate Ascending(s: seq<Day>) {
    forall i, j :: 0 <= i < j < |s| ==> s[i] < s[j]
  }

  /** The comprehension keeps exactly the days of [start, end] the rule accepts. */
  lemma {:induction false} MatchingMembers(start: Day, end: Day, rule: DayRule)
    ensures forall d :: d in Matching(start, end, rule) <==> start <= d <= end && Keeps(rule, d)
    decreases end - start
  {
    if end >= start {
      MatchingMembers(start, end - 1, rule);
    }
  }

  /** ... in ascending order. */
  lemma {:induction false} MatchingAscending(start: Day, end: Day, rule: DayRule)
    ensures Ascending(Matching(start, end, rule))
    decreases end - start
  {
    if end >= start {
      MatchingAscending(start, end - 1, rule);
      MatchingMembers(start, end - 1, rule);
      var m := Matching(start, end - 1, rule);
      assert forall i :: 0 <= i < |m| ==> m[i] in m;
    }
  }

  /** With no filter the comprehension lists every day from start to end. */
  lemma {:induction false} MatchingEveryDay(start: Day, end: Day)
    requires start <= end + 1
    ensures |Matching(start, end, EveryDay)| == end - start + 1
    ensures forall i :: 0 <= i < end - start + 1 ==> Matching(start, end, EveryDay)[i] == start + i
    decreases end - start
  {
    if end >= start {
      MatchingEveryDay(start, end - 1);
    }
  }

  /** What a granularity function returns: a list of days, Python's `None`, or an exception. */
  datatype DateList = Days(days: seq<Day>) | NoList | Fails(failure: Failure)

  /** A date argument as `strptime(..., "%Y-%m-%d")` sees it: a date text, a
      text in another format, or a value that is not a text at all (`numeric`
      for an int, float or bool, which Python can subtract from each other). */
  datatype DateArg = Parsed(day: Day) | Unparsable | NotText(numeric: bool)

  /** What `strptime` raises on an argument, if anything: `ValueError` for a
      text in another format, `TypeError` for a value that is not a text. */
  function ArgFailure(a: DateArg): (r: Option<Failure>)
    ensures r.None? <==> a.Parsed?
    ensures a.Unparsable? ==> r == Some(ValueError)
    ensures a.NotText? ==> r == Some(TypeError)
  {
    match a
    case Parsed(_) => None
    case Unparsable => Some(ValueError)
    case NotText(_) => Some(TypeError)
  }

  /** The codes `granularity_days` has a branch for. */
  predicate KnownCode(granularity: int) {
    1 <= granularity <= 7 || granularity in {WeekendsCode, WeekdaysCode, NoWeekdayCode}
  }

  /** `(end - start).days` when `isinstance` skipped parsing an argument that
      is not a text: two numbers subtract but have no `.days`
      (`AttributeError`); any other pair cannot be subtracted (`TypeError`). */
  function ArithmeticFailure(start: DateArg, end: DateArg): Failure
  {
    if start.NotText? && end.NotText? && start.numeric && end.numeric then AttributeError else TypeError
  }

  /** `granularity_days`. The two boundary fixes insert into the freshly built list. */
  method GranularityDays(granularity: int, start: DateArg, end: DateArg) returns (r: DateList)
    ensures r == GranularityArgsSpec(granularity, start, end)
    ensures (start.Unparsable? || end.Unparsable?) ==> r == Fails(ValueError)
    ensures start.Parsed? && end.Parsed? ==> r == GranularitySpec(granularity, start.day, end.day)
    ensures start.Parsed? && end.Parsed? && 1 <= granularity <= 7 ==>
      r.Days? && Ascending(r.days) &&
      forall d :: d in r.days <==> start.day <= d <= end.day && IsoWeekday(d) == granularity
    ensures start.Parsed? && end.Parsed? && granularity == NoWeekdayCode ==>
      r.Days? && r.days == Matching(start.day, end.day, EveryDay)
    ensures !KnownCode(granularity) ==> r == NoList || r == Fails(ValueError)
    ensures !start.Unparsable? && !end.Unparsable? && (start.NotText? || end.NotText?) ==>
      r == (if KnownCode(granularity) then Fails(ArithmeticFailure(start, end)) else NoList)
  {
    GranularityArgsFacts(granularity, start, end);
    if start.Unparsable? || end.Unparsable? {
      return Fails(ValueError);
    }
    if !KnownCode(granularity) {
      return NoList;
    }
    if start.NotText? || end.NotText? {
      return Fails(ArithmeticFailure(start, end));
    }
    var s, e := start.day, end.day;
    if 1 <= granularity <= 7 {
      r := Days(Matching(s, e, OnWeekday(granularity)));
    } else if granularity == WeekendsCode {
      var dates := Matching(s, e, Weekend);
      if |dates| == 0 {
        return Fails(IndexError);
      }
      if IsoWeekday(dates[0]) == 7 {
        dates := [dates[0] - 1] + dates;
      }
      if IsoWeekday(dates[|dates| - 1]) == 6 {
        dates := [dates[0] + 1] + dates;
      }
      r := Days(dates);
    } else if granularity == WeekdaysCode {
      var dates := Matching(s, e, MondayOrFriday);
      if |dates| == 0 {
        return Fails(IndexError);
      }
      if IsoWeekday(dates[0]) == 5 {
        dates := [dates[0] - 4] + dates;
      }
      r := Days(dates);
    } else {
      r := Days(Matching(s, e, EveryDay));
    }
  }

  /** What `GranularityArgsSpec` gives: ValueError for an unparsable text,
      the weekday or every-day lists for parsed dates, `None` or ValueError
      for a code without a branch, and the arithmetic failure otherwise. */
  lemma GranularityArgsFacts(granularity: int, start: DateArg, end: DateArg)
    ensures var r := GranularityArgsSpec(granularity, start, end);
      && ((start.Unparsable? || end.Unparsable?) ==> r == Fails(ValueError))
      && (start.Parsed? && end.Parsed? ==> r == GranularitySpec(granularity, start.day, end.day))
      && (start.Parsed? && end.Parsed? && 1 <= granularity <= 7 ==>
            r.Days? && Ascending(r.days) &&
            forall d :: d in r.days <==> start.day <= d <= end.day && IsoWeekday(d) == granularity)
      && (start.Parsed? && end.Parsed? && granularity == NoWeekdayCode ==>
            r.Days? && r.days == Matching(start.day, end.day, EveryDay))
      && (!KnownCode(granularity) ==> r == NoList || r == Fails(ValueError))
      && (!start.Unparsable? && !end.Unparsable? && (start.NotText? || end.NotText?) ==>
            r == (if KnownCode(granularity) then Fails(ArithmeticFailure(start, end)) else NoList))
  {
    if start.Parsed? && end.Parsed? && 1 <= granularity <= 7 {
      MatchingMembers(start.day, end.day, OnWeekday(granularity));
      MatchingAscending(start.day, end.day, OnWeekday(granularity));
    }
  }

  /** The value `granularity_days` returns for parsed dates, spelled out case by case. */
  function GranularitySpec(granularity: int, start: Day, end: Day): DateList
  {
    if 1 <= granularity <= 7 then Days(Matching(start, end, OnWeekday(granularity)))
    else if granularity == WeekendsCode then
      var found := Matching(start, end, Weekend);
      if |found| == 0 then Fails(IndexError)
      else Days(WeekendFix(found))
    else if granularity == WeekdaysCode then
      var found := Matching(start, end, MondayOrFriday);
      if |found| == 0 then Fails(IndexError)
      else Days(if IsoWeekday(found[0]) == 5 then [found[0] - 4] + found else found)
    else if granularity == NoWeekdayCode then Days(Matching(start, end, EveryDay))
    else NoList
  }

  /** Lines 73-92: a leading Sunday gets its Saturday in front; a trailing
      Saturday makes the day after the (new) first entry go in front too. */
  function WeekendFix(found: seq<Day>): seq<Day>
    requires |found| > 0
  {
    var lead := if IsoWeekday(found[0]) == 7 then [found[0] - 1] + found else found;
    if IsoWeekday(lead[|lead| - 1]) == 6 then [lead[0] + 1] + lead else lead
  }

  /** With granularity "weekends" (67) the list is empty-range fatal, keeps every
      Saturday and Sunday of the range in order at its end, gives a leading
      Sunday its Saturday, and for a trailing Saturday puts one more day in
      FRONT (the day after the then-first entry), so the list stops ascending. */
  lemma WeekendRule(start: Day, end: Day)
    ensures var found := Matching(start, end, Weekend);
      var r := GranularitySpec(WeekendsCode, start, end);
      && (r.Fails? <==> forall d :: start <= d <= end ==> !Keeps(Weekend, d))
      && (r.Fails? ==> r.failure == IndexError)
      && (r.Days? ==>
        && |found| > 0
        && var sunday, saturday := IsoWeekday(found[0]) == 7, IsoWeekday(found[|found| - 1]) == 6;
        && |r.days| == |found| + (if sunday then 1 else 0) + (if saturday then 1 else 0)
        && r.days[|r.days| - |found|..] == found
        && (sunday ==> var before := r.days[|r.days| - |found| - 1];
                       before == found[0] - 1 && IsoWeekday(before) == 6)
        && (saturday ==> r.days[0] == r.days[1] + 1 && !Ascending(r.days))
        && (!saturday ==> Ascending(r.days)))
  {
    var found := Matching(start, end, Weekend);
    MatchingMembers(start, end, Weekend);
    if |found| == 0 {
      assert forall d :: start <= d <= end ==> !Keeps(Weekend, d);
    } else {
      assert found[0] in found;
      MatchingAscending(start, end, Weekend);
      WeekendFixShape(found);
    }
  }

  lemma WeekendFixShape(found: seq<Day>)
    requires |found| > 0 && Ascending(found)
    ensures var r := WeekendFix(found);
      var sunday, saturday := IsoWeekday(found[0]) == 7, IsoWeekday(found[|found| - 1]) == 6;
      && |r| == |found| + (if sunday then 1 else 0) + (if saturday then 1 else 0)
      && r[|r| - |found|..] == found
      && (sunday ==> var before := r[|r| - |found| - 1];
                     before == found[0] - 1 && IsoWeekday(before) == 6)
      && (saturday ==> r[0] == r[1] + 1 && !Ascending(r))
      && (!saturday ==> Ascending(r))
  {
    var sunday, saturday := IsoWeekday(found[0]) == 7, IsoWeekday(found[|found| - 1]) == 6;
    var lead := if sunday then [found[0] - 1] + found else found;
    LeadShape(found);
    var r := WeekendFix(found);
    if saturday {
      TrailingSaturday(lead, |found|);
    } else {
      assert r == lead;
    }
  }

  /** The list after the leading-Sunday fix of `WeekendFix`. */
  lemma LeadShape(found: seq<Day>)
    requires |found| > 0 && Ascending(found)
    ensures var sunday := IsoWeekday(found[0]) == 7;
      var lead := if sunday then [found[0] - 1] + found else found;
      && |lead| == |found| + (if sunday then 1 else 0)
      && lead[|lead| - |found|..] == found
      && lead[|lead| - 1] == found[|found| - 1]
      && (sunday ==> lead[0] == found[0] - 1 && IsoWeekday(lead[0]) == 6)
      && Ascending(lead)
  {
    if IsoWeekday(found[0]) == 7 {
      PrependAscending(found[0] - 1, found);
      DayBefore(found[0]);
    }
  }

  /** Putting the day after the first entry in front breaks the order. */
  lemma TrailingSaturday(lead: seq<Day>, n: nat)
    requires 0 < n <= |lead| && Ascending(lead)
    ensures var r := [lead[0] + 1] + lead;
      && r[0] == r[1] + 1 && !Ascending(r)
      && r[|r| - n..] == lead[|lead| - n..]
  {
    var r := [lead[0] + 1] + lead;
    assert r[1..] == lead;
    assert r[|r| - n..] == lead[|lead| - n..];
    assert r[0] > r[1];
  }


  lemma DayBefore(d: Day)
    ensures IsoWeekday(d - 1) == if IsoWeekday(d) == 1 then 7 else IsoWeekday(d) - 1
  {
    var q := d / 7;
    assert d == 7 * q + d % 7;
    if d % 7 == 0 {
      assert d - 1 == 7 * (q - 1) + 6;
    } else {
      assert d - 1 == 7 * q + (d % 7 - 1);
    }
  }

  lemma PrependAscending(d: Day, s: seq<Day>)
    requires Ascending(s) && (|s| > 0 ==> d < s[0])
    ensures Ascending([d] + s)
  {
    var t := [d] + s;
    forall i, j | 0 <= i < j < |t| ensures t[i] < t[j] {
      if i == 0 && j > 1 { assert s[0] < s[j - 1]; }
    }
  }

  /** With granularity "weekdays" (12345) the list is empty-range fatal, keeps
      every Monday and Friday of the range in order, gives a leading Friday the
      Monday four days before, never appends anything, and stays ascending. */
  lemma WeekdayRule(start: Day, end: Day)
    ensures var found := Matching(start, end, MondayOrFriday);
      var r := GranularitySpec(WeekdaysCode, start, end);
      && (r.Fails? <==> forall d :: start <= d <= end ==> !Keeps(MondayOrFriday, d))
      && (r.Fails? ==> r.failure == IndexError)
      && (r.Days? ==>
        && |found| > 0
        && var friday := IsoWeekday(found[0]) == 5;
        && |r.days| == |found| + (if friday then 1 else 0)
        && r.days[|r.days| - |found|..] == found
        && (friday ==> r.days[0] == found[0] - 4 && IsoWeekday(r.days[0]) == 1)
        && Ascending(r.days))
  {
    var found := Matching(start, end, MondayOrFriday);
    MatchingMembers(start, end, MondayOrFriday);
    MatchingAscending(start, end, MondayOrFriday);
    var r := GranularitySpec(WeekdaysCode, start, end);
    if |found| == 0 {
      assert r == Fails(IndexError);
      assert forall d :: start <= d <= end ==> !Keeps(MondayOrFriday, d);
    } else {
      assert found[0] in found;
      var d := found[0];
      if IsoWeekday(d) == 5 {
        assert r == Days([d - 4] + found);
        FourDaysBefore(d);
        PrependAscending(d - 4, found);
        assert r.days[|r.days| - |found|..] == found;
      } else {
        assert r == Days(found);
        assert found[|found| - |found|..] == found;
      }
    }
  }

  lemma FourDaysBefore(d: Day)
    requires IsoWeekday(d) == 5
    ensures IsoWeekday(d - 4) == 1
  {
    var q := d / 7;
    assert d == 7 * q + 4;
    assert d - 4 == 7 * q + 0;
  }

  /** Granularity 10 lists every day of [start, end]: (end - start) + 1 days, from start to end. */
  lemma EveryDayRule(start: Day, end: Day)
    requires start <= end
    ensures var r := GranularitySpec(NoWeekdayCode, start, end);
      && r.Days? && |r.days| == end - start + 1
      && r.days[0] == start && r.days[|r.days| - 1] == end
      && Ascending(r.days)
  {
    MatchingEveryDay(start, end);
    MatchingAscending(start, end, EveryDay);
  }

  /** The comprehension `[start + x for x in range(0, count, step)]`. */
  function Grid(start: Day, count: int, step: nat): seq<Day>
    requires step >= 1
    decreases count
  {
    if count <= 0 then [] else [start] + Grid(start + step, count - step, step)
  }

  lemma {:induction false} GridShape(start: Day, count: int, step: nat)
    requires step >= 1 && count >= 1
    ensures var g := Grid(start, count, step);
      && |g| >= 1 && g[0] == start
      && (forall i :: 0 <= i < |g| - 1 ==> g[i + 1] == g[i] + step)
      && start <= g[|g| - 1] <= start + count - 1 < g[|g| - 1] + step
    decreases count
  {
    var g := Grid(start, count, step);
    var rest := Grid(start + step, count - step, step);
    assert g == [start] + rest;
    if count - step > 0 {
      GridShape(start + step, count - step, step);
      forall i | 0 <= i < |g| - 1 ensures g[i + 1] == g[i] + step {
        if i > 0 {
          assert g[i + 1] == rest[i] && g[i] == rest[i - 1];
        }
      }
      assert g[|g| - 1] == rest[|rest| - 1];
    } else {
      assert rest == [];
    }
  }

  /** Lines 169-178: the interval boundaries for a checked range. */
  function IntervalDates(start: Day, end: Day, step: nat): (r: seq<Day>)
    requires 1 <= step <= end + 1 - start
  {
    GridShape(start, end + 1 - start, step);
    var grid := Grid(start, end + 1 - start, step);
    var first := if grid[0] != start then [start] + grid else grid;
    if first[|first| - 1] != end then first + [end] else first
  }

  lemma {:induction false} StepsAscending(s: seq<Day>)
    requires forall i :: 0 <= i < |s| - 1 ==> s[i] < s[i + 1]
    ensures Ascending(s)
    decreases |s|
  {
    if |s| > 1 {
      StepsAscending(s[1..]);
      assert forall j :: 1 <= j < |s| ==> s[0] < s[j] by {
        forall j | 1 <= j < |s| ensures s[0] < s[j] {
          if j > 1 { assert s[1..][0] < s[1..][j - 1]; }
        }
      }
    }
  }

  /** The interval path starts at start, ends at end, ascends, and every gap is
      the interval except the last, which is at most the interval. */
  lemma IntervalShape(start: Day, end: Day, step: nat)
    requires 1 <= step <= end + 1 - start
    ensures var r := IntervalDates(start, end, step);
      && |r| >= 1 && r[0] == start && r[|r| - 1] == end
      && Ascending(r)
      && (forall i :: 0 <= i < |r| - 2 ==> r[i + 1] - r[i] == step)
      && (|r| >= 2 ==> 1 <= r[|r| - 1] - r[|r| - 2] <= step)
      && (|r| == 1 ==> start == end)
  {
    GridShape(start, end + 1 - start, step);
    var r := IntervalDates(start, end, step);
    StepsAscending(r);
  }

  /** `granularity_days` on arguments that may not parse: `start` is parsed
      first, then `end`, then the arithmetic of the known codes runs. */
  function GranularityArgsSpec(granularity: int, start: DateArg, end: DateArg): DateList
  {
    if start.Unparsable? || end.Unparsable? then Fails(ValueError)
    else if !KnownCode(granularity) then NoList
    else if start.NotText? || end.NotText? then Fails(ArithmeticFailure(start, end))
    else GranularitySpec(granularity, start.day, end.day)
  }

  /** `create_date_range`, as a value: the specification of CreateDateRange. */
  function DateRangeSpec(days: Option<int>, start: Option<DateArg>, end: Option<DateArg>,
                         granularity: Option<string>, today: Day): DateList
  {
    if start.Some? && end.Some? then
      if granularity.Some? && WeekdayByName(granularity.value) != NoWeekdayCode then
        GranularityArgsSpec(WeekdayByName(granularity.value), start.value, end.value)
      else if ArgFailure(end.value).Some? then Fails(ArgFailure(end.value).value)
      else if ArgFailure(start.value).Some? then Fails(ArgFailure(start.value).value)
      else
        var s, e := start.value.day, end.value.day;
        if e + 1 - s < 0 then Fails(ExitBadRange)
        else if granularity.None? then Fails(UnboundLocalError)
        else if DayGranularity(granularity.value) > e + 1 - s then Fails(ExitTooCoarse)
        else Days(IntervalDates(s, e, DayGranularity(granularity.value)))
    else if granularity.Some? then
      var code := WeekdayByName(granularity.value);
      GranularitySpec(if code != NoWeekdayCode then code else DayGranularity(granularity.value),
                      FirstOf2020, today)
    else if days.Some? then Days(Matching(today - days.value + 1, today, EveryDay))
    else NoList
  }

  /** `create_date_range`. `today` stands for `datetime.today().date()`. */
  method CreateDateRange(days: Option<int>, start: Option<DateArg>, end: Option<DateArg>,
                         granularity: Option<string>, today: Day) returns (r: DateList)
    ensures r == DateRangeSpec(days, start, end, granularity, today)
    ensures start.Some? && end.Some? && start.value.Parsed? && end.value.Parsed? &&
            end.value.day < start.value.day && (granularity.None? || WeekdayByName(granularity.value) == NoWeekdayCode) ==>
      r.Fails? && r.failure in {ExitBadRange, UnboundLocalError, ExitTooCoarse}
  {
    if start.Some? && end.Some? {
      var interval: Option<nat> := None;
      if granularity.Some? {
        var code := WeekdayByName(granularity.value);
        if code != NoWeekdayCode {
          r := GranularityDays(code, start.value, end.value);
          return;
        }
        interval := Some(DayGranularity(granularity.value));
      }
      // `end` is parsed before `start`
      var failure := ArgFailure(end.value);
      if failure.None? {
        failure := ArgFailure(start.value);
      }
      if failure.Some? {
        return Fails(failure.value);
      }
      var s, e := start.value.day, end.value.day;
      var dayDiff := e + 1 - s;
      if dayDiff < 0 {
        return Fails(ExitBadRange);
      }
      if interval.None? {
        return Fails(UnboundLocalError);
      }
      var step := interval.value;
      if step > dayDiff {
        return Fails(ExitTooCoarse);
      }
      GridShape(s, dayDiff, step);
      var dates := Grid(s, dayDiff, step);
      if dates[0] != s {
        dates := [s] + dates;
      }
      if dates[|dates| - 1] != e {
        dates := dates + [e];
      }
      r := Days(dates);
    } else if granularity.Some? {
      var code := WeekdayByName(granularity.value);
      var rule := if code != NoWeekdayCode then code else DayGranularity(granularity.value);
      r := GranularityDays(rule, Parsed(FirstOf2020), Parsed(today));
    } else if days.Some? {
      r := Days(Matching(today - days.value + 1, today, EveryDay));
    } else {
      r := NoList;
    }
  }

  /** The two fatal checks of lines 149-168 for an interval granularity: a range
      that ends before it starts, or an interval longer than the inclusive day
      count, ends the program and yields no list. */
  lemma IntervalChecks(s: Day, e: Day, name: string)
    requires WeekdayByName(name) == NoWeekdayCode
    ensures var r := DateRangeSpec(None, Some(Parsed(s)), Some(Parsed(e)), Some(name), 0);
      && (e < s ==> r.Fails? && r.failure in {ExitBadRange, ExitTooCoarse})
      && (e + 1 - s < 0 <==> r == Fails(ExitBadRange))
      && (e + 1 - s >= 0 ==> (DayGranularity(name) > e - s + 1 <==> r == Fails(ExitTooCoarse)))
      && (r.Days? <==> 1 <= DayGranularity(name) <= e - s + 1)
  {
  }

  /** Without a date range, `create_date_range` hands an interval's length to
      `granularity_days` as if it were a weekday number: lengths 1-7 ("daily"
      and any unknown name give Mondays, ..., "weekly" gives Sundays) select
      that weekday since 2020-01-01; the longer intervals have no branch and
      give `None`. */
  lemma NoRangeGranularity(name: string, today: Day)
    requires WeekdayByName(name) == NoWeekdayCode
    ensures var r := DateRangeSpec(None, None, None, Some(name), today);
      && (DayGranularity(name) <= 7 ==> r == Days(Matching(FirstOf2020, today, OnWeekday(DayGranularity(name)))))
      && (DayGranularity(name) > 7 ==> r == NoList)
  {
  }

  /** The `days` path: the `days` most recent days, ending today, oldest first. */
  lemma RecentDays(days: nat, today: Day)
    requires days >= 1
    ensures var r := DateRangeSpec(Some(days), None, None, None, today);
      && r.Days? && |r.days| == days
      && r.days[0] == today - days + 1 && r.days[|r.days| - 1] == today
      && Ascending(r.days)
  {
    MatchingEveryDay(today - days + 1, today);
    MatchingAscending(today - days + 1, today, EveryDay);
  }
}
