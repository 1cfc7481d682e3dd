/** The show-schedule screen of a theater screen: the strip of selectable dates built
    from the schedule's first and last day, the date text sent to the backend, the
    shaping of the show times it returns and their 12-hour display. */
module AllShows {
  import opened Common
  import opened Calendar

  const DayNames: seq<string> := ["Sun", "Mon", "Tue", "Wed", "Thu", "Fri", "Sat"]
  const MonthNames: seq<string> := ["Jan", "Feb", "Mar", "Apr", "May", "Jun",
                                    "Jul", "Aug", "Sep", "Oct", "Nov", "Dec"]

  /** One entry of the date strip: weekday name, two-digit day of month, month name, year. */
  datatype DateCard = DateCard(day: string, date: string, month: string, year: int)

  /** `formatDate` applied to the `Date` of day number `n`. */
  function FormatDate(n: int): DateCard
  {
    var d := DateOf(n);
    DateCard(DayNames[Weekday(n)], PadStart2(NatToDecimal(d.day)), MonthNames[d.month - 1], d.year)
  }

  /** The day-of-month text of a card is exactly two digits that read back as the day of
      month, and the year is the calendar year. */
  lemma FormatDateDigits(n: int)
    ensures FormatDate(n).year == DateOf(n).year
    ensures |FormatDate(n).date| == 2 && AllDigits(FormatDate(n).date)
    ensures DecimalValue(FormatDate(n).date) == DateOf(n).day
  {
    TwoDigitRoundTrip(DateOf(n).day);
  }

  /** The names on a card are the weekday's entry of the day names (index 0..6, Sunday first)
      and the month's entry of the month names (index 0..11). */
  lemma FormatDateNames(n: int)
    ensures 0 <= Weekday(n) < 7 && FormatDate(n).day == DayNames[Weekday(n)]
    ensures 0 <= DateOf(n).month - 1 < 12 && FormatDate(n).month == MonthNames[DateOf(n).month - 1]
  {
  }

  /** The strip of cards for the days `start` to `end` inclusive. */
  function DateStrip(start: int, end: int): seq<DateCard>
    decreases end - start
  {
    if start > end then [] else DateStrip(start, end - 1) + [FormatDate(end)]
  }

  /** The strip has one card per day of the range, the k-th being day `start + k`, and is
      empty when the range is. */
  lemma {:induction false} DateStripAt(start: int, end: int)
    ensures |DateStrip(start, end)| == if start <= end then end - start + 1 else 0
    ensures forall k :: 0 <= k < |DateStrip(start, end)| ==> DateStrip(start, end)[k] == FormatDate(start + k)
    decreases end - start
  {
    if start <= end {
      DateStripAt(start, end - 1);
      var front := DateStrip(start, end - 1);
      assert DateStrip(start, end) == front + [FormatDate(end)];
      forall k | 0 <= k < |DateStrip(start, end)|
        ensures DateStrip(start, end)[k] == FormatDate(start + k)
      {
        if k < |front| {
          assert DateStrip(start, end)[k] == front[k];
        }
      }
    }
  }

  /** `generateDateRange`: the loop advances a day at a time from `start`, pushing each card. */
  method GenerateDateRange(start: int, end: int) returns (dates: seq<DateCard>)
    ensures dates == DateStrip(start, end)
  {
    var current := start;
    dates := [];
    while current <= end
      invariant start <= current && (current <= end + 1 || current == start)
      invariant dates == DateStrip(start, current - 1)
      decreases end - current
    {
      dates := dates + [FormatDate(current)];
      current := current + 1;
    }
  }

  /** Successive cards of the strip are successive calendar days, in increasing order. */
  lemma DateRangeIsConsecutive(start: int, k: int)
    ensures DateOf(start + k + 1) == NextDay(DateOf(start + k))
    ensures Before(DateOf(start + k), DateOf(start + k + 1))
    ensures Weekday(start + k + 1) == (Weekday(start + k) + 1) % 7
  {
    DateOfSucc(start + k);
    DateOfIncreasing(start + k, start + k + 1);
    WeekdaySucc(start + k);
  }

  /** `monthMapping[name] || "01"`: the month-name keys of the mapping, each with its two-digit
      number; any other name takes the "01" fallback. */
  function MonthCode(name: string): (r: string)
    ensures name !in MonthNames ==> r == "01"
  {
    if name == "Jan" then "01" else if name == "Feb" then "02" else if name == "Mar" then "03"
    else if name == "Apr" then "04" else if name == "May" then "05" else if name == "Jun" then "06"
    else if name == "Jul" then "07" else if name == "Aug" then "08" else if name == "Sep" then "09"
    else if name == "Oct" then "10" else if name == "Nov" then "11" else if name == "Dec" then "12"
    else "01"
  }

  /** `formatDateForAPI`: year, then the two-digit day, then the month number, joined by '-'. */
  function FormatDateForAPI(c: DateCard): (r: string)
    ensures c.month !in MonthNames ==> r == IntToDecimal(c.year) + "-" + PadStart2(c.date) + "-01"
  {
    IntToDecimal(c.year) + "-" + PadStart2(c.date) + "-" + MonthCode(c.month)
  }

  /** The two-digit month numbers, January first. */
  const MonthNumbers: seq<string> := ["01", "02", "03", "04", "05", "06", "07", "08", "09", "10", "11", "12"]

  /** The names of the date strip are exactly the keys of the month mapping: each is mapped
      to its own month number, and never to the fallback unless it is January's. */
  lemma MonthCodeOfName(m: int)
    requires 1 <= m <= 12
    ensures MonthCode(MonthNames[m - 1]) == MonthNumbers[m - 1]
  {
  }

  /** Each month number is two digits that read back as the month. */
  lemma MonthNumberValue(m: int)
    requires 1 <= m <= 12
    ensures |MonthNumbers[m - 1]| == 2 && AllDigits(MonthNumbers[m - 1])
    ensures DecimalValue(MonthNumbers[m - 1]) == m
  {
  }

  /** For every card of the strip the month never takes the "01" fallback: the date text sent
      to the backend is the card's year, its two-digit day of month and the number of its own
      month, in that order. */
  lemma ApiDateOfFormattedDate(n: int)
    ensures FormatDateForAPI(FormatDate(n)) ==
      IntToDecimal(DateOf(n).year) + "-" + FormatDate(n).date + "-" + MonthNumbers[DateOf(n).month - 1]
  {
    FormatDateNames(n);
    MonthCodeOfName(DateOf(n).month);
  }

  /** `scrollLeft`: `Math.max(prev - 1, 0)`. */
  function ScrollLeftIndex(i: int): (r: int)
    ensures r >= 0
    ensures i >= 1 ==> r == i - 1
    ensures i < 1 ==> r == 0
  {
    if i - 1 > 0 then i - 1 else 0
  }

  /** `scrollRight`: `Math.min(prev + 1, dates.length - 1)`. */
  function ScrollRightIndex(i: int, len: nat): (r: int)
    ensures r <= len - 1
    ensures i + 1 <= len - 1 ==> r == i + 1
    ensures i + 1 > len - 1 ==> r == len - 1
  {
    if i + 1 < len - 1 then i + 1 else len - 1
  }

  /** From a selected index inside the strip, stepping either way stays inside it;
      with an empty strip, stepping right selects index -1. */
  lemma ScrollStaysInStrip(i: int, len: nat)
    ensures 0 <= i < len ==> 0 <= ScrollLeftIndex(i) < len && 0 <= ScrollRightIndex(i, len) < len
    ensures len == 0 && i >= -2 ==> ScrollRightIndex(i, len) == -1
  {
  }

  /** What `movie` holds in a show-time entry: null, a text such as "None", or a movie object. */
  datatype MovieField = Null | Text(text: string) | Details(title: string)

  datatype ShowtimeEntry = ShowtimeEntry(startTime: string, movie: MovieField)

  /** One show of the day as the screen keeps it: "HH:mm" and the movie (`Null` for null). */
  datatype Showtime = Showtime(time: string, movie: MovieField)

  /** The `map` over the entries returned for a date. */
  function ToShowtimes(entries: seq<ShowtimeEntry>): (r: seq<Showtime>)
    ensures |r| == |entries|
    ensures forall i :: 0 <= i < |r| ==>
      r[i].time == Take(entries[i].startTime, 5) &&
      (r[i].movie == Null <==> entries[i].movie == Null || entries[i].movie == Text("None")) &&
      (r[i].movie != Null ==> r[i].movie == entries[i].movie)
  {
    if entries == [] then []
    else
      var e := entries[0];
      [Showtime(Take(e.startTime, 5), if e.movie == Text("None") then Null else e.movie)]
        + ToShowtimes(entries[1..])
  }

  predicate IsSpace(c: char)
  {
    c == ' ' || c == '\t' || c == '\n' || c == '\r' || c == '\U{000B}' || c == '\U{000C}'
  }

  function SkipSpace(s: string): (r: string)
    ensures r == [] || !IsSpace(r[0])
    ensures |r| <= |s| && r == s[|s| - |r|..]
  {
    if s != [] && IsSpace(s[0]) then SkipSpace(s[1..]) else s
  }

  /** The longest prefix of decimal digits. */
  function DigitPrefix(s: string): (r: string)
    ensures AllDigits(r) && r <= s
    ensures |r| < |s| ==> !IsDigit(s[|r|])
  {
    if s != [] && IsDigit(s[0]) then [s[0]] + DigitPrefix(s[1..]) else []
  }

  /** `parseInt(s, 10)`; `None` stands for NaN. */
  function ParseInt(s: string): (r: Option<int>)
    ensures r.None? <==> DigitPrefix(if SkipSpace(s) != [] && SkipSpace(s)[0] in "+-"
                                     then SkipSpace(s)[1..] else SkipSpace(s)) == []
  {
    var t := SkipSpace(s);
    var negative := t != [] && t[0] == '-';
    var u := if t != [] && t[0] in "+-" then t[1..] else t;
    var digits := DigitPrefix(u);
    var magnitude: int := if digits == [] then 0 else DecimalValue(digits);
    if digits == [] then None else Some(if negative then -magnitude else magnitude)
  }

  /** Text made only of digits parses to the number it denotes. */
  lemma {:induction false} ParseIntOfDigits(s: string)
    requires s != [] && AllDigits(s)
    ensures ParseInt(s) == Some(DecimalValue(s))
  {
    assert SkipSpace(s) == s;
    DigitPrefixOfDigits(s);
  }

  lemma {:induction false} DigitPrefixOfDigits(s: string)
    requires AllDigits(s)
    ensures DigitPrefix(s) == s
  {
    if s != [] {
      assert AllDigits(s[1..]) by {
        forall i | 0 <= i < |s[1..]| ensures IsDigit(s[1..][i]) { assert s[1..][i] == s[i + 1]; }
      }
      DigitPrefixOfDigits(s[1..]);
      assert [s[0]] + s[1..] == s;
    }
  }

  /** JavaScript `%` on integers: the remainder truncated toward zero, sign of the dividend. */
  function JsRem(a: int, b: int): (r: int)
    requires b > 0
    ensures -b < r < b
    ensures a >= 0 ==> r >= 0
    ensures a < 0 ==> r <= 0
    ensures exists q :: a == q * b + r
  {
    if a >= 0 then
      assert a == (a / b) * b + a % b;
      a % b
    else
      assert a == (-((-a) / b)) * b + -((-a) % b);
      -((-a) % b)
  }

  /** `hour % 12 || 12`: NaN and a zero remainder both become 12. */
  function TwelveHour(hour: Option<int>): (r: int)
    ensures hour.None? ==> r == 12
    ensures hour.Some? && hour.value >= 0 ==> 1 <= r <= 12 && r % 12 == hour.value % 12
    ensures hour.Some? && hour.value < 0 ==> -11 <= r <= 12 && r != 0
  {
    match hour
    case None => 12
    case Some(h) => if JsRem(h, 12) == 0 then 12 else JsRem(h, 12)
  }

  /** `hour >= 12 ? 'PM' : 'AM'`; NaN compares false. */
  function Meridiem(hour: Option<int>): (r: string)
    ensures r == "PM" || r == "AM"
    ensures r == "PM" <==> hour.Some? && hour.value >= 12
  {
    if hour.Some? && hour.value >= 12 then "PM" else "AM"
  }

  /** The text after the first ':' up to any second one; a template literal prints a missing
      piece as "undefined". */
  function MinutesText(time: string): string
  {
    var parts := Split(time, ':');
    if |parts| > 1 then parts[1] else "undefined"
  }

  /** `convertTo12HourFormat`. */
  function ConvertTo12HourFormat(time: string): (r: string)
    ensures |r| >= 2 && (r[|r| - 2..] == "AM" || r[|r| - 2..] == "PM")
    ensures r[|r| - 2..] == "PM" <==> ParseInt(Split(time, ':')[0]).Some? && ParseInt(Split(time, ':')[0]).value >= 12
  {
    var hour := ParseInt(Split(time, ':')[0]);
    IntToDecimal(TwelveHour(hour)) + ":" + MinutesText(time) + " " + Meridiem(hour)
  }

  /** Reading a 12-hour time back: the 24-hour clock value. */
  function To24Hour(hour12: int, pm: bool): int
  {
    hour12 % 12 + (if pm then 12 else 0)
  }

  /** For every hour of the day, the 12-hour display determines the hour. */
  lemma TwelveHourInverse(h: int)
    requires 0 <= h < 24
    ensures To24Hour(TwelveHour(Some(h)), Meridiem(Some(h)) == "PM") == h
  {
  }

  /** For a time "HH:rest" with digits HH, the hour is converted and the text between the
      first and a second ':' (the minutes of "HH:mm" or "HH:mm:ss") is passed through unchanged. */
  lemma {:induction false} ConvertWellFormed(hh: string, rest: string)
    requires hh != [] && AllDigits(hh)
    ensures ConvertTo12HourFormat(hh + ":" + rest) ==
      IntToDecimal(TwelveHour(Some(DecimalValue(hh)))) + ":" + Split(rest, ':')[0] + " " +
      (if DecimalValue(hh) >= 12 then "PM" else "AM")
  {
    assert ':' !in hh by {
      forall i | 0 <= i < |hh| ensures hh[i] != ':' { assert IsDigit(hh[i]); }
    }
    SplitAtFirst(hh, ':', rest);
    ParseIntOfDigits(hh);
  }

  /** An hour text that is not a number shows as "12:... AM". */
  lemma NotANumberHour(time: string)
    requires ParseInt(Split(time, ':')[0]).None?
    ensures ConvertTo12HourFormat(time) == "12" + ":" + MinutesText(time) + " " + "AM"
  {
    assert IntToDecimal(12) == "12";
  }

  /** What the per-date effect does with the current strip and selected index. */
  datatype ShowsFetch =
    | NoFetch                  // the strip is still empty
    | FetchShows(date: string) // request the shows of this API date
    | FetchThrows              // `dates[selectedDateIndex]` is undefined: formatting it throws

  /** The decision of the per-date effect. */
  function PlanShowsFetch(dates: seq<DateCard>, selected: int): (r: ShowsFetch)
    ensures r.NoFetch? <==> dates == []
    ensures r.FetchShows? <==> dates != [] && 0 <= selected < |dates|
    ensures r.FetchShows? ==> r.date == FormatDateForAPI(dates[selected])
  {
    if |dates| == 0 then NoFetch
    else if 0 <= selected < |dates| then FetchShows(FormatDateForAPI(dates[selected]))
    else FetchThrows
  }

  datatype ScheduleResponse = Schedule(status: int, startDay: int, endDay: int) | ScheduleFailed

  datatype ShowsResponse = Shows(status: int, entries: seq<ShowtimeEntry>) | ShowsFailed

  /** The state of the schedule screen and its handlers. */
  class SchedulePicker {
    var dates: seq<DateCard>
    var selected: int
    var loading: bool
    var showData: seq<Showtime>

    constructor ()
      ensures dates == [] && selected == 0 && loading && showData == []
    {
      dates, selected, loading, showData := [], 0, true, [];
    }

    /** `fetchSchedule`: on status 200 the strip becomes the range of the schedule's days. */
    method LoadSchedule(response: ScheduleResponse)
      modifies this
      ensures response.Schedule? && response.status == 200 ==>
        dates == DateStrip(response.startDay, response.endDay)
      ensures !(response.Schedule? && response.status == 200) ==> dates == old(dates)
      ensures selected == old(selected) && loading == old(loading) && showData == old(showData)
    {
      if response.Schedule? && response.status == 200 {
        dates := GenerateDateRange(response.startDay, response.endDay);
      }
    }

    /** `handleDateChange`. */
    method SelectDate(index: int)
      modifies this
      ensures selected == index
      ensures dates == old(dates) && loading == old(loading) && showData == old(showData)
    {
      selected := index;
    }

    method ScrollLeft()
      modifies this
      ensures selected == ScrollLeftIndex(old(selected))
      ensures dates == old(dates) && loading == old(loading) && showData == old(showData)
    {
      selected := ScrollLeftIndex(selected);
    }

    method ScrollRight()
      modifies this
      ensures selected == ScrollRightIndex(old(selected), |dates|)
      ensures dates == old(dates) && loading == old(loading) && showData == old(showData)
    {
      selected := ScrollRightIndex(selected, |dates|);
    }

    /** The start of the per-date effect: nothing while the strip is empty; otherwise loading
        is set, and a failure to format the selected date ends the attempt at once. */
    method StartShowsFetch() returns (fetch: ShowsFetch)
      modifies this
      ensures fetch == PlanShowsFetch(old(dates), old(selected))
      ensures loading == (if fetch.NoFetch? then old(loading) else fetch.FetchShows?)
      ensures dates == old(dates) && selected == old(selected) && showData == old(showData)
    {
      fetch := PlanShowsFetch(dates, selected);
      if fetch.FetchShows? {
        loading := true;
      } else if fetch.FetchThrows? {
        loading := false;
      }
    }

    /** The end of the per-date effect: on status 200 the shows are replaced; loading ends always. */
    method ShowsLoaded(response: ShowsResponse)
      modifies this
      ensures response.Shows? && response.status == 200 ==> showData == ToShowtimes(response.entries)
      ensures !(response.Shows? && response.status == 200) ==> showData == old(showData)
      ensures !loading
      ensures dates == old(dates) && selected == old(selected)
    {
      if response.Shows? && response.status == 200 {
        showData := ToShowtimes(response.entries);
      }
      loading := false;
    }
  }
}
