/** Dates, times and instants as the app's DateFormatter and Calendar code
    sees them, with one fixed local time zone.

    A date is a day number and a time is a number of minutes after midnight.
    Date keys are texts: the key of day `d` is the decimal numeral of `d`,
    standing for its "yyyy-MM-dd" rendering (one text per day, read back by
    `ParseDate`). Time keys are "HH:mm" texts and a booked slot is the text
    "<date> <time>". */
module Clock {
  import opened Text

  const SecondsPerDay := 86400
  const SecondsPerMinute := 60
  const MinutesPerDay := 1440

  /** Days counted from 1970-01-01, which was a Thursday. */
  type Day = nat

  /** Minutes after midnight. */
  type Minute = m: int | 0 <= m < MinutesPerDay

  /** Seconds counted from 1970-01-01 00:00. */
  type Instant = nat

  /** `Calendar.component(.weekday, from:)`: 1 is Sunday, 7 is Saturday. */
  function Weekday(d: Day): (w: int)
    ensures 1 <= w <= 7
  {
    (d + 4) % 7 + 1
  }

  predicate IsWorkingDay(d: Day)
  {
    Weekday(d) != 1 && Weekday(d) != 7
  }

  /** The day on which an instant falls. */
  function DayOf(t: Instant): Day
  {
    t / SecondsPerDay
  }

  /** The instant of a time on a day. */
  function At(d: Day, m: Minute): Instant
  {
    d * SecondsPerDay + m * SecondsPerMinute
  }

  /** `calendar.startOfDay(for: calendar.date(byAdding: .day, value: 1, to: t))`. */
  function StartOfTomorrow(t: Instant): Instant
  {
    (DayOf(t) + 1) * SecondsPerDay
  }

  /** Every instant lies before the start of the following day. */
  lemma {:induction false} BeforeStartOfTomorrow(t: Instant)
    ensures t < StartOfTomorrow(t)
  {
    var d := t / SecondsPerDay;
    assert t == d * SecondsPerDay + t % SecondsPerDay;
  }

  // ---------------------------------------------------------------- digits

  predicate IsDigit(c: char)
  {
    '0' <= c <= '9'
  }

  function DigitChar(k: int): (c: char)
    requires 0 <= k < 10
    ensures IsDigit(c)
  {
    ('0' as int + k) as char
  }

  function DigitValue(c: char): (k: int)
    requires IsDigit(c)
    ensures 0 <= k < 10
  {
    c as int - '0' as int
  }

  predicate AllDigits(s: string)
  {
    forall i :: 0 <= i < |s| ==> IsDigit(s[i])
  }

  /** The decimal numeral of `n`, without leading zeros. */
  function Decimal(n: nat): string
    decreases n
  {
    if n < 10 then [DigitChar(n)] else Decimal(n / 10) + [DigitChar(n % 10)]
  }

  /** The number a numeral denotes. */
  function DecimalValue(s: string): nat
    requires AllDigits(s)
    decreases |s|
  {
    if s == [] then 0 else DecimalValue(s[..|s| - 1]) * 10 + DigitValue(s[|s| - 1])
  }

  /** Reading a numeral back gives the number it was written from. */
  lemma {:induction false} DecimalRoundTrip(n: nat)
    ensures Decimal(n) != [] && AllDigits(Decimal(n))
    ensures DecimalValue(Decimal(n)) == n
    decreases n
  {
    if n >= 10 {
      DecimalRoundTrip(n / 10);
      var s := Decimal(n);
      assert s[..|s| - 1] == Decimal(n / 10);
    }
  }

  // ----------------------------------------------------------------- dates

  /** `formatter.string(from:)` with "yyyy-MM-dd". */
  function FormatDate(d: Day): string
  {
    Decimal(d)
  }

  /** `formatter.date(from:)` with "yyyy-MM-dd": only well-formed texts parse. */
  function ParseDate(s: string): Option<Day>
  {
    if s != [] && AllDigits(s) then Some(DecimalValue(s)) else None
  }

  /** A date key read back gives its day, so distinct days get distinct keys. */
  lemma DateRoundTrip(d: Day)
    ensures ParseDate(FormatDate(d)) == Some(d)
  {
    DecimalRoundTrip(d);
  }

  lemma FormatDateInjective(a: Day, b: Day)
    ensures FormatDate(a) == FormatDate(b) <==> a == b
  {
    DateRoundTrip(a);
    DateRoundTrip(b);
  }

  // ----------------------------------------------------------------- times

  /** `formatter.string(from:)` with "HH:mm". */
  function FormatTime(m: Minute): (s: string)
    ensures |s| == 5
  {
    var h := m / 60;
    var mm := m % 60;
    [DigitChar(h / 10), DigitChar(h % 10), ':', DigitChar(mm / 10), DigitChar(mm % 10)]
  }

  /** `formatter.date(from:)` with "HH:mm", as minutes after midnight. */
  function ParseTime(s: string): Option<Minute>
  {
    if |s| == 5 && IsDigit(s[0]) && IsDigit(s[1]) && s[2] == ':' && IsDigit(s[3]) && IsDigit(s[4]) then
      var h := DigitValue(s[0]) * 10 + DigitValue(s[1]);
      var mm := DigitValue(s[3]) * 10 + DigitValue(s[4]);
      if h < 24 && mm < 60 then Some(h * 60 + mm) else None
    else
      None
  }

  /** A time key read back gives its minute. */
  lemma TimeRoundTrip(m: Minute)
    ensures ParseTime(FormatTime(m)) == Some(m)
  {
    var h := m / 60;
    var mm := m % 60;
    assert h == (h / 10) * 10 + h % 10;
    assert mm == (mm / 10) * 10 + mm % 10;
  }

  /** The day DateFormatter puts on a text that holds only a time: 2000-01-01. */
  const ReferenceDay: Day := 10957

  // ----------------------------------------------------------------- slots

  /** The booked slot text `"\(date) \(time)"`. */
  function SlotText(date: string, time: string): string
  {
    date + " " + time
  }

  /** The position of the first space, or the length when there is none. */
  function FirstSpace(s: string): (i: nat)
    ensures i <= |s|
    ensures i < |s| ==> s[i] == ' '
    ensures forall j :: 0 <= j < i ==> s[j] != ' '
    decreases |s|
  {
    if s == [] then 0
    else if s[0] == ' ' then 0
    else 1 + FirstSpace(s[1..])
  }

  function Combine(d: Option<Day>, m: Option<Minute>): Option<Instant>
  {
    if d.Some? && m.Some? then Some(At(d.value, m.value)) else None
  }

  /** `formatter.date(from:)` with "yyyy-MM-dd HH:mm". */
  function ParseSlot(s: string): Option<Instant>
  {
    var i := FirstSpace(s);
    if i == |s| then None else Combine(ParseDate(s[..i]), ParseTime(s[i + 1..]))
  }

  /** A slot text parses exactly when both its date and its time do. */
  lemma ParseSlotText(date: string, time: string)
    ensures ParseSlot(SlotText(date, time)) == Combine(ParseDate(date), ParseTime(time))
  {
    var s := SlotText(date, time);
    var i := FirstSpace(s);
    assert s[|date|] == ' ';
    if i < |date| {
      assert date[i] == ' ';
      assert ParseDate(date) == None;
      var rest := s[i + 1..];
      assert ' ' in rest by {
        assert rest[|date| - i - 1] == ' ';
      }
      assert ParseTime(rest) == None;
    } else {
      assert s[..i] == date;
      assert s[i + 1..] == time;
    }
  }

  // ---------------------------------------------------------- working days

  /** How many days a weekend day lies before the next Monday. */
  function DaysToWorkingDay(d: Day): nat
  {
    if Weekday(d) == 7 then 2 else if Weekday(d) == 1 then 1 else 0
  }

  /** A weekend day is one step closer to Monday than the day before it. */
  lemma WeekendStep(d: Day)
    requires !IsWorkingDay(d)
    ensures DaysToWorkingDay(d + 1) < DaysToWorkingDay(d)
  {
  }

  /** The first working day on or after `d`. */
  function FirstWorkingDayFrom(d: Day): Day
    decreases DaysToWorkingDay(d)
  {
    if IsWorkingDay(d) then d else FirstWorkingDayFrom(d + 1)
  }

  lemma {:induction false} FirstWorkingDay(d: Day)
    ensures d <= FirstWorkingDayFrom(d) <= d + 2
    ensures IsWorkingDay(FirstWorkingDayFrom(d))
    ensures forall x: Day :: d <= x < FirstWorkingDayFrom(d) ==> !IsWorkingDay(x)
    decreases DaysToWorkingDay(d)
  {
    if !IsWorkingDay(d) {
      FirstWorkingDay(d + 1);
    }
  }

  /** The first working day strictly after `d`. */
  function NextWorkingDay(d: Day): Day
  {
    FirstWorkingDayFrom(d + 1)
  }

  /** The first `n` working days on or after `d`, in order. */
  function WorkingDaysFrom(d: Day, n: nat): seq<Day>
    decreases n
  {
    if n == 0 then []
    else
      var first := FirstWorkingDayFrom(d);
      [first] + WorkingDaysFrom(first + 1, n - 1)
  }

  /** One step of the walk `generateWorkingDays` makes through the calendar. */
  lemma WindowStep(d: Day, n: nat)
    requires n > 0
    ensures IsWorkingDay(d) ==> WorkingDaysFrom(d, n) == [d] + WorkingDaysFrom(d + 1, n - 1)
    ensures !IsWorkingDay(d) ==> WorkingDaysFrom(d, n) == WorkingDaysFrom(d + 1, n)
  {
  }

  /** The window holds `n` increasing working days from `d` on and skips no
      working day between `d` and its last day. */
  lemma {:induction false} WorkingWindow(d: Day, n: nat)
    ensures |WorkingDaysFrom(d, n)| == n
    ensures forall i :: 0 <= i < n ==> d <= WorkingDaysFrom(d, n)[i] && IsWorkingDay(WorkingDaysFrom(d, n)[i])
    ensures forall i, j :: 0 <= i < j < n ==> WorkingDaysFrom(d, n)[i] < WorkingDaysFrom(d, n)[j]
    ensures n > 0 ==> forall x: Day :: d <= x <= WorkingDaysFrom(d, n)[n - 1] && IsWorkingDay(x) ==> x in WorkingDaysFrom(d, n)
    decreases n
  {
    if n > 0 {
      var first := FirstWorkingDayFrom(d);
      FirstWorkingDay(d);
      WorkingWindow(first + 1, n - 1);
      var w := WorkingDaysFrom(d, n);
      var rest := WorkingDaysFrom(first + 1, n - 1);
      assert w == [first] + rest;
      forall x: Day | d <= x <= w[n - 1] && IsWorkingDay(x)
        ensures x in w
      {
        if x > first {
          assert n > 1;
          assert rest[n - 2] == w[n - 1];
          assert x in rest;
        }
      }
    }
  }
}
