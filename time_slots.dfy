/** TimeSlotsController.swift: the seller's availability calendar, a map
    from date key to a map from time key to "active", and the list of at
    most eight template times applied to every day. */
module TimeSlots {
  import opened Text
  import opened Clock
  import opened Records

  /** `selectedSlots` never holds more than this many times. */
  const MaxSlots := 8

  /** date key -> (time key -> active). */
  type Slots = map<string, map<string, bool>>

  predicate NoDuplicates(s: seq<string>)
  {
    forall i, j :: 0 <= i < j < |s| ==> s[i] != s[j]
  }

  lemma {:induction false} DistinctCount(s: seq<string>)
    requires NoDuplicates(s)
    ensures |set t | t in s| == |s|
  {
    if s != [] {
      DistinctCount(s[1..]);
      assert (set t | t in s) == {s[0]} + (set t | t in s[1..]);
      assert s[0] !in s[1..];
    }
  }

  /** The day map the template gives: every selected time, active. */
  function AllActive(times: seq<string>): map<string, bool>
  {
    map t | t in times :: true
  }

  /** A template of distinct times yields a day with exactly those times,
      all active, so no day holds more than `MaxSlots` times. */
  lemma TemplateDay(times: seq<string>)
    requires |times| <= MaxSlots && NoDuplicates(times)
    ensures AllActive(times).Keys == set t | t in times
    ensures forall t :: t in AllActive(times) ==> AllActive(times)[t]
    ensures |AllActive(times)| == |times| <= MaxSlots
  {
    DistinctCount(times);
    assert AllActive(times).Keys == set t | t in times;
  }

  /** The keys of the given days. */
  function DateKeys(days: seq<Day>): set<string>
  {
    set d | d in days :: FormatDate(d)
  }

  /** Each of the given days, with no times yet. */
  function BlankDays(days: seq<Day>): Slots
  {
    map k | k in DateKeys(days) :: map[]
  }

  lemma BlankDaysSnoc(done: seq<Day>, d: Day)
    ensures BlankDays(done + [d]) == BlankDays(done)[FormatDate(d) := map[]]
  {
    assert DateKeys(done + [d]) == DateKeys(done) + {FormatDate(d)};
  }

  lemma UnionUpdate(a: Slots, b: Slots, k: string, v: map<string, bool>)
    ensures (a + b)[k := v] == a + b[k := v]
  {
  }

  lemma AllActiveSnoc(times: seq<string>, t: string)
    ensures AllActive(times + [t]) == AllActive(times)[t := true]
  {
  }

  /** The five days `generateWorkingDays` adds from the day of `now` are
      working days, consecutive among working days, with five distinct keys. */
  lemma {:induction false} GeneratedWindow(now: Instant)
    ensures |WorkingDaysFrom(DayOf(now), 5)| == 5
    ensures |DateKeys(WorkingDaysFrom(DayOf(now), 5))| == 5
    ensures forall i :: 0 <= i < 5 ==> IsWorkingDay(WorkingDaysFrom(DayOf(now), 5)[i])
    ensures forall x: Day :: DayOf(now) <= x <= WorkingDaysFrom(DayOf(now), 5)[4] && IsWorkingDay(x) ==>
              x in WorkingDaysFrom(DayOf(now), 5)
  {
    var w := WorkingDaysFrom(DayOf(now), 5);
    WorkingWindow(DayOf(now), 5);
    IncreasingKeys(w);
  }

  lemma {:induction false} IncreasingKeys(w: seq<Day>)
    requires forall i, j :: 0 <= i < j < |w| ==> w[i] < w[j]
    ensures |DateKeys(w)| == |w|
  {
    if w != [] {
      IncreasingKeys(w[1..]);
      assert DateKeys(w) == {FormatDate(w[0])} + DateKeys(w[1..]);
      if FormatDate(w[0]) in DateKeys(w[1..]) {
        var d :| d in w[1..] && FormatDate(d) == FormatDate(w[0]);
        FormatDateInjective(d, w[0]);
      }
    }
  }

  /** The time that `time` parses to, placed on 2000-01-01 as DateFormatter
      does for a text holding only "HH:mm", lies before `now`. */
  predicate ComparesAsPast(time: string, now: Instant)
  {
    match ParseTime(time)
    case Some(m) => At(ReferenceDay, m) < now
    case None => false
  }

  /** Today's slots after `deactivatePastTimeSlots`. */
  function PastDeactivated(day: map<string, bool>, now: Instant): (r: map<string, bool>)
    ensures r.Keys == day.Keys
    ensures forall t :: t in r && r[t] ==> day[t]
    ensures forall t :: t in r && !ComparesAsPast(t, now) ==> r[t] == day[t]
  {
    map t | t in day :: day[t] && !ComparesAsPast(t, now)
  }

  /** Because the time is compared as a time on 2000-01-01, once `now` is past
      that day every slot with a readable time is switched off, whatever the
      time of day. */
  lemma {:induction false} EveryReadableSlotDeactivated(day: map<string, bool>, now: Instant, t: string)
    requires now >= (ReferenceDay + 1) * SecondsPerDay
    requires t in day && ParseTime(t).Some?
    ensures !PastDeactivated(day, now)[t]
  {
    var m := ParseTime(t).value;
    assert At(ReferenceDay, m) < (ReferenceDay + 1) * SecondsPerDay;
  }

  /** The calendar after `updateSlotsForNextDay` moved `today`'s slots to `next`. */
  function Relocated(slots: Slots, today: string, next: string): (r: Slots)
    requires today in slots
    ensures r.Keys == slots.Keys - {today} + {next}
    ensures r[next] == slots[today]
    ensures forall k :: k in slots && k != today && k != next ==> r[k] == slots[k]
  {
    (slots - {today})[next := slots[today]]
  }

  /** `toggleSlot`: an inactive slot is refused (the day is always "today"),
      an active one takes the switch's value. */
  function Toggled(slots: Slots, date: string, time: string, isOn: bool): (r: Slots)
    requires date in slots && time in slots[date]
    ensures r.Keys == slots.Keys
    ensures forall k :: k in r ==> r[k].Keys == slots[k].Keys
    ensures forall k, u :: k in r && u in r[k] && r[k][u] ==> slots[k][u]
    ensures forall k, u :: k in r && u in r[k] && (k != date || u != time) ==> r[k][u] == slots[k][u]
    ensures slots[date][time] ==> r[date][time] == isOn
  {
    if !slots[date][time] then slots else slots[date := slots[date][time := isOn]]
  }

  /** Deleting a row: the time goes, and the date too once it has no time left. */
  function SlotRemoved(slots: Slots, date: string, time: string): (r: Slots)
    requires date in slots
    ensures date in r <==> slots[date].Keys - {time} != {}
    ensures date in r ==> r[date] == slots[date] - {time}
    ensures forall k :: k != date ==> (k in r <==> k in slots)
    ensures forall k :: k in r && k != date ==> r[k] == slots[k]
  {
    var day := slots[date] - {time};
    if day == map[] then slots - {date} else slots[date := day]
  }

  /** The calendar as the `timeSlots` value of a saved apartment record. */
  function SlotsValue(slots: Slots): Value
  {
    Obj(map k | k in slots :: Obj(map t | t in slots[k] :: Flag(slots[k][t])))
  }

  datatype AddOutcome = Added | LimitReached | AlreadyExists

  datatype SaveOutcome = NotLoggedIn | InvalidApartmentId | Saved(write: Write)

  class TimeSlotsController {
    var timeSlots: Slots
    var selectedSlots: seq<string>
    var apartmentId: Option<string>
    var price: Option<string>
    var phone: Option<string>
    var squareMeters: Option<string>
    var numberOfRooms: Option<string>
    var locationName: Option<string>
    var latitude: Option<string>
    var longitude: Option<string>

    /** The template holds at most `MaxSlots` distinct times. */
    ghost predicate Valid()
      reads this
    {
      |selectedSlots| <= MaxSlots && NoDuplicates(selectedSlots)
    }

    /** The apartment details come from the previous screen. */
    constructor (apartmentId: Option<string>, price: Option<string>, phone: Option<string>,
                 squareMeters: Option<string>, numberOfRooms: Option<string>,
                 locationName: Option<string>, latitude: Option<string>, longitude: Option<string>)
      ensures Valid() && timeSlots == map[] && selectedSlots == []
      ensures this.apartmentId == apartmentId && this.price == price && this.phone == phone
      ensures this.squareMeters == squareMeters && this.numberOfRooms == numberOfRooms
      ensures this.locationName == locationName && this.latitude == latitude && this.longitude == longitude
    {
      timeSlots := map[];
      selectedSlots := [];
      this.apartmentId := apartmentId;
      this.price := price;
      this.phone := phone;
      this.squareMeters := squareMeters;
      this.numberOfRooms := numberOfRooms;
      this.locationName := locationName;
      this.latitude := latitude;
      this.longitude := longitude;
    }

    /** `generateWorkingDays`: adds the next five working days from the day
        of `now`, each with no times. */
    method GenerateWorkingDays(now: Instant)
      modifies this`timeSlots
      ensures timeSlots == old(timeSlots) + BlankDays(WorkingDaysFrom(DayOf(now), 5))
    {
      var currentDate := DayOf(now);
      var workingDaysCount := 0;
      ghost var done: seq<Day> := [];
      assert done + WorkingDaysFrom(currentDate, 5) == WorkingDaysFrom(DayOf(now), 5);
      while workingDaysCount < 5
        invariant 0 <= workingDaysCount <= 5 && |done| == workingDaysCount
        invariant WorkingDaysFrom(DayOf(now), 5) == done + WorkingDaysFrom(currentDate, 5 - workingDaysCount)
        invariant timeSlots == old(timeSlots) + BlankDays(done)
        decreases 5 - workingDaysCount, DaysToWorkingDay(currentDate)
      {
        WindowStep(currentDate, 5 - workingDaysCount);
        var weekday := Weekday(currentDate);
        if weekday != 1 && weekday != 7 {
          var dateKey := FormatDate(currentDate);
          timeSlots := timeSlots[dateKey := map[]];
          BlankDaysSnoc(done, currentDate);
          UnionUpdate(old(timeSlots), BlankDays(done), dateKey, map[]);
          assert done + WorkingDaysFrom(currentDate, 5 - workingDaysCount)
              == (done + [currentDate]) + WorkingDaysFrom(currentDate + 1, 5 - workingDaysCount - 1);
          done := done + [currentDate];
          workingDaysCount := workingDaysCount + 1;
        } else {
          WeekendStep(currentDate);
        }
        currentDate := currentDate + 1;
      }
    }

    /** `addTimeSlotTapped` with the time picked on the wheel: refused once
        eight times are selected or when the time is already selected;
        otherwise appended and applied to every day. */
    method AddTimeSlot(picked: Minute) returns (outcome: AddOutcome)
      requires Valid()
      modifies this
      ensures Valid()
      ensures outcome == LimitReached <==> |old(selectedSlots)| >= MaxSlots
      ensures outcome == AlreadyExists <==> |old(selectedSlots)| < MaxSlots && FormatTime(picked) in old(selectedSlots)
      ensures outcome != Added ==> selectedSlots == old(selectedSlots) && timeSlots == old(timeSlots)
      ensures outcome == Added ==> selectedSlots == old(selectedSlots) + [FormatTime(picked)]
      ensures outcome == Added ==> timeSlots.Keys == old(timeSlots).Keys
      ensures outcome == Added ==> forall k :: k in timeSlots ==> timeSlots[k] == AllActive(selectedSlots)
      ensures unchanged(this`apartmentId, this`price, this`phone, this`squareMeters)
      ensures unchanged(this`numberOfRooms, this`locationName, this`latitude, this`longitude)
    {
      if |selectedSlots| >= MaxSlots {
        return LimitReached;
      }
      var selectedTime := FormatTime(picked);
      if selectedTime in selectedSlots {
        return AlreadyExists;
      }
      selectedSlots := selectedSlots + [selectedTime];
      ApplySlotsToAllDays();
      outcome := Added;
    }

    /** `applySlotsToAllDays`: every tracked day gets exactly the selected
        times, all active; no day is added or removed. */
    method ApplySlotsToAllDays()
      modifies this`timeSlots
      ensures timeSlots.Keys == old(timeSlots).Keys
      ensures forall k :: k in timeSlots ==> timeSlots[k] == AllActive(selectedSlots)
    {
      var remaining := timeSlots.Keys;
      while remaining != {}
        invariant remaining <= timeSlots.Keys == old(timeSlots).Keys
        invariant forall k :: k in timeSlots && k !in remaining ==> timeSlots[k] == AllActive(selectedSlots)
        decreases remaining
      {
        var dateKey :| dateKey in remaining;
        // `timeSlots[dateKey] = [:]`, then each selected time set to true
        var day: map<string, bool> := map[];
        ghost var calendar := timeSlots;
        for i := 0 to |selectedSlots|
          invariant day == AllActive(selectedSlots[..i])
          invariant timeSlots == calendar
        {
          AllActiveSnoc(selectedSlots[..i], selectedSlots[i]);
          assert selectedSlots[..i + 1] == selectedSlots[..i] + [selectedSlots[i]];
          day := day[selectedSlots[i] := true];
        }
        assert selectedSlots[..|selectedSlots|] == selectedSlots;
        timeSlots := timeSlots[dateKey := day];
        remaining := remaining - {dateKey};
      }
    }

    /** `updateSlots`: relocates today's slots when the current instant has
        reached the start of tomorrow, and otherwise deactivates today's
        past slots. */
    method UpdateSlots(now: Instant)
      modifies this`timeSlots
      ensures var today := FormatDate(DayOf(now));
        && (today !in old(timeSlots) ==> timeSlots == old(timeSlots))
        && (today in old(timeSlots) ==> timeSlots == old(timeSlots)[today := PastDeactivated(old(timeSlots)[today], now)])
    {
      var todayDateString := FormatDate(DayOf(now));
      var startOfTomorrow := StartOfTomorrow(now);
      if now >= startOfTomorrow {
        // `updateSlotsForNextDay(todayDateString:)` is called here in the
        // source; the current instant never lies at or after the start of
        // the next day, so this branch is dead.
        assert false;
      } else {
        DeactivatePastTimeSlots(todayDateString, now);
      }
    }

    /** `updateSlotsForNextDay`: moves today's slots to the next working day,
        replacing whatever that day held; nothing happens when today is not
        in the calendar. */
    method UpdateSlotsForNextDay(todayDateString: string)
      modifies this`timeSlots
      ensures todayDateString !in old(timeSlots) ==> timeSlots == old(timeSlots)
      ensures todayDateString in old(timeSlots) ==>
        timeSlots == Relocated(old(timeSlots), todayDateString, NextWorkingDayText(todayDateString))
    {
      if todayDateString !in timeSlots {
        return;
      }
      var today := todayDateString;
      var nextWorkingDay := GetNextWorkingDay(today);
      var todaySlots := timeSlots[today];
      timeSlots := timeSlots - {today};
      timeSlots := timeSlots[nextWorkingDay := todaySlots];
    }

    /** `deactivatePastTimeSlots`: only today's entry changes, and only by
        switching slots off; nothing happens when today is not in the calendar. */
    method DeactivatePastTimeSlots(todayDateString: string, now: Instant)
      modifies this`timeSlots
      ensures todayDateString !in old(timeSlots) ==> timeSlots == old(timeSlots)
      ensures todayDateString in old(timeSlots) ==>
        timeSlots == old(timeSlots)[todayDateString := PastDeactivated(old(timeSlots)[todayDateString], now)]
    {
      if todayDateString !in timeSlots {
        return;
      }
      var todaySlots := timeSlots[todayDateString];
      ghost var before := todaySlots;
      var remaining := todaySlots.Keys;
      while remaining != {}
        invariant remaining <= todaySlots.Keys == before.Keys
        invariant forall t :: t in todaySlots && t !in remaining ==> todaySlots[t] == PastDeactivated(before, now)[t]
        invariant forall t :: t in remaining ==> todaySlots[t] == before[t]
        decreases remaining
      {
        var time :| time in remaining;
        var slotTime := ParseTime(time);
        if slotTime.Some? && At(ReferenceDay, slotTime.value) < now {
          todaySlots := todaySlots[time := false];
        }
        remaining := remaining - {time};
      }
      assert todaySlots == PastDeactivated(before, now);
      timeSlots := timeSlots[todayDateString := todaySlots];
    }

    /** `getNextWorkingDay`: the key of the first working day strictly after
        the given date; a key that does not parse comes back unchanged. */
    method GetNextWorkingDay(date: string) returns (next: string)
      ensures next == NextWorkingDayText(date)
    {
      var currentDate := ParseDate(date);
      if currentDate.None? {
        return date;
      }
      var nextDate: Day := currentDate.value + 1;
      while Weekday(nextDate) == 1 || Weekday(nextDate) == 7
        invariant FirstWorkingDayFrom(nextDate) == FirstWorkingDayFrom(currentDate.value + 1)
        decreases DaysToWorkingDay(nextDate)
      {
        nextDate := nextDate + 1;
      }
      next := FormatDate(nextDate);
    }

    /** The date key of a table section: the sorted date keys, in order. */
    function SectionDate(section: nat): (date: string)
      reads this
      requires section < |timeSlots|
      ensures date in timeSlots
      ensures forall s: nat :: s < section ==> Below(SectionDate(s), date)
    {
      SortedKeys(timeSlots.Keys)[section]
    }

    /** The time key of a row: the day's sorted time keys, in order. */
    function RowTime(section: nat, row: nat): (time: string)
      reads this
      requires section < |timeSlots|
      requires row < |timeSlots[SectionDate(section)]|
      ensures time in timeSlots[SectionDate(section)]
    {
      SortedKeys(timeSlots[SectionDate(section)].Keys)[row]
    }

    /** `toggleSlot` for the switch at a row: refused for an inactive slot. */
    method ToggleSlot(section: nat, row: nat, isOn: bool) returns (refused: bool)
      requires section < |timeSlots|
      requires row < |timeSlots[SectionDate(section)]|
      modifies this`timeSlots
      ensures refused == !old(timeSlots)[old(SectionDate(section))][old(RowTime(section, row))]
      ensures timeSlots == Toggled(old(timeSlots), old(SectionDate(section)), old(RowTime(section, row)), isOn)
    {
      var dateKey := SortedKeys(timeSlots.Keys)[section];
      var timeKey := SortedKeys(timeSlots[dateKey].Keys)[row];
      // `Calendar.current.isDateInToday(Date())` asks about the current
      // instant, so it always holds.
      var isToday := true;
      if isToday && !timeSlots[dateKey][timeKey] {
        return true;
      }
      timeSlots := timeSlots[dateKey := timeSlots[dateKey][timeKey := isOn]];
      refused := false;
    }

    /** Deleting the row at a section and row of the table. */
    method DeleteRow(section: nat, row: nat)
      requires section < |timeSlots|
      requires row < |timeSlots[SectionDate(section)]|
      modifies this`timeSlots
      ensures timeSlots == SlotRemoved(old(timeSlots), old(SectionDate(section)), old(RowTime(section, row)))
    {
      var dateKey := SortedKeys(timeSlots.Keys)[section];
      var timeKey := SortedKeys(timeSlots[dateKey].Keys)[row];
      var day := timeSlots[dateKey] - {timeKey};
      if day == map[] {
        timeSlots := timeSlots - {dateKey};
      } else {
        timeSlots := timeSlots[dateKey := day];
      }
    }

    /** `saveApartmentData`: the apartment record with the calendar, written
        under `apartments/<id>`; missing details are saved as "N/A". */
    method SaveApartmentData(currentUser: Option<string>) returns (outcome: SaveOutcome)
      ensures currentUser.None? ==> outcome == NotLoggedIn
      ensures currentUser.Some? && apartmentId.None? ==> outcome == InvalidApartmentId
      ensures currentUser.Some? && apartmentId.Some? ==>
        outcome == Saved(Put(["apartments", apartmentId.value], Obj(ApartmentRecord(currentUser.value))))
    {
      if currentUser.None? {
        return NotLoggedIn;
      }
      if apartmentId.None? {
        return InvalidApartmentId;
      }
      outcome := Saved(Put(["apartments", apartmentId.value], Obj(ApartmentRecord(currentUser.value))));
    }

    /** The record `saveApartmentData` writes for a seller. */
    function ApartmentRecord(sellerId: string): (r: Record)
      reads this
      requires apartmentId.Some?
      ensures r.Keys == {"apartmentId", "sellerId", "price", "numberOfRooms", "phone", "squareMeters",
                         "locationName", "latitude", "longitude", "timeSlots"}
      ensures StringField(r, "apartmentId") == Some(apartmentId.value)
      ensures StringField(r, "sellerId") == Some(sellerId)
      ensures StringField(r, "price") == Some(OrNA(price))
      ensures StringField(r, "numberOfRooms") == Some(OrNA(numberOfRooms))
      ensures StringField(r, "phone") == Some(OrNA(phone))
      ensures StringField(r, "squareMeters") == Some(OrNA(squareMeters))
      ensures StringField(r, "locationName") == Some(OrNA(locationName))
      ensures StringField(r, "latitude") == Some(OrNA(latitude))
      ensures StringField(r, "longitude") == Some(OrNA(longitude))
      ensures r["timeSlots"] == SlotsValue(timeSlots)
    {
      map[
        "apartmentId" := Str(apartmentId.value),
        "sellerId" := Str(sellerId),
        "price" := Str(OrNA(price)),
        "numberOfRooms" := Str(OrNA(numberOfRooms)),
        "phone" := Str(OrNA(phone)),
        "squareMeters" := Str(OrNA(squareMeters)),
        "locationName" := Str(OrNA(locationName)),
        "latitude" := Str(OrNA(latitude)),
        "longitude" := Str(OrNA(longitude)),
        "timeSlots" := SlotsValue(timeSlots)
      ]
    }
  }

  /** `getNextWorkingDay` as a function of the date key. */
  function NextWorkingDayText(date: string): string
  {
    match ParseDate(date)
    case None => date
    case Some(d) => FormatDate(NextWorkingDay(d))
  }

  /** The next working day key names the first working day strictly after
      the given one; an unreadable key is returned unchanged. */
  lemma NextWorkingDayTextMeaning(date: string)
    ensures ParseDate(date).None? ==> NextWorkingDayText(date) == date
    ensures ParseDate(date).Some? ==>
      var d := ParseDate(date).value;
      && ParseDate(NextWorkingDayText(date)) == Some(NextWorkingDay(d))
      && d < NextWorkingDay(d) && IsWorkingDay(NextWorkingDay(d))
      && forall x: Day :: d < x < NextWorkingDay(d) ==> !IsWorkingDay(x)
  {
    if ParseDate(date).Some? {
      var d := ParseDate(date).value;
      FirstWorkingDay(d + 1);
      DateRoundTrip(NextWorkingDay(d));
    }
  }

  /** A detail as saved: its text, or "N/A" when it was never given. */
  function OrNA(v: Option<string>): string
  {
    if v.Some? then v.value else "N/A"
  }
}
