/** ApartmentDetailViewController.swift: the buyer's view of one apartment
    of a list, the times still open for booking, and the booking request. */
module ApartmentDetail {
  import opened Text
  import opened Clock
  import opened Records
  import opened TimeSlots
  import opened Apartments

  /** The slot "<date> <time>" reads as an instant at or after `now`. */
  predicate IsFuture(date: string, time: string, now: Instant)
  {
    match ParseSlot(SlotText(date, time))
    case Some(x) => x >= now
    case None => false
  }

  /** A slot is open exactly when its date and time both read and the
      instant they name has not passed. */
  lemma IsFutureMeaning(date: string, time: string, now: Instant)
    ensures IsFuture(date, time, now) <==>
      ParseDate(date).Some? && ParseTime(time).Some? && At(ParseDate(date).value, ParseTime(time).value) >= now
  {
    ParseSlotText(date, time);
  }

  /** A slot the seller's calendar produced (a date key and a time key) is
      open exactly when it has not passed. */
  lemma CalendarSlotIsFuture(d: Day, m: Minute, now: Instant)
    ensures IsFuture(FormatDate(d), FormatTime(m), now) <==> At(d, m) >= now
  {
    IsFutureMeaning(FormatDate(d), FormatTime(m), now);
    DateRoundTrip(d);
    TimeRoundTrip(m);
  }

  /** The times of one day the buyer may book: active and not yet past. */
  function Bookable(date: string, day: map<string, bool>, now: Instant): set<string>
  {
    set t | t in day && day[t] && IsFuture(date, t, now)
  }

  /** The rows of a section: the bookable times in ascending order. */
  function Rows(date: string, day: map<string, bool>, now: Instant): (r: seq<string>)
    ensures |r| == |Bookable(date, day, now)|
    ensures Ascending(r)
    ensures forall t :: t in r <==> t in day && day[t] && IsFuture(date, t, now)
  {
    SortedKeys(Bookable(date, day, now))
  }

  /** Time only closes slots: at a later instant a day has no open time it
      did not have before, so its rows can only become fewer. */
  lemma RowsOnlyClose(date: string, day: map<string, bool>, shownAt: Instant, now: Instant)
    requires shownAt <= now
    ensures Bookable(date, day, now) <= Bookable(date, day, shownAt)
    ensures |Rows(date, day, now)| <= |Rows(date, day, shownAt)|
  {
    var later := Bookable(date, day, now);
    var earlier := Bookable(date, day, shownAt);
    forall t | t in later
      ensures t in earlier
    {
      var x := ParseSlot(SlotText(date, t)).value;
      assert x >= now >= shownAt;
    }
    assert earlier == later + (earlier - later);
    assert |earlier| == |later| + |earlier - later|;
  }

  /** The rows of a day shrink while the table is on screen: a day with the
      one time 09:00 has a row at 09:00 sharp and none a second later, so a
      row laid out at 09:00 is out of range when it is drawn or tapped after. */
  lemma LastRowVanishes()
    ensures var date := FormatDate(20000); var day := map[FormatTime(540) := true];
      |Rows(date, day, At(20000, 540))| == 1 && Rows(date, day, At(20000, 540) + 1) == []
  {
    var date := FormatDate(20000);
    var time := FormatTime(540);
    var day := map[time := true];
    CalendarSlotIsFuture(20000, 540, At(20000, 540));
    CalendarSlotIsFuture(20000, 540, At(20000, 540) + 1);
    assert Bookable(date, day, At(20000, 540)) == {time};
    assert Bookable(date, day, At(20000, 540) + 1) == {};
  }

  /** A day with the times 09:00 and 10:00 has both open at 09:00 sharp. */
  lemma BothOpenAtNine(date: string, day: map<string, bool>)
    requires date == FormatDate(20000) && day == map[FormatTime(540) := true, FormatTime(600) := true]
    ensures Bookable(date, day, At(20000, 540)) == {FormatTime(540), FormatTime(600)}
  {
    var now := At(20000, 540);
    var nine, ten := FormatTime(540), FormatTime(600);
    CalendarSlotIsFuture(20000, 540, now);
    CalendarSlotIsFuture(20000, 600, now);
    assert IsFuture(date, nine, now) && IsFuture(date, ten, now);
    assert day.Keys == {nine, ten} && day[nine] && day[ten];
    assert Bookable(date, day, now) == day.Keys;
  }

  /** A second after 09:00 only its 10:00 is open. */
  lemma OnlyTenOpenAfterNine(date: string, day: map<string, bool>)
    requires date == FormatDate(20000) && day == map[FormatTime(540) := true, FormatTime(600) := true]
    ensures Bookable(date, day, At(20000, 540) + 1) == {FormatTime(600)}
  {
    var now := At(20000, 540) + 1;
    CalendarSlotIsFuture(20000, 540, now);
    CalendarSlotIsFuture(20000, 600, now);
    assert !IsFuture(date, FormatTime(540), now);
    forall t | t in Bookable(date, day, now)
      ensures t == FormatTime(600)
    {
      assert t in day;
    }
    assert FormatTime(600) in Bookable(date, day, now);
  }

  /** "09:00" sorts before "10:00". */
  lemma NineBeforeTen()
    ensures Below(FormatTime(540), FormatTime(600))
  {
    assert FormatTime(540) == [DigitChar(0), DigitChar(9), ':', DigitChar(0), DigitChar(0)];
    assert Below("09:00", "10:00");
  }

  /** A shrinking day shifts the rows under a tapped row: with 09:00 and
      10:00 the first row shows 09:00 at 09:00 sharp, and a second later the
      same row holds 10:00, which a tap then selects. */
  lemma FirstRowShifts()
    ensures var date := FormatDate(20000); var day := map[FormatTime(540) := true, FormatTime(600) := true];
      Rows(date, day, At(20000, 540)) == [FormatTime(540), FormatTime(600)]
      && Rows(date, day, At(20000, 540) + 1) == [FormatTime(600)]
  {
    var date := FormatDate(20000);
    var day := map[FormatTime(540) := true, FormatTime(600) := true];
    BothOpenAtNine(date, day);
    OnlyTenOpenAfterNine(date, day);
    NineBeforeTen();
    SortedPair(FormatTime(540), FormatTime(600));
    SortedSingle(FormatTime(600));
  }

  /** The body of the booking record written under `bookings/<id>`. */
  function BookingRecord(bookingId: string, apartmentId: string, sellerId: string, buyerId: string,
                         date: string, time: string): (r: Record)
    ensures StringField(r, "bookingId") == Some(bookingId) && StringField(r, "buyerId") == Some(buyerId)
    ensures StringField(r, "apartmentId") == Some(apartmentId) && StringField(r, "sellerId") == Some(sellerId)
    ensures StringField(r, "timeSlot") == Some(SlotText(date, time))
    ensures StringField(r, "sellerDecision") == Some("pending") && BoolField(r, "visited") == Some(false)
    ensures NumberField(r, "ratingSeller") == Some(0.0) && NumberField(r, "ratingApartment") == Some(0.0)
    ensures "status" !in r && |r| == 9
  {
    map[
      "bookingId" := Str(bookingId),
      "apartmentId" := Str(apartmentId),
      "sellerId" := Str(sellerId),
      "buyerId" := Str(buyerId),
      "timeSlot" := Str(SlotText(date, time)),
      "visited" := Flag(false),
      "ratingSeller" := Num(0.0),
      "ratingApartment" := Num(0.0),
      "sellerDecision" := Str("pending")
    ]
  }

  /** The notice `notifySeller` appends under `notifications/<sellerId>`. */
  function SellerNotice(bookingId: string): (r: Record)
    ensures StringField(r, "bookingId") == Some(bookingId)
    ensures StringField(r, "title") == Some("New Booking Request")
    ensures r.Keys == {"title", "message", "bookingId"}
  {
    map[
      "title" := Str("New Booking Request"),
      "message" := Str("You have a new booking request. ID: " + bookingId),
      "bookingId" := Str(bookingId)
    ]
  }

  datatype BookOutcome = NoSlotSelected | BuyerNotLoggedIn | Requested | WriteFailed

  class ApartmentDetailView {
    var apartments: seq<Apartment>
    var currentIndex: int
    var selectedTimeSlot: Option<(string, string)>
    /** The index whose details `setupUI` last put on screen. */
    var shown: Option<nat>

    /** The index points into the list, unless the list is empty. */
    predicate Valid()
      reads this
    {
      apartments == [] || 0 <= currentIndex < |apartments|
    }

    /** The segue hands over the list and the selected index. */
    constructor (apartments: seq<Apartment>, currentIndex: int)
      ensures this.apartments == apartments && this.currentIndex == currentIndex
      ensures selectedTimeSlot == None && shown == None
    {
      this.apartments := apartments;
      this.currentIndex := currentIndex;
      selectedTimeSlot := None;
      shown := None;
    }

    /** The calendar of the apartment on screen. */
    function Calendar(): Slots
      reads this, apartments
      requires 0 <= currentIndex < |apartments|
    {
      apartments[currentIndex].timeSlots
    }

    /** `numberOfSections`: one section per date key. */
    function SectionCount(): (n: nat)
      reads this, apartments
      requires 0 <= currentIndex < |apartments|
      ensures n == |SortedKeys(Calendar().Keys)|
    {
      |Calendar().Keys|
    }

    /** `titleForHeaderInSection`: a date key of the calendar. */
    function SectionTitle(section: nat): (date: string)
      reads this, apartments
      requires 0 <= currentIndex < |apartments|
      requires section < SectionCount()
      ensures date in Calendar()
    {
      SortedKeys(Calendar().Keys)[section]
    }

    /** The section headers are the date keys in strictly ascending order,
        each date key heading exactly one section. */
    lemma Headers()
      requires 0 <= currentIndex < |apartments|
      ensures forall s: nat, t: nat :: s < t < SectionCount() ==> Below(SectionTitle(s), SectionTitle(t))
      ensures forall date :: date in Calendar() ==> exists s: nat :: s < SectionCount() && SectionTitle(s) == date
    {
      var keys := SortedKeys(Calendar().Keys);
      forall date | date in Calendar()
        ensures exists s: nat :: s < SectionCount() && SectionTitle(s) == date
      {
        var s :| 0 <= s < |keys| && keys[s] == date;
        assert SectionTitle(s) == date;
      }
    }

    /** `numberOfRowsInSection`: the day's times that are active and open. */
    function RowCount(section: nat, now: Instant): (n: nat)
      reads this, apartments
      requires 0 <= currentIndex < |apartments|
      requires section < SectionCount()
      ensures n == |Rows(SectionTitle(section), Calendar()[SectionTitle(section)], now)|
    {
      var date := SectionTitle(section);
      |Bookable(date, Calendar()[date], now)|
    }

    /** `cellForRowAt` for a row laid out at instant `shownAt` and drawn at
        `now`. The callback filters the day again with the current instant,
        so the row may have dropped out of range by then: the source traps on
        `validTimeSlotKeys[indexPath.row]`, which is `None` here. A row in
        range shows an active time of its day that has not passed. */
    function RowTitle(section: nat, row: nat, shownAt: Instant, now: Instant): (time: Option<string>)
      reads this, apartments
      requires 0 <= currentIndex < |apartments|
      requires section < SectionCount()
      requires row < RowCount(section, shownAt)
      ensures time.Some? <==> row < RowCount(section, now)
      ensures time.Some? ==> var day := Calendar()[SectionTitle(section)];
        time.value in day && day[time.value] && IsFuture(SectionTitle(section), time.value, now)
    {
      var date := SectionTitle(section);
      var rows := Rows(date, Calendar()[date], now);
      if row < |rows| then Some(rows[row]) else None
    }

    /** The rows of a section list its open times in strictly ascending
        order, and every open time of the day has a row. */
    lemma RowsOfSection(section: nat, now: Instant)
      requires 0 <= currentIndex < |apartments|
      requires section < SectionCount()
      ensures forall r: nat, q: nat :: r < q < RowCount(section, now) ==>
        Below(RowTitle(section, r, now, now).value, RowTitle(section, q, now, now).value)
      ensures var date := SectionTitle(section);
        forall time :: time in Calendar()[date] && Calendar()[date][time] && IsFuture(date, time, now) ==>
          exists r: nat :: r < RowCount(section, now) && RowTitle(section, r, now, now) == Some(time)
    {
      var date := SectionTitle(section);
      var rows := Rows(date, Calendar()[date], now);
      forall time | time in Calendar()[date] && Calendar()[date][time] && IsFuture(date, time, now)
        ensures exists r: nat :: r < RowCount(section, now) && RowTitle(section, r, now, now) == Some(time)
      {
        var r :| 0 <= r < |rows| && rows[r] == time;
        assert RowTitle(section, r, now, now) == Some(time);
      }
    }

    /** `didSelectRowAt` for a row laid out at `shownAt` and tapped at `now`.
        The day is filtered again at `now`: a row still in range selects its
        date and the time now at that row; a row out of range traps in the
        source, and nothing is selected. */
    method SelectRow(section: nat, row: nat, shownAt: Instant, now: Instant) returns (inRange: bool)
      requires 0 <= currentIndex < |apartments|
      requires section < SectionCount()
      requires row < RowCount(section, shownAt)
      modifies this`selectedTimeSlot
      ensures inRange <==> row < RowCount(section, now)
      ensures inRange ==> selectedTimeSlot == Some((SectionTitle(section), RowTitle(section, row, shownAt, now).value))
      ensures !inRange ==> selectedTimeSlot == old(selectedTimeSlot)
    {
      var dateKey := SortedKeys(apartments[currentIndex].timeSlots.Keys)[section];
      var validTimeSlotKeys := Rows(dateKey, apartments[currentIndex].timeSlots[dateKey], now);
      if row >= |validTimeSlotKeys| {
        return false;
      }
      selectedTimeSlot := Some((dateKey, validTimeSlotKeys[row]));
      return true;
    }

    /** `setupUI(for:)`: shows the apartment at `index`; an index outside the
        list changes nothing. */
    method SetupUI(index: int)
      modifies this`shown
      ensures 0 <= index < |apartments| ==> shown == Some(index)
      ensures !(0 <= index < |apartments|) ==> shown == old(shown)
    {
      if !(0 <= index < |apartments|) {
        return;
      }
      shown := Some(index);
    }

    /** `viewDidLoad`: an empty list shows nothing, otherwise the current
        apartment is shown. */
    method ViewDidLoad()
      modifies this`shown
      ensures apartments == [] ==> shown == old(shown)
      ensures apartments != [] && 0 <= currentIndex < |apartments| ==> shown == Some(currentIndex)
      ensures apartments != [] && !(0 <= currentIndex < |apartments|) ==> shown == old(shown)
    {
      if apartments == [] {
        return;
      }
      SetupUI(currentIndex);
    }

    /** `swipeLeft`: moves to the next apartment unless on the last one. */
    method SwipeLeft()
      modifies this`currentIndex, this`shown
      ensures currentIndex == if old(currentIndex) < |apartments| - 1 then old(currentIndex) + 1 else old(currentIndex)
      ensures old(Valid()) ==> Valid()
      ensures Valid() && apartments != [] && currentIndex != old(currentIndex) ==> shown == Some(currentIndex)
      ensures currentIndex == old(currentIndex) ==> shown == old(shown)
    {
      if currentIndex < |apartments| - 1 {
        currentIndex := currentIndex + 1;
        SetupUI(currentIndex);
      }
    }

    /** `swipeRight`: moves to the previous apartment unless on the first one. */
    method SwipeRight()
      modifies this`currentIndex, this`shown
      ensures currentIndex == if old(currentIndex) > 0 then old(currentIndex) - 1 else old(currentIndex)
      ensures old(Valid()) ==> Valid()
      ensures Valid() && apartments != [] && currentIndex != old(currentIndex) ==> shown == Some(currentIndex)
      ensures currentIndex == old(currentIndex) ==> shown == old(shown)
    {
      if currentIndex > 0 {
        currentIndex := currentIndex - 1;
        SetupUI(currentIndex);
      }
    }

    /** `bookButtonTapped` with the signed-in buyer, the generated booking id
        and whether the database accepted the booking: refused with no write
        without a selected slot or a buyer; otherwise the booking is written,
        and once it is stored the seller is notified. */
    method BookButtonTapped(buyer: Option<string>, bookingId: string, stored: bool)
      returns (outcome: BookOutcome, writes: seq<Write>)
      requires selectedTimeSlot.Some? && buyer.Some? ==> 0 <= currentIndex < |apartments|
      ensures selectedTimeSlot.None? ==> outcome == NoSlotSelected && writes == []
      ensures selectedTimeSlot.Some? && buyer.None? ==> outcome == BuyerNotLoggedIn && writes == []
      ensures selectedTimeSlot.Some? && buyer.Some? ==>
        var apartment := apartments[currentIndex];
        var (date, time) := selectedTimeSlot.value;
        && |writes| >= 1
        && writes[0] == Put(["bookings", bookingId],
                            Obj(BookingRecord(bookingId, apartment.apartmentId, apartment.sellerId,
                                              buyer.value, date, time)))
        && (stored ==> outcome == Requested && writes == [writes[0],
              Append(["notifications", apartment.sellerId], Obj(SellerNotice(bookingId)))])
        && (!stored ==> outcome == WriteFailed && |writes| == 1)
    {
      if selectedTimeSlot.None? {
        return NoSlotSelected, [];
      }
      var (date, time) := selectedTimeSlot.value;
      if buyer.None? {
        return BuyerNotLoggedIn, [];
      }
      var buyerId := buyer.value;
      var apartment := apartments[currentIndex];
      var bookingData := BookingRecord(bookingId, apartment.apartmentId, apartment.sellerId, buyerId, date, time);
      writes := [Put(["bookings", bookingId], Obj(bookingData))];
      if stored {
        writes := writes + [Append(["notifications", apartment.sellerId], Obj(SellerNotice(bookingId)))];
        outcome := Requested;
      } else {
        outcome := WriteFailed;
      }
    }
  }
}
