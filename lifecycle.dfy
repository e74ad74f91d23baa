/** How the screens meet through the records they share: a booking from its
    request through the seller's decision to the rating, and an apartment
    from the seller's save to the buyer's list. */
module Lifecycle {
  import opened Text
  import opened Clock
  import opened Records
  import opened TimeSlots
  import opened Apartments
  import opened ApartmentDetail
  import opened NotificationModels
  import opened Notifications
  import opened RateApartment
  import opened ApartmentsList
  import opened Stars

  /** A booking request reads back as a pending, unvisited, unrated booking
      of the requested slot, which no buyer can rate yet. */
  lemma RequestedBooking(bookingId: string, apartmentId: string, sellerId: string, buyerId: string,
                         date: string, time: string, user: string, now: Instant)
    ensures DecodeBooking(Obj(BookingRecord(bookingId, apartmentId, sellerId, buyerId, date, time))) ==
      Some(NewBooking(bookingId, apartmentId, sellerId, buyerId, SlotText(date, time), false, 0.0, 0.0, "pending"))
    ensures !IsEligible(NewBooking(bookingId, apartmentId, sellerId, buyerId, SlotText(date, time), false, 0.0, 0.0, "pending"), user, now)
  {
    var r := BookingRecord(bookingId, apartmentId, sellerId, buyerId, date, time);
    assert HasBookingFields(r);
  }

  /** The seller's decision is stored in "sellerDecision", but a feed row
      reads its status from "status": a reloaded row says "pending" whatever
      the seller decided, while the rating screen sees the decision. */
  lemma DecisionNotReloaded(bookingId: string, apartmentId: string, sellerId: string, buyerId: string,
                            date: string, time: string, decision: string, users: map<string, Value>)
    ensures var decided := Merged(BookingRecord(bookingId, apartmentId, sellerId, buyerId, date, time),
                                  DecisionWrite(bookingId, decision).fields);
      && RowFor(bookingId, decided, users).status == "pending"
      && DecodeBooking(Obj(decided)).Some?
      && DecodeBooking(Obj(decided)).value.sellerDecision == decision
  {
    var decided := Merged(BookingRecord(bookingId, apartmentId, sellerId, buyerId, date, time),
                          DecisionWrite(bookingId, decision).fields);
    assert "status" !in decided;
    assert HasBookingFields(decided);
  }

  /** The seller's decision, merged into a booking record the rating screen
      can read, changes the decoded booking in its decision alone. */
  lemma {:induction false} DecisionRecorded(r: Record, b: Booking, bookingId: string, status: string)
    requires DecodeBooking(Obj(r)) == Some(b)
    ensures DecodeBooking(Obj(Merged(r, DecisionWrite(bookingId, status).fields))) == Some(b.(sellerDecision := status))
  {
    var m := Merged(r, DecisionWrite(bookingId, status).fields);
    assert m == r["sellerDecision" := Str(status)];
    assert HasBookingFields(m);
  }

  /** An accepted booking of a calendar slot may be rated exactly by its
      buyer during the 24 hours after the slot. */
  lemma AcceptedSlotRatingWindow(bookingId: string, apartmentId: string, sellerId: string, buyerId: string,
                                 d: Day, m: Minute, user: string, now: Instant)
    ensures var accepted := Merged(BookingRecord(bookingId, apartmentId, sellerId, buyerId, FormatDate(d), FormatTime(m)),
                                   DecisionWrite(bookingId, "accepted").fields);
      && DecodeBooking(Obj(accepted)).Some?
      && (IsEligible(DecodeBooking(Obj(accepted)).value, user, now) <==>
            user == buyerId && now - SecondsPerDay < At(d, m) < now)
  {
    var accepted := Merged(BookingRecord(bookingId, apartmentId, sellerId, buyerId, FormatDate(d), FormatTime(m)),
                           DecisionWrite(bookingId, "accepted").fields);
    assert HasBookingFields(accepted);
    ParseSlotText(FormatDate(d), FormatTime(m));
    DateRoundTrip(d);
    TimeRoundTrip(m);
  }

  /** A slot that reads is expired for the seller exactly when it is no
      longer open to buyers. */
  lemma ExpiredIffClosed(date: string, time: string, now: Instant)
    requires ParseSlot(SlotText(date, time)).Some?
    ensures IsTimeSlotExpired(SlotText(date, time), now) <==> !IsFuture(date, time, now)
  {
  }

  /** A freshly requested booking carries the rating 0, which the list's
      average counts: an apartment whose one booking is unrated is shown
      with rating 0 rather than none. */
  lemma UnratedBookingCounts(bookingId: string, apartmentId: string, sellerId: string, buyerId: string,
                             date: string, time: string)
    ensures AverageRating([Obj(BookingRecord(bookingId, apartmentId, sellerId, buyerId, date, time))]) == Some(0.0)
  {
    var r := BookingRecord(bookingId, apartmentId, sellerId, buyerId, date, time);
    assert NumberField(r, "ratingApartment") == Some(0.0);
    var b := [Obj(r)];
    assert b[..0] == [];
    assert Ratings(b) == Ratings([]) + [0.0];
    assert Sum([0.0]) == Sum([]) + 0.0;
  }

  /** An apartment saved by the seller is listed for buyers with the saved
      details ("N/A" for a missing one), its calendar unchanged and no
      rating. The database keeps no empty object, so this holds for a
      calendar with at least one day and at least one time on every day. */
  lemma SavedApartmentListed(c: TimeSlotsController, sellerId: string)
    requires c.apartmentId.Some?
    requires c.timeSlots != map[] && forall k :: k in c.timeSlots ==> c.timeSlots[k] != map[]
    ensures ApartmentFields(c.apartmentId.value, c.ApartmentRecord(sellerId)) ==
      Some(ApartmentData(c.apartmentId.value, sellerId, OrNA(c.locationName), OrNA(c.price),
                         OrNA(c.squareMeters), OrNA(c.numberOfRooms), c.timeSlots, None))
  {
    SlotsRoundTrip(c.timeSlots);
  }

  /** A submitted rating of 1 to 5 stars is drawn with that many filled stars. */
  lemma SubmittedRatingStars(k: int)
    requires 1 <= k <= 5
    ensures Filled(StarRow(Truncate(k as real))) == k
  {
    TruncateWhole(k);
    FilledCount(k);
  }
}
