/** RateApartmentViewController.swift: the buyer's list of visits that may
    be rated, the rating choices, and the rating write. */
module RateApartment {
  import opened Text
  import opened Clock
  import opened Records

  /** The nine typed fields `fetchEligibleBookings` requires of a record. */
  predicate HasBookingFields(r: Record)
  {
    && StringField(r, "bookingId").Some?
    && StringField(r, "apartmentId").Some?
    && StringField(r, "sellerId").Some?
    && StringField(r, "buyerId").Some?
    && BoolField(r, "visited").Some?
    && NumberField(r, "ratingSeller").Some?
    && NumberField(r, "ratingApartment").Some?
    && StringField(r, "sellerDecision").Some?
    && StringField(r, "timeSlot").Some?
  }

  /** A booking as a record; a booking without a time slot has no
      "timeSlot" key. */
  function EncodeBooking(b: Booking): Record
  {
    var fields := map[
      "bookingId" := Str(b.bookingId),
      "apartmentId" := Str(b.apartmentId),
      "sellerId" := Str(b.sellerId),
      "buyerId" := Str(b.buyerId),
      "visited" := Flag(b.visited),
      "ratingSeller" := Num(b.ratingSeller),
      "ratingApartment" := Num(b.ratingApartment),
      "sellerDecision" := Str(b.sellerDecision)
    ];
    if b.timeSlot.Some? then fields["timeSlot" := Str(b.timeSlot.value)] else fields
  }

  /** The guard of `fetchEligibleBookings`: a child that is not an object,
      or lacks one of the nine fields, or holds one with the wrong type, is
      skipped; otherwise every field of the booking is read from the record. */
  function DecodeBooking(v: Value): (b: Option<Booking>)
    ensures b.Some? <==> v.Obj? && HasBookingFields(v.fields)
    ensures b.Some? ==> b.value.timeSlot.Some?
  {
    if v.Obj? && HasBookingFields(v.fields) then
      var r := v.fields;
      Some(NewBooking(
        StringField(r, "bookingId").value,
        StringField(r, "apartmentId").value,
        StringField(r, "sellerId").value,
        StringField(r, "buyerId").value,
        StringField(r, "timeSlot").value,
        BoolField(r, "visited").value,
        NumberField(r, "ratingSeller").value,
        NumberField(r, "ratingApartment").value,
        StringField(r, "sellerDecision").value))
    else
      None
  }

  /** Every field of a decoded booking is the record's value for its key. */
  lemma DecodedFields(v: Value)
    requires DecodeBooking(v).Some?
    ensures forall k :: k in EncodeBooking(DecodeBooking(v).value) ==>
      k in v.fields && v.fields[k] == EncodeBooking(DecodeBooking(v).value)[k]
  {
  }

  /** A booking with a time slot reads back from its record unchanged. */
  lemma {:induction false} DecodeEncodeBooking(b: Booking)
    ensures DecodeBooking(Obj(EncodeBooking(b))) == if b.timeSlot.Some? then Some(b) else None
  {
    var r := EncodeBooking(b);
    if b.timeSlot.None? {
      assert "timeSlot" !in r;
    }
  }

  /** The buyer may rate a booking that is theirs, was accepted, and whose
      slot reads as an instant within the 24 hours before `now`. Whether the
      visit took place and any earlier rating play no part. */
  predicate IsEligible(b: Booking, user: string, now: Instant)
    ensures IsEligible(b, user, now) ==> b.buyerId == user && b.sellerDecision == "accepted"
    ensures IsEligible(b, user, now) ==>
      b.timeSlot.Some? && ParseSlot(b.timeSlot.value).Some? &&
      0 < now - ParseSlot(b.timeSlot.value).value < SecondsPerDay
  {
    && b.buyerId == user
    && b.timeSlot.Some?
    && b.sellerDecision == "accepted"
    && match ParseSlot(b.timeSlot.value)
       case None => false
       case Some(x) => x < now && x > now - SecondsPerDay
  }

  /** Eligibility does not look at `visited` or at the stored ratings, so a
      rated booking can be rated again. */
  lemma EligibilityIgnoresVisitAndRatings(b: Booking, user: string, now: Instant,
                                          visited: bool, ratingSeller: real, ratingApartment: real)
    ensures IsEligible(b.(visited := visited, ratingSeller := ratingSeller, ratingApartment := ratingApartment), user, now)
        <==> IsEligible(b, user, now)
  {
  }

  /** The bookings the rating screen lists for a snapshot's children, in
      order. */
  function EligibleBookings(children: seq<Value>, user: string, now: Instant): (r: seq<Booking>)
    ensures |r| <= |children|
    ensures forall i :: 0 <= i < |r| ==> IsEligible(r[i], user, now) && r[i].timeSlot.Some?
    decreases |children|
  {
    if children == [] then []
    else
      var rest := EligibleBookings(children[..|children| - 1], user, now);
      match DecodeBooking(children[|children| - 1])
      case Some(b) => if IsEligible(b, user, now) then rest + [b] else rest
      case None => rest
  }

  /** Some child decodes to `b`. */
  predicate DecodedFrom(children: seq<Value>, b: Booking)
  {
    exists i :: 0 <= i < |children| && DecodeBooking(children[i]) == Some(b)
  }

  lemma DecodedFromSnoc(children: seq<Value>, b: Booking)
    requires children != []
    ensures DecodedFrom(children, b) <==>
      DecodedFrom(children[..|children| - 1], b) || DecodeBooking(children[|children| - 1]) == Some(b)
  {
    var init := children[..|children| - 1];
    if DecodedFrom(children, b) {
      var i :| 0 <= i < |children| && DecodeBooking(children[i]) == Some(b);
      if i < |init| {
        assert DecodeBooking(init[i]) == Some(b);
      }
    }
    if DecodedFrom(init, b) {
      var i :| 0 <= i < |init| && DecodeBooking(init[i]) == Some(b);
      assert DecodeBooking(children[i]) == Some(b);
    }
  }

  /** The list holds exactly the eligible bookings decoded from the
      children, and no more of them than there are children. */
  lemma {:induction false} EligibleBookingsExactly(children: seq<Value>, user: string, now: Instant)
    ensures |EligibleBookings(children, user, now)| <= |children|
    ensures forall b :: b in EligibleBookings(children, user, now) <==> IsEligible(b, user, now) && DecodedFrom(children, b)
    decreases |children|
  {
    if children != [] {
      EligibleBookingsExactly(children[..|children| - 1], user, now);
      forall b
        ensures DecodedFrom(children, b) <==>
          DecodedFrom(children[..|children| - 1], b) || DecodeBooking(children[|children| - 1]) == Some(b)
      {
        DecodedFromSnoc(children, b);
      }
    }
  }

  /** The loop of `fetchEligibleBookings`: the eligible bookings of the
      children, in order. */
  method CollectEligible(children: seq<Value>, user: string, now: Instant) returns (fetched: seq<Booking>)
    ensures fetched == EligibleBookings(children, user, now)
  {
    fetched := [];
    for i := 0 to |children|
      invariant fetched == EligibleBookings(children[..i], user, now)
    {
      assert children[..i + 1][..i] == children[..i];
      var booking := DecodeBooking(children[i]);
      if booking.Some? && IsEligible(booking.value, user, now) {
        fetched := fetched + [booking.value];
      }
    }
    assert children[..|children|] == children;
  }

  /** `Int(booking.ratingApartment)`: the rating cut toward zero. */
  function Truncate(x: real): (n: int)
    ensures x >= 0.0 ==> n as real <= x < n as real + 1.0
    ensures x < 0.0 ==> n as real - 1.0 < x <= n as real
  {
    if x >= 0.0 then x.Floor else -((-x).Floor)
  }

  /** A whole rating is shown as itself. */
  lemma TruncateWhole(k: int)
    ensures Truncate(k as real) == k
  {
  }

  /** `submitRating`: a single write of the chosen booking's
      `ratingApartment` field. */
  function RatingWrite(b: Booking, rating: int): (w: Write)
    ensures w.Put? && w.path == ["bookings", b.bookingId, "ratingApartment"]
    ensures w.value.Num? && Truncate(w.value.x) == rating
  {
    Put(["bookings", b.bookingId, "ratingApartment"], Num(rating as real))
  }

  /** Storing a rating in a booking record changes the decoded booking in
      its apartment rating alone, and keeps an eligible booking eligible. */
  lemma {:induction false} RatingChangesOnlyRating(r: Record, b: Booking, rating: int, user: string, now: Instant)
    requires DecodeBooking(Obj(r)) == Some(b)
    ensures DecodeBooking(Obj(r["ratingApartment" := Num(rating as real)])) == Some(b.(ratingApartment := rating as real))
    ensures IsEligible(b, user, now) ==> IsEligible(b.(ratingApartment := rating as real), user, now)
  {
    var r2 := r["ratingApartment" := Num(rating as real)];
    assert HasBookingFields(r2);
  }

  class RateApartmentView {
    var eligibleBookings: seq<Booking>

    constructor ()
      ensures eligibleBookings == []
    {
      eligibleBookings := [];
    }

    /** `fetchEligibleBookings` with the signed-in user and the children of
        the `bookings` snapshot: without a user nothing is fetched;
        otherwise the list becomes the eligible bookings of the snapshot. */
    method FetchEligibleBookings(currentUser: Option<string>, now: Instant, children: seq<Value>)
      modifies this`eligibleBookings
      ensures currentUser.None? ==> eligibleBookings == old(eligibleBookings)
      ensures currentUser.Some? ==> eligibleBookings == EligibleBookings(children, currentUser.value, now)
    {
      if currentUser.None? {
        return;
      }
      var fetchedBookings := CollectEligible(children, currentUser.value, now);
      eligibleBookings := fetchedBookings;
    }

    /** The number of stars shown for the row of a booking. */
    function StarsFor(row: nat): (n: int)
      reads this
      requires row < |eligibleBookings|
    {
      Truncate(eligibleBookings[row].ratingApartment)
    }
  }

  /** `showRatingUI`: the ratings offered, one action each. */
  method RatingOptions() returns (options: seq<int>)
    ensures |options| == 5
    ensures forall k :: k in options <==> 1 <= k <= 5
    ensures forall i :: 0 <= i < |options| ==> options[i] == i + 1
  {
    options := [];
    for i := 1 to 6
      invariant |options| == i - 1
      invariant forall j :: 0 <= j < |options| ==> options[j] == j + 1
    {
      options := options + [i];
    }
    forall k | 1 <= k <= 5
      ensures k in options
    {
      assert options[k - 1] == k;
    }
  }
}
