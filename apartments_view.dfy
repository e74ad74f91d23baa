/** ApartmentsViewController.swift: the buyer's list of apartments read from
    the database, each with the mean of its bookings' apartment ratings,
    and the search by location. */
module ApartmentsList {
  import opened Text
  import opened Records
  import opened TimeSlots
  import opened Apartments
  import opened ApartmentDetail

  /** `as? [String: [String: Bool]]` on the `timeSlots` value of a record. */
  function SlotsOf(v: Value): Option<Slots>
  {
    if v.Obj? && forall k :: k in v.fields ==> IsDay(v.fields[k]) then
      Some(map k | k in v.fields :: DayOf(v.fields[k]))
    else
      None
  }

  /** A day of a calendar: an object whose every value is a boolean. */
  predicate IsDay(v: Value)
  {
    v.Obj? && forall t :: t in v.fields ==> v.fields[t].Flag?
  }

  function DayOf(v: Value): map<string, bool>
    requires IsDay(v)
  {
    map t | t in v.fields :: v.fields[t].b
  }

  /** A calendar as the seller saves it reads back as the same calendar. */
  lemma {:induction false} SlotsRoundTrip(slots: Slots)
    ensures SlotsOf(SlotsValue(slots)) == Some(slots)
  {
    var v := SlotsValue(slots);
    forall k | k in v.fields
      ensures IsDay(v.fields[k]) && DayOf(v.fields[k]) == slots[k]
    {
      assert v.fields[k] == Obj(map t | t in slots[k] :: Flag(slots[k][t]));
    }
    assert (map k | k in v.fields :: DayOf(v.fields[k])) == slots;
  }

  /** The guard of `fetchApartments`: the five texts and the calendar must be
      present with the right types; the apartment takes the child's key as
      its id and has no rating yet. */
  function ApartmentFields(apartmentId: string, r: Record): (a: Option<ApartmentData>)
    ensures a.Some? <==>
      && StringField(r, "locationName").Some?
      && StringField(r, "price").Some?
      && StringField(r, "squareMeters").Some?
      && StringField(r, "numberOfRooms").Some?
      && StringField(r, "sellerId").Some?
      && "timeSlots" in r && SlotsOf(r["timeSlots"]).Some?
    ensures a.Some? ==>
      && a.value.apartmentId == apartmentId
      && StringField(r, "locationName") == Some(a.value.locationName)
      && StringField(r, "price") == Some(a.value.price)
      && StringField(r, "squareMeters") == Some(a.value.squareMeters)
      && StringField(r, "numberOfRooms") == Some(a.value.numberOfRooms)
      && StringField(r, "sellerId") == Some(a.value.sellerId)
      && SlotsOf(r["timeSlots"]) == Some(a.value.timeSlots)
      && a.value.averageRating.None?
  {
    var locationName := StringField(r, "locationName");
    var price := StringField(r, "price");
    var squareMeters := StringField(r, "squareMeters");
    var numberOfRooms := StringField(r, "numberOfRooms");
    var sellerId := StringField(r, "sellerId");
    var timeSlots := if "timeSlots" in r then SlotsOf(r["timeSlots"]) else None;
    if locationName.Some? && price.Some? && squareMeters.Some? && numberOfRooms.Some? && sellerId.Some? && timeSlots.Some? then
      Some(ApartmentData(apartmentId, sellerId.value, locationName.value, price.value, squareMeters.value,
                         numberOfRooms.value, timeSlots.value, None))
    else
      None
  }

  // ------------------------------------------------------------- ratings

  /** `compactMap { $0.value["ratingApartment"] as? Double }`. */
  function Ratings(bookings: seq<Value>): (rs: seq<real>)
    ensures |rs| <= |bookings|
    decreases |bookings|
  {
    if bookings == [] then []
    else
      var last := bookings[|bookings| - 1];
      var rating := if last.Obj? then NumberField(last.fields, "ratingApartment") else None;
      Ratings(bookings[..|bookings| - 1]) + (if rating.Some? then [rating.value] else [])
  }

  function Sum(rs: seq<real>): real
    decreases |rs|
  {
    if rs == [] then 0.0 else Sum(rs[..|rs| - 1]) + rs[|rs| - 1]
  }

  predicate AllValues(bookings: seq<Value>)
  {
    forall i :: 0 <= i < |bookings| ==> bookings[i].Obj?
  }

  /** The average rating of an apartment from the bookings the query returns
      for it: none when the snapshot is not a table of records or carries
      no numeric rating, otherwise the mean of the ratings. */
  function AverageRating(bookings: seq<Value>): (avg: Option<real>)
    ensures avg.None? <==> !AllValues(bookings) || Ratings(bookings) == []
  {
    if AllValues(bookings) && Ratings(bookings) != [] then
      Some(Sum(Ratings(bookings)) / |Ratings(bookings)| as real)
    else
      None
  }

  lemma {:induction false} SumBounds(rs: seq<real>, lo: real, hi: real)
    requires forall i :: 0 <= i < |rs| ==> lo <= rs[i] <= hi
    ensures |rs| as real * lo <= Sum(rs) <= |rs| as real * hi
    decreases |rs|
  {
    if rs != [] {
      SumBounds(rs[..|rs| - 1], lo, hi);
    }
  }

  /** The mean lies between the lowest and the highest rating. */
  lemma AverageWithinRatings(bookings: seq<Value>, lo: real, hi: real)
    requires forall i :: 0 <= i < |Ratings(bookings)| ==> lo <= Ratings(bookings)[i] <= hi
    ensures AverageRating(bookings).Some? ==> lo <= AverageRating(bookings).value <= hi
  {
    var rs := Ratings(bookings);
    if AverageRating(bookings).Some? {
      SumBounds(rs, lo, hi);
      var n := |rs| as real;
      assert n > 0.0;
      assert Sum(rs) / n >= (n * lo) / n;
      assert Sum(rs) / n <= (n * hi) / n;
    }
  }

  // ------------------------------------------------------------- decode

  /** The bookings the query for an apartment returns, in order; an
      apartment with no bookings gets none. */
  function BookingsOf(bookingsOf: map<string, seq<Value>>, apartmentId: string): seq<Value>
  {
    if apartmentId in bookingsOf then bookingsOf[apartmentId] else []
  }

  /** The apartment one child of the `apartments` node yields, rating included. */
  function Entry(child: (string, Value), bookingsOf: map<string, seq<Value>>): Option<ApartmentData>
    requires child.1.Obj?
  {
    match ApartmentFields(child.0, child.1.fields)
    case None => None
    case Some(a) => Some(a.(averageRating := AverageRating(BookingsOf(bookingsOf, child.0))))
  }

  /** The list `fetchApartments` builds: one apartment per well-formed child,
      in order. */
  function Decoded(children: seq<(string, Value)>, bookingsOf: map<string, seq<Value>>): seq<ApartmentData>
    requires AllObjects(children)
    decreases |children|
  {
    if children == [] then []
    else
      var rest := Decoded(children[..|children| - 1], bookingsOf);
      match Entry(children[|children| - 1], bookingsOf)
      case None => rest
      case Some(a) => rest + [a]
  }

  /** Some child yields `a`. */
  predicate EntryOf(children: seq<(string, Value)>, bookingsOf: map<string, seq<Value>>, a: ApartmentData)
    requires AllObjects(children)
  {
    exists i :: 0 <= i < |children| && Entry(children[i], bookingsOf) == Some(a)
  }

  lemma EntryOfSnoc(children: seq<(string, Value)>, bookingsOf: map<string, seq<Value>>, a: ApartmentData)
    requires AllObjects(children) && children != []
    ensures EntryOf(children, bookingsOf, a) <==>
      EntryOf(children[..|children| - 1], bookingsOf, a) || Entry(children[|children| - 1], bookingsOf) == Some(a)
  {
    var init := children[..|children| - 1];
    if EntryOf(children, bookingsOf, a) {
      var i :| 0 <= i < |children| && Entry(children[i], bookingsOf) == Some(a);
      if i < |init| {
        assert Entry(init[i], bookingsOf) == Some(a);
      }
    }
    if EntryOf(init, bookingsOf, a) {
      var i :| 0 <= i < |init| && Entry(init[i], bookingsOf) == Some(a);
      assert Entry(children[i], bookingsOf) == Some(a);
    }
  }

  /** Malformed children are skipped and every well-formed child is listed. */
  lemma {:induction false} DecodedExactly(children: seq<(string, Value)>, bookingsOf: map<string, seq<Value>>)
    requires AllObjects(children)
    ensures |Decoded(children, bookingsOf)| <= |children|
    ensures forall a :: a in Decoded(children, bookingsOf) <==> EntryOf(children, bookingsOf, a)
    decreases |children|
  {
    if children != [] {
      DecodedExactly(children[..|children| - 1], bookingsOf);
      forall a
        ensures EntryOf(children, bookingsOf, a) <==>
          EntryOf(children[..|children| - 1], bookingsOf, a) || Entry(children[|children| - 1], bookingsOf) == Some(a)
      {
        EntryOfSnoc(children, bookingsOf, a);
      }
    }
  }

  // ------------------------------------------------------------- search

  /** The location of `a`, lower-cased, contains the lower-cased text. */
  predicate Matches(a: Apartment, text: string)
    reads a
  {
    Contains(Lowercased(a.locationName), Lowercased(text))
  }

  /** `apartments.filter { $0.locationName.lowercased().contains(text.lowercased()) }`. */
  function Matching(s: seq<Apartment>, text: string): seq<Apartment>
    reads set a | a in s
    decreases |s|
  {
    if s == [] then []
    else (if Matches(s[0], text) then [s[0]] else []) + Matching(s[1..], text)
  }

  /** The search keeps exactly the apartments whose location matches. */
  lemma {:induction false} MatchingExactly(s: seq<Apartment>, text: string)
    ensures forall a :: a in Matching(s, text) <==> a in s && Matches(a, text)
    decreases |s|
  {
    if s != [] {
      MatchingExactly(s[1..], text);
      assert forall a :: a in s <==> a == s[0] || a in s[1..];
    }
  }

  /** The search keeps the list's order: it maps a concatenation to the
      concatenation of the results. */
  lemma {:induction false} MatchingConcat(s: seq<Apartment>, t: seq<Apartment>, text: string)
    ensures Matching(s + t, text) == Matching(s, text) + Matching(t, text)
    decreases |s|
  {
    if s == [] {
      assert s + t == t;
    } else {
      MatchingConcat(s[1..], t, text);
      assert (s + t)[0] == s[0];
      assert (s + t)[1..] == s[1..] + t;
    }
  }

  /** Every location contains the empty text, so searching for it keeps the
      whole list. */
  lemma {:induction false} MatchingEmpty(s: seq<Apartment>)
    ensures Matching(s, []) == s
    decreases |s|
  {
    if s != [] {
      ContainsEmpty(Lowercased(s[0].locationName));
      MatchingEmpty(s[1..]);
    }
  }

  class ApartmentsView {
    var apartments: seq<Apartment>
    var filteredApartments: seq<Apartment>
    /** The search bar's text. */
    var searchText: string

    constructor ()
      ensures apartments == [] && filteredApartments == [] && searchText == []
    {
      apartments := [];
      filteredApartments := [];
      searchText := [];
    }

    /** `fetchApartments` with the children of the `apartments` node and the
        bookings the query returns per apartment id. A node that is not a
        table of records changes nothing; otherwise the list becomes one new
        apartment per well-formed child, and the filtered list the whole
        list. */
    method FetchApartments(children: seq<(string, Value)>, bookingsOf: map<string, seq<Value>>)
      modifies this`apartments, this`filteredApartments
      ensures !IsTable(children) ==> apartments == old(apartments) && filteredApartments == old(filteredApartments)
      ensures IsTable(children) ==> Values(apartments) == Decoded(children, bookingsOf)
      ensures IsTable(children) ==> filteredApartments == apartments && forall a :: a in apartments ==> fresh(a)
    {
      if !IsTable(children) {
        return;
      }
      var apartmentsWithRatings: seq<Apartment> := [];
      for i := 0 to |children|
        invariant Values(apartmentsWithRatings) == Decoded(children[..i], bookingsOf)
        invariant forall a :: a in apartmentsWithRatings ==> fresh(a)
      {
        assert children[..i + 1][..i] == children[..i];
        var (apartmentId, value) := children[i];
        var apartmentData := value.fields;
        var locationName := StringField(apartmentData, "locationName");
        var price := StringField(apartmentData, "price");
        var squareMeters := StringField(apartmentData, "squareMeters");
        var numberOfRooms := StringField(apartmentData, "numberOfRooms");
        var sellerId := StringField(apartmentData, "sellerId");
        var timeSlotsDict := if "timeSlots" in apartmentData then SlotsOf(apartmentData["timeSlots"]) else None;
        if locationName.Some? && price.Some? && squareMeters.Some? && numberOfRooms.Some? && sellerId.Some? && timeSlotsDict.Some? {
          var apartment := new Apartment(apartmentId, sellerId.value, locationName.value, price.value,
                                         squareMeters.value, numberOfRooms.value, timeSlotsDict.value);
          var bookings := BookingsOf(bookingsOf, apartmentId);
          if AllValues(bookings) {
            var ratings := Ratings(bookings);
            if ratings != [] {
              apartment.SetAverageRating(Sum(ratings) / |ratings| as real);
            }
          }
          apartmentsWithRatings := apartmentsWithRatings + [apartment];
        }
      }
      assert children[..|children|] == children;
      apartments := apartmentsWithRatings;
      filteredApartments := apartments;
    }

    /** `searchBar(_:textDidChange:)`: an empty text shows every apartment,
        any other text the apartments whose location matches it. */
    method SearchTextChanged(text: string)
      modifies this`filteredApartments, this`searchText
      ensures searchText == text
      ensures text == [] ==> filteredApartments == apartments
      ensures text != [] ==> filteredApartments == Matching(apartments, text)
    {
      searchText := text;
      if text == [] {
        filteredApartments := apartments;
      } else {
        filteredApartments := Matching(apartments, text);
      }
    }

    /** `searchBarCancelButtonClicked`: the text is cleared and every
        apartment shown again. */
    method Cancel()
      modifies this`filteredApartments, this`searchText
      ensures searchText == [] && filteredApartments == apartments
    {
      searchText := [];
      filteredApartments := apartments;
    }

    /** `prepare(for:sender:)` after a row is tapped: the detail screen gets
        the filtered list and the tapped index. */
    method ShowDetail(selectedIndex: int) returns (detail: ApartmentDetailView)
      ensures fresh(detail)
      ensures detail.apartments == filteredApartments && detail.currentIndex == selectedIndex
      ensures detail.selectedTimeSlot.None? && detail.shown.None?
      ensures 0 <= selectedIndex < |filteredApartments| ==> detail.Valid()
    {
      detail := new ApartmentDetailView(filteredApartments, selectedIndex);
    }
  }
}
