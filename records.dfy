/** Records as the realtime database hands them to the app, the typed reads
    the app makes of them (`value["key"] as? String`), the writes it issues,
    and the `Booking` record type of Booking.swift. */
module Records {
  import opened Text

  /** A database value: a string, a number, a boolean or a keyed object. */
  datatype Value = Str(s: string) | Num(x: real) | Flag(b: bool) | Obj(fields: map<string, Value>)

  /** A `[String: Any]` record. */
  type Record = map<string, Value>

  /** `r[key] as? String`. */
  function StringField(r: Record, key: string): (v: Option<string>)
    ensures v.Some? <==> key in r && r[key].Str?
    ensures v.Some? ==> r[key] == Str(v.value)
  {
    if key in r && r[key].Str? then Some(r[key].s) else None
  }

  /** `r[key] as? Float` and `r[key] as? Double`. */
  function NumberField(r: Record, key: string): (v: Option<real>)
    ensures v.Some? <==> key in r && r[key].Num?
    ensures v.Some? ==> r[key] == Num(v.value)
  {
    if key in r && r[key].Num? then Some(r[key].x) else None
  }

  /** `r[key] as? Bool`. */
  function BoolField(r: Record, key: string): (v: Option<bool>)
    ensures v.Some? <==> key in r && r[key].Flag?
    ensures v.Some? ==> r[key] == Flag(v.value)
  {
    if key in r && r[key].Flag? then Some(r[key].b) else None
  }

  /** `r[key] as? String ?? fallback`. */
  function StringOr(r: Record, key: string, fallback: string): string
  {
    match StringField(r, key)
    case Some(v) => v
    case None => fallback
  }

  /** `r[key] as? [String: Any] ?? [:]` for a whole database node. */
  function ObjectOrEmpty(v: Option<Value>): Record
  {
    if v.Some? && v.value.Obj? then v.value.fields else map[]
  }

  /** The children of a node, with their keys, in the order the app visits
      them. The cast `as? [String: [String: Any]]` succeeds exactly for a
      node that exists (the database keeps no empty node) and whose every
      child is an object. */
  predicate IsTable(children: seq<(string, Value)>)
  {
    children != [] && AllObjects(children)
  }

  predicate AllObjects(children: seq<(string, Value)>)
  {
    forall i :: 0 <= i < |children| ==> children[i].1.Obj?
  }

  /** The user record under `users/<uid>`, or an empty record when there is
      none (`userSnapshot.value as? [String: Any] ?? [:]`). */
  function UserRecord(users: map<string, Value>, uid: string): Record
  {
    ObjectOrEmpty(if uid in users then Some(users[uid]) else None)
  }

  /** A write the app sends to the database, addressed by its path. */
  datatype Write =
    | Put(path: seq<string>, value: Value)        // `child(...).setValue(value)`
    | Update(path: seq<string>, fields: Record)   // `child(...).updateChildValues(fields)`
    | Append(path: seq<string>, value: Value)     // `child(...).childByAutoId().setValue(value)`

  /** A record after `updateChildValues(fields)`: the given keys take the
      given values, the others keep theirs. */
  function Merged(r: Record, fields: Record): Record
  {
    r + fields
  }

  /** Booking.swift: a booking as the rating screen reads it. `timeSlot` is
      declared optional; `sellerDecision` is free text, by convention one of
      "pending", "accepted" and "rejected". */
  datatype Booking = Booking(
    bookingId: string,
    apartmentId: string,
    sellerId: string,
    buyerId: string,
    timeSlot: Option<string>,
    visited: bool,
    ratingSeller: real,
    ratingApartment: real,
    sellerDecision: string)

  /** `Booking.init`: takes a non-optional time slot, so a constructed
      booking always has one. */
  function NewBooking(bookingId: string, apartmentId: string, sellerId: string, buyerId: string,
                      timeSlot: string, visited: bool, ratingSeller: real, ratingApartment: real,
                      sellerDecision: string): (b: Booking)
    ensures b.timeSlot == Some(timeSlot)
    ensures b.bookingId == bookingId && b.apartmentId == apartmentId && b.sellerId == sellerId
    ensures b.buyerId == buyerId && b.visited == visited && b.ratingSeller == ratingSeller
    ensures b.ratingApartment == ratingApartment && b.sellerDecision == sellerDecision
  {
    Booking(bookingId, apartmentId, sellerId, buyerId, Some(timeSlot), visited, ratingSeller,
            ratingApartment, sellerDecision)
  }
}
