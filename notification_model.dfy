/** NotificationModel.swift: one row of the seller's notification feed, read
    from a booking record with a fallback for every missing or ill-typed
    field. */
module NotificationModels {
  import opened Text
  import opened Records

  datatype NotificationModel = NotificationModel(
    id: string,
    bookingId: string,
    apartmentId: string,
    buyerId: string,
    buyerName: string,
    buyerPhone: string,
    timeSlot: string,
    status: string)

  /** `v` is what `data[key] as? String ?? fallback` gives: the stored text
      when there is one, the fallback otherwise. */
  predicate ReadsAs(data: Record, key: string, fallback: string, v: string)
  {
    if key in data && data[key].Str? then v == data[key].s else v == fallback
  }

  /** `NotificationModel.init(id:data:)`. The id comes from the argument;
      ids default to "", the buyer's name and phone and the time slot to
      "Unknown", and the status, read from the key "status", to "pending". */
  function NotificationFrom(id: string, data: Record): (n: NotificationModel)
    ensures n.id == id
    ensures ReadsAs(data, "bookingId", "", n.bookingId)
    ensures ReadsAs(data, "apartmentId", "", n.apartmentId)
    ensures ReadsAs(data, "buyerId", "", n.buyerId)
    ensures ReadsAs(data, "buyerName", "Unknown", n.buyerName)
    ensures ReadsAs(data, "buyerPhone", "Unknown", n.buyerPhone)
    ensures ReadsAs(data, "timeSlot", "Unknown", n.timeSlot)
    ensures ReadsAs(data, "status", "pending", n.status)
  {
    NotificationModel(
      id,
      StringOr(data, "bookingId", ""),
      StringOr(data, "apartmentId", ""),
      StringOr(data, "buyerId", ""),
      StringOr(data, "buyerName", "Unknown"),
      StringOr(data, "buyerPhone", "Unknown"),
      StringOr(data, "timeSlot", "Unknown"),
      StringOr(data, "status", "pending"))
  }

  /** The record a row would be read back from. */
  function Encode(n: NotificationModel): Record
  {
    map[
      "bookingId" := Str(n.bookingId),
      "apartmentId" := Str(n.apartmentId),
      "buyerId" := Str(n.buyerId),
      "buyerName" := Str(n.buyerName),
      "buyerPhone" := Str(n.buyerPhone),
      "timeSlot" := Str(n.timeSlot),
      "status" := Str(n.status)
    ]
  }

  /** Every row is read back unchanged from its record: present texts are
      copied as they are. */
  lemma {:induction false} DecodeEncode(n: NotificationModel)
    ensures NotificationFrom(n.id, Encode(n)) == n
  {
    var r := NotificationFrom(n.id, Encode(n));
    assert r.bookingId == n.bookingId && r.apartmentId == n.apartmentId && r.buyerId == n.buyerId;
    assert r.buyerName == n.buyerName && r.buyerPhone == n.buyerPhone;
    assert r.timeSlot == n.timeSlot && r.status == n.status;
  }

  /** A record with none of the keys gives the all-defaults row. */
  lemma EmptyRecordDefaults(id: string)
    ensures NotificationFrom(id, map[]) ==
      NotificationModel(id, "", "", "", "Unknown", "Unknown", "Unknown", "pending")
  {
  }

  /** Keys other than the seven the row reads do not affect it. */
  lemma {:induction false} OtherKeysIgnored(id: string, data: Record, key: string, v: Value)
    requires key !in ["bookingId", "apartmentId", "buyerId", "buyerName", "buyerPhone", "timeSlot", "status"]
    ensures NotificationFrom(id, data[key := v]) == NotificationFrom(id, data)
  {
    var a := NotificationFrom(id, data[key := v]);
    var b := NotificationFrom(id, data);
    assert a.bookingId == b.bookingId && a.apartmentId == b.apartmentId && a.buyerId == b.buyerId;
    assert a.buyerName == b.buyerName && a.buyerPhone == b.buyerPhone;
    assert a.timeSlot == b.timeSlot && a.status == b.status;
  }
}
