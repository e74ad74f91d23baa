/** NotificationsViewController.swift: the seller's list of booking
    requests, how each row is drawn, and the seller's decision on one. The
    database calls are sequential steps here: a snapshot is an input and a
    write is an output. */
module Notifications {
  import opened Text
  import opened Clock
  import opened Records
  import opened NotificationModels

  /** `bookingInfo`: the booking record with the buyer's name and phone
      taken from their user record, "Unknown" when missing. */
  function WithBuyer(data: Record, users: map<string, Value>): (r: Record)
    ensures r.Keys == data.Keys + {"buyerName", "buyerPhone"}
    ensures ReadsAs(UserRecord(users, StringOr(data, "buyerId", "")), "name", "Unknown", StringOr(r, "buyerName", ""))
    ensures ReadsAs(UserRecord(users, StringOr(data, "buyerId", "")), "phone", "Unknown", StringOr(r, "buyerPhone", ""))
    ensures forall k :: k in data && k != "buyerName" && k != "buyerPhone" ==> r[k] == data[k]
  {
    var buyer := UserRecord(users, StringOr(data, "buyerId", ""));
    data["buyerName" := Str(StringOr(buyer, "name", "Unknown"))]
        ["buyerPhone" := Str(StringOr(buyer, "phone", "Unknown"))]
  }

  /** The row built for the booking `id`: the ids, the time slot and the
      status come from the booking record, the name and phone from the
      buyer's user record. */
  function RowFor(id: string, data: Record, users: map<string, Value>): (n: NotificationModel)
    ensures n.id == id
    ensures ReadsAs(data, "bookingId", "", n.bookingId)
    ensures ReadsAs(data, "apartmentId", "", n.apartmentId)
    ensures ReadsAs(data, "buyerId", "", n.buyerId)
    ensures ReadsAs(UserRecord(users, n.buyerId), "name", "Unknown", n.buyerName)
    ensures ReadsAs(UserRecord(users, n.buyerId), "phone", "Unknown", n.buyerPhone)
    ensures ReadsAs(data, "timeSlot", "Unknown", n.timeSlot)
    ensures ReadsAs(data, "status", "pending", n.status)
  {
    NotificationFrom(id, WithBuyer(data, users))
  }

  /** One row per booking of the snapshot, in order. */
  function LoadedRows(bookings: seq<(string, Value)>, users: map<string, Value>): (r: seq<NotificationModel>)
    requires AllObjects(bookings)
    ensures |r| == |bookings|
    ensures forall i :: 0 <= i < |bookings| ==>
      && r[i].id == bookings[i].0
      && ReadsAs(bookings[i].1.fields, "bookingId", "", r[i].bookingId)
      && ReadsAs(bookings[i].1.fields, "timeSlot", "Unknown", r[i].timeSlot)
      && ReadsAs(bookings[i].1.fields, "status", "pending", r[i].status)
  {
    seq(|bookings|, i requires 0 <= i < |bookings| => RowFor(bookings[i].0, bookings[i].1.fields, users))
  }

  /** `firstIndex(where: { $0.id == id })`. */
  function FirstIndexOf(rows: seq<NotificationModel>, id: string): (r: Option<nat>)
    ensures r.Some? ==> r.value < |rows| && rows[r.value].id == id
    ensures r.Some? ==> forall j :: 0 <= j < r.value ==> rows[j].id != id
    ensures r.None? ==> forall j :: 0 <= j < |rows| ==> rows[j].id != id
    decreases |rows|
  {
    if rows == [] then None
    else if rows[0].id == id then Some(0)
    else
      match FirstIndexOf(rows[1..], id)
      case None => None
      case Some(k) => Some(k + 1)
  }

  /** The rows after a change event for `id`: the first row with that id is
      rebuilt from the new record; without such a row nothing changes. */
  function Patched(rows: seq<NotificationModel>, id: string, data: Record, users: map<string, Value>): (r: seq<NotificationModel>)
    ensures |r| == |rows|
    ensures (forall j :: 0 <= j < |rows| ==> rows[j].id != id) ==> r == rows
    ensures forall j :: 0 <= j < |rows| && FirstIndexOf(rows, id) != Some(j) ==> r[j] == rows[j]
    ensures FirstIndexOf(rows, id).Some? ==> r[FirstIndexOf(rows, id).value] == RowFor(id, data, users)
  {
    match FirstIndexOf(rows, id)
    case None => rows
    case Some(i) => rows[i := RowFor(id, data, users)]
  }

  /** The rows after the seller's decision is stored: the first row with the
      id takes the decision as its status, every other field kept. */
  function WithStatus(rows: seq<NotificationModel>, id: string, status: string): (r: seq<NotificationModel>)
    ensures |r| == |rows|
    ensures forall j :: 0 <= j < |rows| && FirstIndexOf(rows, id) != Some(j) ==> r[j] == rows[j]
    ensures FirstIndexOf(rows, id).Some? ==>
      var i := FirstIndexOf(rows, id).value;
      r[i] == rows[i].(status := status)
    ensures (exists j :: 0 <= j < |rows| && rows[j].id == id) <==> FirstIndexOf(rows, id).Some?
  {
    match FirstIndexOf(rows, id)
    case None => rows
    case Some(i) => rows[i := rows[i].(status := status)]
  }

  /** `isTimeSlotExpired`: the slot reads as an instant before `now`; a
      slot that does not read is never expired, among them the fallback
      "Unknown" of a booking without a time slot. */
  predicate IsTimeSlotExpired(timeSlot: string, now: Instant)
    ensures IsTimeSlotExpired(timeSlot, now) ==> ParseSlot(timeSlot).Some? && ParseSlot(timeSlot).value < now
    ensures timeSlot == "Unknown" ==> !IsTimeSlotExpired(timeSlot, now)
  {
    match ParseSlot(timeSlot)
    case Some(x) => x < now
    case None => false
  }

  /** Once expired, a slot stays expired as time goes on. */
  lemma ExpiredStaysExpired(timeSlot: string, now: Instant, later: Instant)
    requires now <= later && IsTimeSlotExpired(timeSlot, now)
    ensures IsTimeSlotExpired(timeSlot, later)
  {
  }

  /** What a notification cell shows. */
  datatype CellView = CellView(statusText: string, acceptHidden: bool, rejectHidden: bool)

  /** `cellForRowAt`: an expired row says so and hides both buttons; any
      other row shows its status and offers the buttons only while the
      request is pending. */
  function Cell(n: NotificationModel, now: Instant): (c: CellView)
    ensures IsTimeSlotExpired(n.timeSlot, now) ==> c == CellView("Status: Expired", true, true)
    ensures !IsTimeSlotExpired(n.timeSlot, now) ==> c.statusText == "Status: " + Capitalized(n.status)
    ensures c.acceptHidden == c.rejectHidden
  {
    if IsTimeSlotExpired(n.timeSlot, now) then CellView("Status: Expired", true, true)
    else CellView("Status: " + Capitalized(n.status), n.status != "pending", n.status != "pending")
  }

  /** The seller can decide exactly on pending requests whose slot has not
      passed. */
  lemma ButtonsShown(n: NotificationModel, now: Instant)
    ensures !Cell(n, now).acceptHidden <==> n.status == "pending" && !IsTimeSlotExpired(n.timeSlot, now)
  {
  }

  /** The notice `notifyBuyer` sends with a decision. */
  function BuyerNotice(n: NotificationModel, status: string): (r: Record)
    ensures StringField(r, "status") == Some(status)
    ensures StringField(r, "title") == Some("Booking " + Capitalized(status))
  {
    map[
      "title" := Str("Booking " + Capitalized(status)),
      "message" := Str("Your booking request for " + n.apartmentId + " was " + status + "."),
      "status" := Str(status)
    ]
  }

  /** `notifyBuyer`: appended under `notifications/<buyerId>`. */
  function NotifyBuyer(n: NotificationModel, status: string): (w: Write)
    ensures w.Append? && w.path == ["notifications", n.buyerId]
    ensures w.value.Obj? && StringField(w.value.fields, "status") == Some(status)
  {
    Append(["notifications", n.buyerId], Obj(BuyerNotice(n, status)))
  }

  /** The write that records the seller's decision on a booking. */
  function DecisionWrite(bookingId: string, status: string): (w: Write)
    ensures w.Update? && w.path == ["bookings", bookingId]
    ensures w.fields.Keys == {"sellerDecision"} && StringField(w.fields, "sellerDecision") == Some(status)
  {
    Update(["bookings", bookingId], map["sellerDecision" := Str(status)])
  }

  class NotificationsView {
    var notifications: seq<NotificationModel>

    constructor ()
      ensures notifications == []
    {
      notifications := [];
    }

    /** The `.value` observer of `loadNotifications`: the list is cleared,
        and when the snapshot holds booking records one row is added per
        booking, in order. */
    method Reload(bookings: seq<(string, Value)>, users: map<string, Value>)
      modifies this`notifications
      ensures IsTable(bookings) ==> notifications == LoadedRows(bookings, users)
      ensures !IsTable(bookings) ==> notifications == []
    {
      notifications := [];
      if !IsTable(bookings) {
        return;
      }
      var i := 0;
      while i < |bookings|
        invariant 0 <= i <= |bookings|
        invariant notifications == LoadedRows(bookings[..i], users)
      {
        var (id, data) := bookings[i];
        var notification := NotificationFrom(id, WithBuyer(data.fields, users));
        notifications := notifications + [notification];
        i := i + 1;
      }
      assert bookings[..i] == bookings;
    }

    /** `updateNotification`: the row of the changed booking is rebuilt
        from the new record; a booking with no row changes nothing. */
    method UpdateNotification(bookingId: string, data: Record, users: map<string, Value>)
      modifies this`notifications
      ensures notifications == Patched(old(notifications), bookingId, data, users)
    {
      var index := FirstIndexOf(notifications, bookingId);
      if index.None? {
        return;
      }
      var updatedData := WithBuyer(data, users);
      ApplyPatch(index.value, bookingId, updatedData);
    }

    /** The guarded write of `updateNotification`: the row at `index` is
        replaced only while the index is still in range. */
    method ApplyPatch(index: nat, bookingId: string, updatedData: Record)
      modifies this`notifications
      ensures |notifications| == |old(notifications)|
      ensures index < |old(notifications)| ==>
        notifications == old(notifications)[index := NotificationFrom(bookingId, updatedData)]
      ensures index >= |old(notifications)| ==> notifications == old(notifications)
    {
      if !(index < |notifications|) {
        return;
      }
      notifications := notifications[index := NotificationFrom(bookingId, updatedData)];
    }

    /** `acceptBooking(at:)`: nothing for an index outside the list. */
    method AcceptBooking(index: int, stored: bool) returns (writes: seq<Write>)
      modifies this`notifications
      ensures !(0 <= index < |old(notifications)|) ==> writes == [] && notifications == old(notifications)
      ensures 0 <= index < |old(notifications)| ==>
        var n := old(notifications)[index];
        && writes == [DecisionWrite(n.bookingId, "accepted")] + (if stored then [NotifyBuyer(n, "accepted")] else [])
        && notifications == if stored then WithStatus(old(notifications), n.bookingId, "accepted") else old(notifications)
    {
      if !(0 <= index < |notifications|) {
        return [];
      }
      var notification := notifications[index];
      writes := UpdateBookingStatus(notification, "accepted", stored);
    }

    /** `rejectBooking(at:)`: nothing for an index outside the list. */
    method RejectBooking(index: int, stored: bool) returns (writes: seq<Write>)
      modifies this`notifications
      ensures !(0 <= index < |old(notifications)|) ==> writes == [] && notifications == old(notifications)
      ensures 0 <= index < |old(notifications)| ==>
        var n := old(notifications)[index];
        && writes == [DecisionWrite(n.bookingId, "rejected")] + (if stored then [NotifyBuyer(n, "rejected")] else [])
        && notifications == if stored then WithStatus(old(notifications), n.bookingId, "rejected") else old(notifications)
    {
      if !(0 <= index < |notifications|) {
        return [];
      }
      var notification := notifications[index];
      writes := UpdateBookingStatus(notification, "rejected", stored);
    }

    /** `updateBookingStatus`: the decision is written to the booking; once
        it is stored, the row of that booking takes the new status and the
        buyer is sent one notice carrying the decision. */
    method UpdateBookingStatus(notification: NotificationModel, status: string, stored: bool) returns (writes: seq<Write>)
      modifies this`notifications
      ensures stored ==> writes == [DecisionWrite(notification.bookingId, status), NotifyBuyer(notification, status)]
      ensures stored ==> notifications == WithStatus(old(notifications), notification.bookingId, status)
      ensures !stored ==> writes == [DecisionWrite(notification.bookingId, status)] && notifications == old(notifications)
    {
      writes := [DecisionWrite(notification.bookingId, status)];
      if !stored {
        return;
      }
      var index := FirstIndexOf(notifications, notification.bookingId);
      if index.Some? {
        notifications := notifications[index.value := notifications[index.value].(status := status)];
      }
      writes := writes + [NotifyBuyer(notification, status)];
    }
  }
}
