# Apartment viewings, modelled in Dafny

This project models the core of "Workshop", an iOS app on a realtime
database. Sellers publish an apartment with a calendar of viewing times.
Buyers browse and search the apartments and request a viewing. The seller
accepts or rejects the request. After an accepted visit, the buyer rates
the apartment. The model follows the view controllers that carry this
logic, screen by screen:

- `TimeSlots` (TimeSlotsController.swift) is the seller's calendar: a map from
  date key to a map from time key to "active". It covers:
  - the five working days generated from today;
  - a template of at most eight times applied to every day;
  - deactivating past times, toggling and deleting a time;
  - the saved apartment record.
- `Apartments` (Apartment.swift) is the apartment object the buyer screens share.
- `ApartmentsList` (ApartmentsViewController.swift) is the buyer's list:
  - decoding the `apartments` node;
  - each apartment's average rating;
  - search by location and the hand-over to the detail screen.
- `ApartmentDetail` (ApartmentDetailViewController.swift) is one apartment:
  - a section per date;
  - the still-open active times, in order;
  - swiping through the list;
  - the booking request and the seller's notice.
- `NotificationModels` (NotificationModel.swift) is one row of the seller's
  feed, read with a fallback for every field.
- `Notifications` (NotificationsViewController.swift) is the seller's feed:
  - loading and patching rows;
  - expiry and the cell's buttons;
  - accepting or rejecting, and notifying the buyer.
- `RateApartment` (RateApartmentViewController.swift) lists the bookings a
  buyer may rate and the rating write. `Stars` (RatingCell.swift) draws the
  row of stars.
- `Records` covers the database values the screens read and the writes they
  send, and Booking.swift's `Booking`. `Text` covers String order, `sorted()`,
  lower-casing, capitalising and substring search. `Clock` covers dates,
  times, slot texts and working days.
- `Lifecycle` relates the screens through the records they share. A request
  reads back as a pending, unratable booking. An accepted booking can be
  rated in the 24 hours after its slot. An apartment the seller saves is
  listed for buyers as saved.

Modelling conventions:

- The database is not modelled as a store. A snapshot is an input (a
  sequence of keyed children, in the order the app visits them). A write is
  an output value:
  - `Put` is `setValue`;
  - `Update` is `updateChildValues`;
  - `Append` is `childByAutoId().setValue`.
- Whether a write succeeded is a boolean parameter.
- The signed-in user is an `Option` parameter.
- The current instant (`Date()`) is a parameter `now`, in seconds since
  1970-01-01 00:00, in one fixed local time zone.
  Where a callback reads `Date()` again after the table was laid out (the
  detail screen's rows), the earlier instant is a second parameter `shownAt`.
- A date is a day number and a date key is the day number's decimal
  numeral. It stands for the "yyyy-MM-dd" text: one key per day, read back
  by `ParseDate`. Time keys are real "HH:mm" texts. A slot is
  "<date> <time>".
- Swift `String` `<` is character order (`Text.Below`). `keys.sorted()` is
  `Text.SortedKeys`.

## Model

| member | source | states |
|---|---|---|
| Text.SortedKeys | Workshop/TimeSlotsController.swift:174 | `keys.sorted()` lists every key exactly once, in strictly ascending String order |
| Text.Lowercased | Workshop/ApartmentsViewController.swift:185 | `lowercased()` keeps the length and leaves no upper-case letter |
| Text.LowercasedIdempotent | Workshop/ApartmentsViewController.swift:185 | lower-casing twice is lower-casing once, so both sides of the search are in one form |
| Text.DecisionsCapitalized | Workshop/NotificationsViewController.swift:125 | the statuses "accepted", "rejected" and "pending" are shown as "Accepted", "Rejected" and "Pending" |
| Text.ContainsAt | Workshop/ApartmentsViewController.swift:185 | `contains` holds exactly when the needle occurs at some position of the text |
| Clock.Weekday | Workshop/TimeSlotsController.swift:39 | the calendar's weekday is 1 (Sunday) to 7 (Saturday) |
| Clock.BeforeStartOfTomorrow | Workshop/TimeSlotsController.swift:114-115 | the current instant always lies before the start of the next day |
| Clock.DateRoundTrip | Workshop/TimeSlotsController.swift:148-150 | a "yyyy-MM-dd" key parses back to the day it was formatted from |
| Clock.FormatDateInjective | Workshop/TimeSlotsController.swift:41-42 | distinct days get distinct date keys |
| Clock.FormatTime | Workshop/TimeSlotsController.swift:72-74 | an "HH:mm" text has five characters |
| Clock.TimeRoundTrip | Workshop/TimeSlotsController.swift:136-140 | an "HH:mm" key parses back to its minute of the day |
| Clock.ParseSlotText | Workshop/ApartmentDetailViewController.swift:239-242 | "<date> <time>" parses as "yyyy-MM-dd HH:mm" exactly when the date and the time both parse, to that day at that minute |
| Clock.FirstWorkingDay | Workshop/TimeSlotsController.swift:152-156 | skipping weekend days ends within two days on a working day, passing no working day |
| Clock.WorkingWindow | Workshop/TimeSlotsController.swift:38-46 | the walk yields n increasing working days from the start day and skips no working day before the last |
| Records.StringField | Workshop/RateApartmentViewController.swift:35 | `as? String` succeeds exactly on a stored string and gives that string |
| Records.NumberField | Workshop/RateApartmentViewController.swift:40-41 | `as? Float`/`as? Double` succeeds exactly on a stored number and gives it |
| Records.BoolField | Workshop/RateApartmentViewController.swift:39 | `as? Bool` succeeds exactly on a stored boolean and gives it |
| Records.NewBooking | Workshop/Booking.swift:14-25 | the initialiser stores every argument; the time slot is always present |
| TimeSlots.TemplateDay | Workshop/TimeSlotsController.swift:92-99 | a template of at most eight distinct times gives each day exactly those times, all active, at most eight of them |
| TimeSlots.GeneratedWindow | Workshop/TimeSlotsController.swift:30-47 | the generated days are five working days with five distinct keys, and no working day from today to the last is skipped |
| TimeSlots.PastDeactivated | Workshop/TimeSlotsController.swift:132-145 | today's day keeps its times; only past slots change, and only from active to inactive |
| TimeSlots.EveryReadableSlotDeactivated | Workshop/TimeSlotsController.swift:136-141 | a time parsed alone lands on 2000-01-01, so every readable slot of today is switched off |
| TimeSlots.Relocated | Workshop/TimeSlotsController.swift:126-129 | today's times move to the next working day's key, which they replace; other days are kept |
| TimeSlots.Toggled | Workshop/TimeSlotsController.swift:201-215 | a toggle never activates an inactive slot; an active slot takes the switch's value; nothing else changes |
| TimeSlots.SlotRemoved | Workshop/TimeSlotsController.swift:221-231 | deleting removes the time, and the date too once it has no time left; other days are kept |
| TimeSlots.NextWorkingDayTextMeaning | Workshop/TimeSlotsController.swift:147-159 | the result names the first working day after the given date; an unreadable key comes back unchanged |
| TimeSlots.TimeSlotsController.constructor | Workshop/TimeSlotsController.swift:9-21 | an empty calendar and template; the apartment details as handed over |
| TimeSlots.TimeSlotsController.GenerateWorkingDays | Workshop/TimeSlotsController.swift:30-47 | adds exactly the keys of the next five working days from today, each with no times |
| TimeSlots.TimeSlotsController.AddTimeSlot | Workshop/TimeSlotsController.swift:49-83 | refused at eight times or for a duplicate time; otherwise the time is appended and every day gets the template; at most eight distinct times are kept |
| TimeSlots.TimeSlotsController.ApplySlotsToAllDays | Workshop/TimeSlotsController.swift:92-99 | the same days, each holding exactly the selected times, all active |
| TimeSlots.TimeSlotsController.UpdateSlots | Workshop/TimeSlotsController.swift:108-120 | only today's past slots are deactivated, because the relocation branch cannot run |
| TimeSlots.TimeSlotsController.UpdateSlotsForNextDay | Workshop/TimeSlotsController.swift:122-130 | today's times are relocated to the next working day; a missing today changes nothing |
| TimeSlots.TimeSlotsController.DeactivatePastTimeSlots | Workshop/TimeSlotsController.swift:132-145 | only today's day changes, to `PastDeactivated`; a missing today changes nothing |
| TimeSlots.TimeSlotsController.GetNextWorkingDay | Workshop/TimeSlotsController.swift:147-159 | the loop returns the key of the first working day after the date |
| TimeSlots.TimeSlotsController.SectionDate | Workshop/TimeSlotsController.swift:173-175 | a section's header is a date of the calendar, after every earlier header |
| TimeSlots.TimeSlotsController.RowTime | Workshop/TimeSlotsController.swift:185-186 | a row's time is a time of its section's day |
| TimeSlots.TimeSlotsController.ToggleSlot | Workshop/TimeSlotsController.swift:201-215 | refused exactly for an inactive slot; the calendar becomes `Toggled` |
| TimeSlots.TimeSlotsController.DeleteRow | Workshop/TimeSlotsController.swift:221-231 | the calendar becomes `SlotRemoved` for the row's date and time |
| TimeSlots.TimeSlotsController.SaveApartmentData | Workshop/TimeSlotsController.swift:234-266 | refused without a user or an apartment id; otherwise one write of the apartment record |
| TimeSlots.TimeSlotsController.ApartmentRecord | Workshop/TimeSlotsController.swift:245-256 | exactly ten keys: the apartment id, the seller, the calendar, and each of the seven details as given or "N/A" when missing |
| Apartments.Apartment.constructor | Workshop/Apartment.swift:13-22 | every argument is stored; there is no average rating yet |
| Apartments.Apartment.SetAverageRating | Workshop/ApartmentsViewController.swift:98 | only the average rating changes |
| ApartmentDetail.IsFutureMeaning | Workshop/ApartmentDetailViewController.swift:237-246 | a slot is open exactly when its date and time parse and the instant is not before now |
| ApartmentDetail.CalendarSlotIsFuture | Workshop/ApartmentDetailViewController.swift:237-246 | a calendar slot is open exactly when its instant has not passed |
| ApartmentDetail.Rows | Workshop/ApartmentDetailViewController.swift:256-266 | a day's rows are its active open times, each once, in ascending order |
| ApartmentDetail.BookingRecord | Workshop/ApartmentDetailViewController.swift:65-75 | nine keys: the ids, the slot "<date> <time>", "pending", not visited, both ratings 0, and no "status" key |
| ApartmentDetail.SellerNotice | Workshop/ApartmentDetailViewController.swift:88-92 | the notice has a title, a message and the booking id, with the title "New Booking Request" |
| ApartmentDetail.ApartmentDetailView.constructor | Workshop/ApartmentDetailViewController.swift:9-12 | the list and index as handed over; no slot selected |
| ApartmentDetail.ApartmentDetailView.SectionCount | Workshop/ApartmentDetailViewController.swift:222-224 | one section per date key |
| ApartmentDetail.ApartmentDetailView.SectionTitle | Workshop/ApartmentDetailViewController.swift:226-228 | a section header is a date of the calendar |
| ApartmentDetail.ApartmentDetailView.Headers | Workshop/ApartmentDetailViewController.swift:226-228 | headers are strictly ascending, and every date heads a section |
| ApartmentDetail.ApartmentDetailView.RowCount | Workshop/ApartmentDetailViewController.swift:230-248 | a section has as many rows as its day has active open times |
| ApartmentDetail.ApartmentDetailView.RowTitle | Workshop/ApartmentDetailViewController.swift:249-273 | a row laid out at one instant and drawn at a later one is in range exactly when it is below the row count at the later instant, and out of range traps; in range it shows an active time of its day that has not passed |
| ApartmentDetail.ApartmentDetailView.RowsOfSection | Workshop/ApartmentDetailViewController.swift:249-273 | rows are strictly ascending, and every active open time has a row |
| ApartmentDetail.ApartmentDetailView.SelectRow | Workshop/ApartmentDetailViewController.swift:274-293 | a row tapped at a later instant than it was laid out is in range exactly when it is below the row count at the tap, and out of range traps with no selection; in range the selection becomes the section date and the time at that row at the tap |
| ApartmentDetail.RowsOnlyClose | Workshop/ApartmentDetailViewController.swift:237-246 | as time passes a day gains no open time, so its row count never grows |
| ApartmentDetail.LastRowVanishes | Workshop/ApartmentDetailViewController.swift:265-266 | a day whose one time is 09:00 has one row at 09:00 and none a second later, so a row laid out at 09:00 is out of range after it |
| ApartmentDetail.FirstRowShifts | Workshop/ApartmentDetailViewController.swift:286-289 | with 09:00 and 10:00, the first row holds 09:00 at 09:00 and 10:00 a second later, so a tap selects a later time than the one shown |
| ApartmentDetail.ApartmentDetailView.SetupUI | Workshop/ApartmentDetailViewController.swift:131-135 | shows the apartment at an index in range; an index out of range changes nothing |
| ApartmentDetail.ApartmentDetailView.ViewDidLoad | Workshop/ApartmentDetailViewController.swift:32-39 | an empty list shows nothing; otherwise the current apartment is shown |
| ApartmentDetail.ApartmentDetailView.SwipeLeft | Workshop/ApartmentDetailViewController.swift:180-187 | moves to the next apartment unless on the last; the index stays in range |
| ApartmentDetail.ApartmentDetailView.SwipeRight | Workshop/ApartmentDetailViewController.swift:189-196 | moves to the previous apartment unless on the first; the index stays in range |
| ApartmentDetail.ApartmentDetailView.BookButtonTapped | Workshop/ApartmentDetailViewController.swift:52-92 | no write without a selection or a buyer; otherwise the pending booking is written, then the seller's notice once it is stored |
| NotificationModels.NotificationFrom | Workshop/NotificationModel.swift:19-28 | each field is the record's text for its key, or its fallback ("" for ids, "Unknown", "pending" for the status) |
| NotificationModels.DecodeEncode | Workshop/NotificationModel.swift:19-28 | a row reads back unchanged from its own record |
| NotificationModels.EmptyRecordDefaults | Workshop/NotificationModel.swift:21-27 | a record with no keys gives the all-fallback row |
| NotificationModels.OtherKeysIgnored | Workshop/NotificationModel.swift:19-28 | keys other than the seven read do not affect the row |
| Notifications.WithBuyer | Workshop/NotificationsViewController.swift:41-50 | the booking record gains the buyer's name and phone from their user record ("Unknown" when missing); every other key is kept |
| Notifications.LoadedRows | Workshop/NotificationsViewController.swift:39-53 | one row per booking, in order, with the booking's key as id and its booking id, slot and status |
| Notifications.RowFor | Workshop/NotificationsViewController.swift:41-52 | ids, slot and status come from the booking; the name and phone come from the buyer's user record or are "Unknown" |
| Notifications.FirstIndexOf | Workshop/NotificationsViewController.swift:76 | the first index with the id, or none when no row has it |
| Notifications.Patched | Workshop/NotificationsViewController.swift:76-92 | a change event rebuilds only the first row with the id; the length is kept; an unknown id changes nothing |
| Notifications.WithStatus | Workshop/NotificationsViewController.swift:171-173 | the decision changes only the status of the first row with the id; there is such a row exactly when some row has the id |
| Notifications.IsTimeSlotExpired | Workshop/NotificationsViewController.swift:140-147 | expired means the slot reads as an instant before now; the fallback "Unknown" never expires |
| Notifications.ExpiredStaysExpired | Workshop/NotificationsViewController.swift:140-147 | once expired, a slot stays expired |
| Notifications.Cell | Workshop/NotificationsViewController.swift:120-128 | an expired row says so and hides both buttons; otherwise it shows the capitalised status; both buttons show or hide together |
| Notifications.ButtonsShown | Workshop/NotificationsViewController.swift:120-128 | the buttons show exactly for a pending, unexpired request |
| Notifications.BuyerNotice | Workshop/NotificationsViewController.swift:187-192 | the notice carries the decision and the title "Booking <Decision>" |
| Notifications.NotifyBuyer | Workshop/NotificationsViewController.swift:187-194 | the notice is appended to the buyer's notification list and carries the decision |
| Notifications.DecisionWrite | Workshop/NotificationsViewController.swift:162 | the decision updates only the booking's "sellerDecision" |
| Notifications.NotificationsView.constructor | Workshop/NotificationsViewController.swift:7 | the feed starts empty |
| Notifications.NotificationsView.Reload | Workshop/NotificationsViewController.swift:28-60 | the feed is cleared; a table of bookings gives one row per booking, in order |
| Notifications.NotificationsView.UpdateNotification | Workshop/NotificationsViewController.swift:72-103 | the feed becomes the patched feed |
| Notifications.NotificationsView.ApplyPatch | Workshop/NotificationsViewController.swift:86-93 | the row is replaced only while its index is in range |
| Notifications.NotificationsView.AcceptBooking | Workshop/NotificationsViewController.swift:149-153 | no effect out of range; otherwise writes "accepted" and, once stored, updates the row and notifies the buyer |
| Notifications.NotificationsView.RejectBooking | Workshop/NotificationsViewController.swift:155-159 | the same, with "rejected" |
| Notifications.NotificationsView.UpdateBookingStatus | Workshop/NotificationsViewController.swift:161-186 | the decision write; once stored, the row's status and one notice to the buyer |
| RateApartment.DecodeBooking | Workshop/RateApartmentViewController.swift:29-46 | a child is kept exactly when it is a record with all nine typed fields; the booking then has a time slot |
| RateApartment.DecodedFields | Workshop/RateApartmentViewController.swift:57-67 | every field of a decoded booking is the record's value for its key |
| RateApartment.DecodeEncodeBooking | Workshop/RateApartmentViewController.swift:35-67 | a booking with a time slot reads back unchanged from its record |
| RateApartment.IsEligible | Workshop/RateApartmentViewController.swift:51-55 | an eligible booking is the user's own, accepted, and its slot passed less than 24 hours ago |
| RateApartment.EligibleBookings | Workshop/RateApartmentViewController.swift:27-70 | no more bookings than children, each eligible and with a time slot |
| RateApartment.EligibilityIgnoresVisitAndRatings | Workshop/RateApartmentViewController.swift:51-55 | eligibility does not depend on `visited` or on earlier ratings |
| RateApartment.EligibleBookingsExactly | Workshop/RateApartmentViewController.swift:27-70 | the list holds exactly the eligible decoded bookings, no more than there are children |
| RateApartment.CollectEligible | Workshop/RateApartmentViewController.swift:27-70 | the loop collects the eligible bookings in order |
| RateApartment.Truncate | Workshop/RateApartmentViewController.swift:95 | `Int(x)` cuts toward zero, for both signs |
| RateApartment.TruncateWhole | Workshop/RateApartmentViewController.swift:95 | a whole rating is shown as itself |
| RateApartment.RatingWrite | Workshop/RateApartmentViewController.swift:116 | one Put of the booking's "ratingApartment", whose value is shown as the chosen rating |
| RateApartment.RatingChangesOnlyRating | Workshop/RateApartmentViewController.swift:116 | the rating write changes the decoded booking in its apartment rating only and keeps it eligible |
| RateApartment.RateApartmentView.constructor | Workshop/RateApartmentViewController.swift:8 | the list starts empty |
| RateApartment.RateApartmentView.FetchEligibleBookings | Workshop/RateApartmentViewController.swift:19-79 | nothing without a user; otherwise the list becomes the eligible bookings |
| RateApartment.RatingOptions | Workshop/RateApartmentViewController.swift:104-113 | the ratings offered are 1 to 5, in order |
| Stars.StarRow | Workshop/RatingCell.swift:18-19 | five stars; star i is filled exactly when i < rating |
| Stars.FilledCount | Workshop/RatingCell.swift:15-26 | the number of filled stars is the rating clamped to 0..5 |
| Stars.FilledFirst | Workshop/RatingCell.swift:18-19 | filled stars come before empty ones |
| Stars.RatingCell.constructor | Workshop/RatingCell.swift:13 | the cell starts with no stars |
| Stars.RatingCell.ConfigureStars | Workshop/RatingCell.swift:15-26 | the cell shows the rating's star row, whatever it showed before |
| ApartmentsList.SlotsRoundTrip | Workshop/ApartmentsViewController.swift:72 | a calendar as saved reads back as `[String: [String: Bool]]` unchanged |
| ApartmentsList.ApartmentFields | Workshop/ApartmentsViewController.swift:66-90 | a child is kept exactly when the five texts and the calendar have the right types, with the child's key as id |
| ApartmentsList.Ratings | Workshop/ApartmentsViewController.swift:95 | there are no more ratings than bookings |
| ApartmentsList.AverageRating | Workshop/ApartmentsViewController.swift:93-100 | no rating exactly when the snapshot is not a table or has no numeric rating |
| ApartmentsList.AverageWithinRatings | Workshop/ApartmentsViewController.swift:95-97 | the mean lies between the lowest and the highest rating |
| ApartmentsList.DecodedExactly | Workshop/ApartmentsViewController.swift:66-104 | malformed children are skipped and every well-formed child is listed |
| ApartmentsList.MatchingExactly | Workshop/ApartmentsViewController.swift:185 | the search keeps exactly the apartments whose location contains the text, ignoring ASCII case |
| ApartmentsList.MatchingConcat | Workshop/ApartmentsViewController.swift:185 | the search keeps the list's order |
| ApartmentsList.MatchingEmpty | Workshop/ApartmentsViewController.swift:182-188 | the empty search shows all apartments: filtering by the empty text would keep the whole list, as the shortcut does |
| ApartmentsList.ApartmentsView.constructor | Workshop/ApartmentsViewController.swift:15-16 | empty lists and search text |
| ApartmentsList.ApartmentsView.FetchApartments | Workshop/ApartmentsViewController.swift:56-112 | a non-table changes nothing; otherwise the list holds new apartments for the decoded children, and the filter shows them all |
| ApartmentsList.ApartmentsView.SearchTextChanged | Workshop/ApartmentsViewController.swift:181-188 | the empty text shows all apartments; other texts show the matching ones |
| ApartmentsList.ApartmentsView.Cancel | Workshop/ApartmentsViewController.swift:190-195 | the text is cleared and all apartments are shown |
| ApartmentsList.ApartmentsView.ShowDetail | Workshop/ApartmentsViewController.swift:169-178 | the detail screen gets the filtered list and the index; it is valid for an index in range |
| Lifecycle.RequestedBooking | Workshop/ApartmentDetailViewController.swift:65-75 | a request reads back as a pending, unvisited, unrated booking of the slot, which nobody may rate yet |
| Lifecycle.DecisionNotReloaded | Workshop/NotificationModel.swift:27 | after a decision, a reloaded feed row still says "pending", while the rating screen sees the decision |
| Lifecycle.DecisionRecorded | Workshop/NotificationsViewController.swift:162 | the decision merged into a readable booking record changes the decoded booking in its decision alone |
| Lifecycle.AcceptedSlotRatingWindow | Workshop/RateApartmentViewController.swift:51-55 | an accepted calendar slot may be rated by its buyer exactly in the 24 hours after it |
| Lifecycle.ExpiredIffClosed | Workshop/NotificationsViewController.swift:140-147 | a readable slot is expired for the seller exactly when it is closed to buyers |
| Lifecycle.UnratedBookingCounts | Workshop/ApartmentDetailViewController.swift:73 | an unrated booking's rating 0 counts in the average, so one unrated booking gives the rating 0 |
| Lifecycle.SavedApartmentListed | Workshop/TimeSlotsController.swift:245-256 | a saved apartment whose calendar has at least one time on every day is listed with its saved details and calendar and no rating |
| Lifecycle.SubmittedRatingStars | Workshop/RateApartmentViewController.swift:106-116 | a submitted rating of k stars is drawn with k filled stars |

## Left out

- The database, Auth, Storage and notification centre are not modelled as services. Snapshots are inputs. Writes are returned values. Success of a write is a parameter. The signed-in user is a parameter.
- Listener lifetimes are left out. The `.value` and `.childChanged` observers and the observer added again by every `submitRating` are not modelled: one snapshot or event is one call.
- Asynchronous ordering is left out. DispatchQueue, DispatchGroup and barrier blocks are not modelled. Callbacks are taken in iteration order. This includes the order in which per-apartment and per-buyer lookups complete and race with each other.
- `ApartmentDetail.ApartmentDetailView.BookButtonTapped`: the seller of the notice is the apartment on screen when the button was tapped. The source reads `currentIndex` again inside the write callback, so a swipe in between is not modelled.
- `Notifications.NotificationsView.UpdateBookingStatus`: the row update uses the index found before the barrier block. A concurrent reload that shortens the list in between is not modelled.
- Images, image download, UI labels, colours, alerts, local notifications (`UNUserNotificationCenter`), gestures and the logout buttons are presentation only.
- `fetchSellerName` and `fetchPhoneNumber` (ApartmentDetailViewController.swift:198-218) only fill labels.
- The cell texts of every table are left out, apart from the notification status and buttons and the star row.
- `updateBookingStatus(bookingId:status:)` of ApartmentDetailViewController.swift:111-119 is never called and is left out.
- `isValidTimeFormat` (TimeSlotsController.swift:101-105) is never called and is left out.
- `updateSlots()` (TimeSlotsController.swift:108-120) is never called. It is modelled as `TimeSlots.TimeSlotsController.UpdateSlots` for what it would do, but the app never reaches that behaviour.
- `ApartmentDetail.ApartmentDetailView.RowTitle` and `SelectRow`: an index out of range, which traps in the source and ends the app, is modelled as no title and no selection. The app's termination is not modelled. Both callbacks read the current instant again, and the model takes the instant the rows were laid out and the instant of the callback as two parameters.
- The switch's `isEnabled` (TimeSlotsController.swift:194) is display only. Its effect is the refusal in `ToggleSlot`.
- The flattened `timeSlots` list built in `fetchApartments` (ApartmentsViewController.swift:76-80) is never used and is left out.
- Dates are day numbers and date keys are their decimal numerals. "yyyy-MM-dd" rendering is not modelled.
  - The String order of numerals of different lengths is not calendar order. For "yyyy-MM-dd" keys of four-digit years the two agree. The model proves ordering facts about String order only.
- Time zones, daylight saving and calendar arithmetic are fixed. A day is 86400 seconds in one zone.
- Floating point is left out. `Float` and `Double` ratings are `real`, so rounding in the average is not modelled. NaN and out-of-range values for `Int(x)` are not modelled either.
- NSNumber bridging is left out. A boolean stored as 0/1 is not read as a number, or the reverse. A number is read by both `as? Float` and `as? Double`.
- `Text.Lowercased` and `Text.Capitalized` cover ASCII letters only. Unicode case mapping is left out. `capitalized` treats only spaces as word breaks.
- `ApartmentsList.SlotsRoundTrip`: the database drops empty objects, so a day with no times, or an empty calendar, is not stored as written. The lemma is about the calendar value as written. `Lifecycle.SavedApartmentListed` requires a calendar with no empty day for that reason.
- `Text.Contains` finds the empty text in every text (`Text.ContainsEmpty`). Foundation's `contains` reports an empty needle as absent on toolchains before Swift 5.7. The source never reaches that case, because an empty search is handled before the filter (ApartmentsViewController.swift:182-183).
- `ApartmentsList.Ratings`: the contract states only the count. The values are tied to the records through `AverageRating` and `Lifecycle.UnratedBookingCounts`.
- `RateApartment.RateApartmentView.StarsFor` (RateApartmentViewController.swift:95) has no contract of its own. Its meaning is `RateApartment.Truncate` with `Lifecycle.SubmittedRatingStars`.
- The login, registration and apartment-entry screens (ViewController.swift, ApartmentDetailsController.swift, LocationSelectionController.swift, ApartmentsImageViewController.swift), User.swift and the table cells other than RatingCell are not part of this model.
