/** The booking ledger: creating online and offline bookings, and the
    admin's per-date room count. */
module Ledger {
  import opened Js
  import opened Http
  import opened Config

  datatype BookingType = Online | Offline

  /** A stored booking. Records read back from the bookings file need not
      have been written by this server: a missing `rooms` is None and a
      missing `date` is "". */
  datatype Booking = Booking(
    id: string,
    bookingType: BookingType,
    name: string,
    email: string,
    phone: string,
    address: string,
    roomNumbers: Json,
    rooms: Option<int>,
    date: string,
    payment: string,
    document: Option<string>,
    createdAt: string)

  /** The text fields of a booking request; `roomNumbers` is whatever JSON
      value the client sent (a string for a multipart form). */
  datatype BookingForm = BookingForm(
    name: Option<string>,
    email: Option<string>,
    phone: Option<string>,
    address: Option<string>,
    roomNumbers: Option<Json>,
    date: Option<string>,
    payment: Option<string>)

  /** JSON.parse: a value, or None when the text is not JSON. */
  type Parser = string -> Option<Json>

  const MissingFields := Failure(400, "Missing required fields")

  /** The room list the handlers work with: a string field is parsed as JSON
      (the empty list when that fails), an array is taken as it is, and
      anything else gives the empty list. */
  function ParseRoomNumbers(field: Option<Json>, parse: Parser): Json {
    match field
    case Some(JStr(text)) =>
      (match parse(text)
       case Some(v) => v
       case None => JArr([]))
    case Some(JArr(items)) => JArr(items)
    case _ => JArr([])
  }

  /** The contact fields each kind of booking requires: name, email and phone
      online; name and phone offline. */
  predicate ContactGiven(kind: BookingType, form: BookingForm) {
    match kind
    case Online => Truthy(form.name) && Truthy(form.email) && Truthy(form.phone)
    case Offline => Truthy(form.name) && Truthy(form.phone)
  }

  /** `!parsedRoomNumbers.length`: a length of 0 and an undefined length are falsy. */
  predicate HasRooms(parsed: Json) {
    LengthOf(parsed).Len? && LengthOf(parsed).n > 0
  }

  /** POST /api/bookings (Online) and POST /api/admin/bookings/offline
      (Offline, after authentication). The checks run left to right, so
      reading `.length` of a parsed `null` throws only once the contact
      fields are present. `id`, `document` and `createdAt` are the uuid, the
      uploaded file's stored name and the timestamp. */
  function NewBooking(kind: BookingType, form: BookingForm, parse: Parser, id: string,
                      document: Option<string>, createdAt: string): (r: Result<Booking>)
    ensures var parsed := ParseRoomNumbers(form.roomNumbers, parse);
      && (r.Ok? <==> ContactGiven(kind, form) && HasRooms(parsed) && Truthy(form.date))
      && (r == Err(Crash) <==> ContactGiven(kind, form) && parsed == JNull)
      && (r.Err? && r != Err(Crash) ==> r == Err(MissingFields))
    ensures r.Ok? ==>
      var b := r.value;
      && b.id == id && b.bookingType == kind && b.document == document && b.createdAt == createdAt
      && b.roomNumbers == ParseRoomNumbers(form.roomNumbers, parse)
      && b.rooms == Some(LengthOf(b.roomNumbers).n) && b.rooms.value > 0
      && Some(b.name) == form.name && Some(b.phone) == form.phone && Some(b.date) == form.date
      && b.payment == OrElse(form.payment, "pending")
      && (kind == Online ==> Some(b.email) == form.email
                             && b.address == OrElse(form.address, ""))
      && (kind == Offline ==> b.email == "" && b.address == "")
  {
    var parsed := ParseRoomNumbers(form.roomNumbers, parse);
    if !ContactGiven(kind, form) then Err(MissingFields)
    else if parsed == JNull then Err(Crash)
    else if !HasRooms(parsed) || !Truthy(form.date) then Err(MissingFields)
    else
      var email := if kind == Online then form.email.value else "";
      var address := if kind == Online then OrElse(form.address, "") else "";
      Ok(Booking(id, kind, form.name.value, email, form.phone.value, address, parsed,
                 Some(LengthOf(parsed).n), form.date.value, OrElse(form.payment, "pending"),
                 document, createdAt))
  }

  /** A room list that is sent as text and is not JSON is rejected with 400. */
  lemma UnparseableRoomsRejected(kind: BookingType, form: BookingForm, parse: Parser, id: string,
                                 document: Option<string>, createdAt: string)
    requires form.roomNumbers.Some? && form.roomNumbers.value.JStr?
    requires parse(form.roomNumbers.value.s).None?
    ensures NewBooking(kind, form, parse, id, document, createdAt) == Err(MissingFields)
  {
  }

  /** A room list that parses to a JSON string passes validation, and its
      character count becomes the booking's room count. */
  lemma StringRoomListAccepted(kind: BookingType, form: BookingForm, parse: Parser, id: string,
                               document: Option<string>, createdAt: string, inner: string)
    requires ContactGiven(kind, form) && Truthy(form.date)
    requires form.roomNumbers.Some? && form.roomNumbers.value.JStr?
    requires parse(form.roomNumbers.value.s) == Some(JStr(inner)) && inner != ""
    ensures NewBooking(kind, form, parse, id, document, createdAt).Ok?
    ensures NewBooking(kind, form, parse, id, document, createdAt).value.rooms == Some(|inner|)
  {
  }

  // ---------------------------------------------------------------------
  // GET /api/admin/availability
  // ---------------------------------------------------------------------

  /** `b.rooms || 0` */
  function RoomsOrZero(b: Booking): int {
    match b.rooms
    case Some(n) => n
    case None => 0
  }

  /** `bookings.filter(b => b.date === date)` */
  function OnDate(bookings: seq<Booking>, date: string): (r: seq<Booking>)
    ensures |r| <= |bookings|
    ensures forall b :: b in r ==> b in bookings && b.date == date
    ensures forall b :: b in bookings && b.date == date ==> b in r
  {
    if bookings == [] then []
    else (if bookings[0].date == date then [bookings[0]] else []) + OnDate(bookings[1..], date)
  }

  /** The filter keeps every booking on `date` as often as the ledger holds
      it and drops every other one. */
  lemma {:induction false} OnDateCounts(bookings: seq<Booking>, date: string)
    ensures forall b :: multiset(OnDate(bookings, date))[b] ==
                        if b.date == date then multiset(bookings)[b] else 0
  {
    if bookings != [] {
      OnDateCounts(bookings[1..], date);
      assert bookings == [bookings[0]] + bookings[1..];
    }
  }

  /** `bookings.reduce((sum, b) => sum + (b.rooms || 0), acc)` */
  function SumRooms(bookings: seq<Booking>, acc: int): int {
    if bookings == [] then acc else SumRooms(bookings[1..], acc + RoomsOrZero(bookings[0]))
  }

  /** The rooms booked on `date` according to the ledger alone. */
  function RoomsUsed(bookings: seq<Booking>, date: string): int {
    SumRooms(OnDate(bookings, date), 0)
  }

  datatype AvailabilityReport = AvailabilityReport(date: string, total: int, used: int, available: int)

  /** The admin's per-date count: the inventory minus the rooms the ledger
      holds on that date, not clamped at zero; the occupancy table plays no
      part. */
  function Availability(bookings: seq<Booking>, date: Option<string>): (r: Result<AvailabilityReport>)
    ensures r.Err? <==> !Truthy(date)
    ensures r.Err? ==> r.failure == DateRequired
    ensures r.Ok? ==> r.value.date == date.value && r.value.total == TotalRooms
                      && r.value.used == RoomsUsed(bookings, date.value)
                      && r.value.used + r.value.available == TotalRooms
  {
    if !Truthy(date) then Err(DateRequired)
    else
      var used := RoomsUsed(bookings, date.value);
      Ok(AvailabilityReport(date.value, TotalRooms, used, TotalRooms - used))
  }

  lemma {:induction false} OnDateAppend(bookings: seq<Booking>, b: Booking, date: string)
    ensures OnDate(bookings + [b], date) == OnDate(bookings, date) + (if b.date == date then [b] else [])
    decreases |bookings|
  {
    if bookings != [] {
      assert (bookings + [b])[1..] == bookings[1..] + [b];
      OnDateAppend(bookings[1..], b, date);
    }
  }

  lemma {:induction false} SumRoomsAppend(bookings: seq<Booking>, b: Booking, acc: int)
    ensures SumRooms(bookings + [b], acc) == SumRooms(bookings, acc) + RoomsOrZero(b)
    decreases |bookings|
  {
    if bookings == [] {
      assert [b][1..] == [];
    } else {
      assert (bookings + [b])[1..] == bookings[1..] + [b];
      SumRoomsAppend(bookings[1..], b, acc + RoomsOrZero(bookings[0]));
    }
  }

  /** Appending a booking adds its rooms to the count for its own date and
      leaves every other date's count unchanged. */
  lemma RoomsUsedAppend(bookings: seq<Booking>, b: Booking, date: string)
    ensures RoomsUsed(bookings + [b], date)
            == RoomsUsed(bookings, date) + (if b.date == date then RoomsOrZero(b) else 0)
  {
    OnDateAppend(bookings, b, date);
    if b.date == date {
      SumRoomsAppend(OnDate(bookings, date), b, 0);
    } else {
      assert OnDate(bookings + [b], date) == OnDate(bookings, date) + [];
      assert OnDate(bookings, date) + [] == OnDate(bookings, date);
    }
  }

  /** The reduction starts from `acc` and adds each booking's rooms. */
  lemma {:induction false} SumRoomsLowerBound(bookings: seq<Booking>, acc: int)
    requires forall b :: b in bookings ==> RoomsOrZero(b) >= 0
    ensures SumRooms(bookings, acc) >= acc
    decreases |bookings|
  {
    if bookings != [] {
      SumRoomsLowerBound(bookings[1..], acc + RoomsOrZero(bookings[0]));
    }
  }

  /** With no negative room counts in the ledger, availability never exceeds
      the inventory. */
  lemma AvailabilityAtMostTotal(bookings: seq<Booking>, date: string)
    requires forall b :: b in bookings ==> RoomsOrZero(b) >= 0
    ensures Availability(bookings, Some(date)).Ok? ==> Availability(bookings, Some(date)).value.available <= TotalRooms
  {
    SumRoomsLowerBound(OnDate(bookings, date), 0);
  }

  /** Creating a booking lowers the availability of its date by its room
      count, and leaves every other date's availability as it was. */
  lemma AvailabilityAfterBooking(bookings: seq<Booking>, kind: BookingType, form: BookingForm, parse: Parser,
                                 id: string, document: Option<string>, createdAt: string, date: string)
    requires NewBooking(kind, form, parse, id, document, createdAt).Ok?
    requires date != ""
    ensures var b := NewBooking(kind, form, parse, id, document, createdAt).value;
            var before := Availability(bookings, Some(date)).value;
            var after := Availability(bookings + [b], Some(date)).value;
            after.available == before.available - (if b.date == date then LengthOf(b.roomNumbers).n else 0)
  {
    var b := NewBooking(kind, form, parse, id, document, createdAt).value;
    RoomsUsedAppend(bookings, b, date);
  }

  /** Availability is not clamped: a ledger holding 31 rooms on a date
      reports -1 available rooms for it. */
  lemma AvailabilityNotClamped(b: Booking)
    requires b.date == "2024-05-01" && b.rooms == Some(TotalRooms + 1)
    ensures Availability([b], Some("2024-05-01")) == Ok(AvailabilityReport("2024-05-01", TotalRooms, TotalRooms + 1, -1))
  {
    assert OnDate([b], b.date) == [b];
    assert [b][1..] == [];
    assert RoomsUsed([b], b.date) == SumRooms([], RoomsOrZero(b));
  }
}
