/** The backend's state and its route handlers: the admin credential record,
    the bookings file and the room-occupancy file, each held in memory. */
module Server {
  import opened Js
  import opened Http
  import opened Config
  import opened Credentials
  import opened Ledger
  import opened Occupancy

  const PasswordChanged := "Password changed successfully. Please re-login."
  const PasswordReset := "Password reset to default. Use the default credentials to login."

  /** The body of a successful toggle. */
  datatype ToggleReply = ToggleReply(action: Action, roomNumber: RoomRef, message: string)

  function ToggleMessage(action: Action): string {
    match action
    case Booked => "Room is now booked for all dates until checkout"
    case Unbooked => "Room is now available for all dates"
  }

  class HotelServer {
    /** The key derivation behind hashPassword and verifyPassword. */
    const kdf: Kdf
    /** JSON.parse, applied to a room list sent as text. */
    const parse: Parser
    /** ADMIN_PASS as configured: the password a reset restores. */
    const adminPass: string

    /** adminCreds, which every write to admin.json also updates. */
    var creds: CredentialRecord
    /** The contents of bookings.json; None while the file is absent or
        unparseable, which readBookings reads as the empty list. */
    var bookingsFile: Option<seq<Booking>>
    /** The contents of room-occupancy.json; None while the file is absent
        or unparseable, which readOccupancy reads as the empty object. */
    var occupancyFile: Option<Table>

    /** readBookings() */
    function Bookings(): seq<Booking>
      reads this
    {
      match bookingsFile
      case Some(bookings) => bookings
      case None => []
    }

    /** readOccupancy() */
    function OccupancyTable(): Table
      reads this
    {
      match occupancyFile
      case Some(table) => table
      case None => map[]
    }

    /** Start-up: loadAdmin keeps a readable admin.json, and otherwise seeds
        ADMIN_USER with ADMIN_PASS under the salt `seedSalt`. */
    constructor (kdf: Kdf, parse: Parser, adminUserEnv: Option<string>, adminPassEnv: Option<string>,
                 adminFile: Option<CredentialRecord>, bookingsFile: Option<seq<Booking>>,
                 occupancyFile: Option<Table>, seedSalt: Salt)
      ensures this.kdf == kdf && this.parse == parse
      ensures adminPass == OrElse(adminPassEnv, DefaultAdminPass)
      ensures adminFile.Some? ==> creds == adminFile.value
      ensures adminFile.None? ==> creds.username == Some(OrElse(adminUserEnv, DefaultAdminUser))
                                  && creds.salt == seedSalt && VerifyPassword(kdf, adminPass, creds)
      ensures this.bookingsFile == bookingsFile && this.occupancyFile == occupancyFile
    {
      this.kdf := kdf;
      this.parse := parse;
      adminPass := OrElse(adminPassEnv, DefaultAdminPass);
      creds := match adminFile
        case Some(stored) => stored
        case None => HashPassword(kdf, Some(OrElse(adminUserEnv, DefaultAdminUser)), OrElse(adminPassEnv, DefaultAdminPass), seedSalt);
      this.bookingsFile := bookingsFile;
      this.occupancyFile := occupancyFile;
    }

    /** POST /api/admin/login */
    method Login(username: Option<string>, password: Option<string>) returns (r: Result<Claims>)
      ensures r.Ok? <==> username == creds.username && password.Some? && VerifyPassword(kdf, password.value, creds)
      ensures r == Credentials.Login(kdf, creds, username, password)
    {
      r := Credentials.Login(kdf, creds, username, password);
    }

    /** POST /api/admin/change-password: authentication, then the ordered
        checks; only a successful change replaces the record. */
    method ChangePassword(auth: AuthHeader, oldPassword: Option<string>, newPassword: Option<string>, salt: Salt)
      returns (r: Result<string>)
      modifies this`creds
      ensures auth != ValidToken ==> r == Err(AuthFailure(auth)) && creds == old(creds)
      ensures auth == ValidToken ==>
        var outcome := Credentials.ChangePassword(kdf, old(creds), oldPassword, newPassword, salt);
        && (outcome.Err? ==> r == Err(outcome.failure) && creds == old(creds))
        && (outcome.Ok? ==> r == Ok(PasswordChanged) && creds == outcome.value)
    {
      if auth != ValidToken {
        return Err(AuthFailure(auth));
      }
      var outcome := Credentials.ChangePassword(kdf, creds, oldPassword, newPassword, salt);
      if outcome.Err? {
        return Err(outcome.failure);
      }
      creds := outcome.value;
      r := Ok(PasswordChanged);
    }

    /** POST /api/admin/reset-password, open to anyone who knows the username. */
    method ResetPassword(username: Option<string>, salt: Salt) returns (r: Result<string>)
      modifies this`creds
      ensures var outcome := Credentials.ResetPassword(kdf, old(creds), username, adminPass, salt);
        && (outcome.Err? ==> r == Err(outcome.failure) && creds == old(creds))
        && (outcome.Ok? ==> r == Ok(PasswordReset) && creds == outcome.value)
    {
      var outcome := Credentials.ResetPassword(kdf, creds, username, adminPass, salt);
      if outcome.Err? {
        return Err(outcome.failure);
      }
      creds := outcome.value;
      r := Ok(PasswordReset);
    }

    /** POST /api/bookings: a valid booking is appended to the file as read;
        a rejected one writes nothing. */
    method CreateOnlineBooking(form: BookingForm, id: string, document: Option<string>, createdAt: string)
      returns (r: Result<Booking>)
      modifies this`bookingsFile
      ensures r == NewBooking(Online, form, parse, id, document, createdAt)
      ensures r.Ok? ==> bookingsFile == Some(old(Bookings()) + [r.value])
      ensures r.Err? ==> bookingsFile == old(bookingsFile)
    {
      r := NewBooking(Online, form, parse, id, document, createdAt);
      if r.Ok? {
        bookingsFile := Some(Bookings() + [r.value]);
      }
    }

    /** POST /api/admin/bookings/offline: authentication first, then as an
        online booking but with the offline rules. */
    method CreateOfflineBooking(auth: AuthHeader, form: BookingForm, id: string, document: Option<string>,
                                createdAt: string)
      returns (r: Result<Booking>)
      modifies this`bookingsFile
      ensures auth != ValidToken ==> r == Err(AuthFailure(auth)) && bookingsFile == old(bookingsFile)
      ensures auth == ValidToken ==> r == NewBooking(Offline, form, parse, id, document, createdAt)
      ensures r.Ok? ==> bookingsFile == Some(old(Bookings()) + [r.value])
      ensures r.Err? ==> bookingsFile == old(bookingsFile)
    {
      if auth != ValidToken {
        return Err(AuthFailure(auth));
      }
      r := NewBooking(Offline, form, parse, id, document, createdAt);
      if r.Ok? {
        bookingsFile := Some(Bookings() + [r.value]);
      }
    }

    /** GET /api/admin/bookings */
    method ListBookings(auth: AuthHeader) returns (r: Result<seq<Booking>>)
      ensures auth != ValidToken ==> r == Err(AuthFailure(auth))
      ensures auth == ValidToken ==> r == Ok(Bookings())
    {
      if auth != ValidToken {
        return Err(AuthFailure(auth));
      }
      r := Ok(Bookings());
    }

    /** GET /api/admin/availability */
    method Availability(auth: AuthHeader, date: Option<string>) returns (r: Result<AvailabilityReport>)
      ensures auth != ValidToken ==> r == Err(AuthFailure(auth))
      ensures auth == ValidToken ==> r == Ledger.Availability(Bookings(), date)
    {
      if auth != ValidToken {
        return Err(AuthFailure(auth));
      }
      r := Ledger.Availability(Bookings(), date);
    }

    /** GET /api/rooms/status, public; `keys` is Object.keys of the table. */
    method RoomsStatus(date: Option<string>, keys: seq<string>) returns (r: Result<StatusReport>)
      requires EnumeratesKeys(keys, OccupancyTable())
      ensures r == RoomStatus(OccupancyTable(), keys, date)
    {
      r := RoomStatus(OccupancyTable(), keys, date);
    }

    /** POST /api/admin/rooms/toggle: authentication, then both fields must be
        truthy; the date plays no further part. The table is written back
        whichever way the room flips. */
    method ToggleRoom(auth: AuthHeader, date: Option<string>, roomNumber: Option<RoomRef>, now: string)
      returns (r: Result<ToggleReply>)
      modifies this`occupancyFile
      ensures auth != ValidToken ==> r == Err(AuthFailure(auth)) && occupancyFile == old(occupancyFile)
      ensures auth == ValidToken && (!Truthy(date) || !RoomGiven(roomNumber)) ==>
        r == Err(RoomAndDateRequired) && occupancyFile == old(occupancyFile)
      ensures auth == ValidToken && Truthy(date) && RoomGiven(roomNumber) ==>
        var toggled := Toggle(old(OccupancyTable()), roomNumber.value, now);
        && occupancyFile == Some(toggled.table)
        && r == Ok(ToggleReply(toggled.action, roomNumber.value, ToggleMessage(toggled.action)))
    {
      if auth != ValidToken {
        return Err(AuthFailure(auth));
      }
      if !Truthy(date) || !RoomGiven(roomNumber) {
        return Err(RoomAndDateRequired);
      }
      var toggled := Toggle(OccupancyTable(), roomNumber.value, now);
      occupancyFile := Some(toggled.table);
      r := Ok(ToggleReply(toggled.action, roomNumber.value, ToggleMessage(toggled.action)));
    }
  }

  /** A client of the server: toggling room 5 books it for every date, and
      toggling it again frees it. */
  method RoomScenario(kdf: Kdf, parse: Parser, salt: Salt, date: string)
    requires date != ""
  {
    var server := new HotelServer(kdf, parse, None, None, None, None, None, salt);
    var toggled := server.ToggleRoom(ValidToken, Some(date), Some(RoomNum(5)), "t1");
    assert toggled.Ok? && toggled.value.action == Booked;
    var key := RoomKey(RoomNum(5));
    RoomNumberKey(5);
    assert server.OccupancyTable().Keys == {key};
    var status := server.RoomsStatus(Some(date), [key]);
    assert Num(5) in status.value.bookedRooms && 5 !in status.value.availableRooms;
    assert 4 in status.value.availableRooms;
    toggled := server.ToggleRoom(ValidToken, Some(date), Some(RoomNum(5)), "t2");
    assert toggled.Ok? && toggled.value.action == Unbooked;
    assert server.OccupancyTable() == map[];
    status := server.RoomsStatus(Some(date), []);
    assert status.value.bookedRooms == [];
    assert 5 in status.value.availableRooms;
  }

  /** A client of the server: two bookings on one date, for rooms [3, 7] and
      [10], leave 27 of the 30 rooms available on that date. */
  method LedgerScenario(kdf: Kdf, parse: Parser, salt: Salt)
  {
    var server := new HotelServer(kdf, parse, None, None, None, None, None, salt);
    var date := "2024-05-01";
    var form := BookingForm(Some("Asha"), Some("asha@example.com"), Some("555-0100"), None,
                            Some(JArr([JNum(3), JNum(7)])), Some(date), None);
    var first := server.CreateOnlineBooking(form, "id-1", None, "t1");
    assert first.Ok? && first.value.rooms == Some(2) && first.value.payment == "pending";
    var second := server.CreateOfflineBooking(ValidToken, form.(roomNumbers := Some(JArr([JNum(10)]))), "id-2", None, "t2");
    assert second.Ok? && second.value.rooms == Some(1) && second.value.email == "";
    assert server.Bookings() == [first.value, second.value];
    RoomsUsedAppend([first.value], second.value, date);
    RoomsUsedAppend([], first.value, date);
    var report := server.Availability(ValidToken, Some(date));
    assert report.Ok? && report.value.used == 3 && report.value.available == 27;
  }
}
