# Hotel booking backend: bookings, room occupancy, availability, admin credentials

This project models the bookkeeping core of a small hotel booking backend
(`backend/server.js`). It covers four parts:

- **Booking ledger.** Online bookings (`POST /api/bookings`) and offline
  bookings (`POST /api/admin/bookings/offline`) parse `roomNumbers`: a string
  is parsed as JSON (the empty list when that fails), an array is used as it
  is, and anything else gives the empty list. The handler then validates the
  contact fields, room list and date, in that order. It builds the record with
  `rooms = roomNumbers.length` and `payment` defaulting to `"pending"`, and
  appends it to the bookings file.
- **Room occupancy table.** A map from a room's string key to an entry with
  an `occupied` flag. `POST /api/admin/rooms/toggle` deletes the entry of an
  occupied room ("unbooked") and writes a fresh occupied entry for any other
  room ("booked"). The required `date` plays no part in this.
- **Two availability calculations, kept separate.** `GET /api/rooms/status`
  splits rooms 1..30 into booked and available from the occupancy table alone.
  `GET /api/admin/availability` reports `30 - Σ rooms` over the ledger's
  bookings on the given date. It ignores occupancy and is not clamped.
- **Credential store.** One admin record holds a username, a salt and a
  PBKDF2 hash. It supports login, change-password (fields present, then old
  password verifies, then length at least 8, then new differs from old) and a
  reset-to-default that needs no authentication.

The class `Server.HotelServer` holds the three pieces of state:
- `creds`, the admin record;
- `bookingsFile` and `occupancyFile`, the contents of the two JSON files. These
  are `None` while a file is absent or unreadable, which the source reads as
  empty.

Its methods are the route handlers. Each is proved against a pure function in
`Credentials`, `Ledger` or `Occupancy`, and lemmas there state what the source
promises. `Js` models the JavaScript behaviour the handlers rely on:
- truthiness of request fields;
- `.length` of a parsed JSON value;
- `String(n)`, in plain decimal below 10^21 in magnitude and in exponent form
  (`"1e+21"`) from there on;
- `parseInt`, proved to invert `String(n)` below 10^21 in magnitude and to
  read only the leading digit of the exponent form.

Some behaviour of `server.js` that the model keeps as written:
- Room numbers are never range-checked, and a booking is never checked
  against occupancy.
- A room list that parses to a JSON string passes validation, and its
  character count becomes `rooms`.
- A list that parses to `null` makes the handler throw. The error middleware
  is registered before the routes, so Express's default handler answers 500.
- There are no routes to find a booking by id, to update a booking or to
  produce a receipt.

## Model

| member | source | states |
|---|---|---|
| `Credentials.HashPassword` | backend/server.js:43-46 | The record keeps the username (absent stays absent) and the given salt, and the hashed password verifies against it (hashing and verifying use the same derivation). |
| `Credentials.UnhashedRecordRejects` | backend/server.js:47-50 | A record without a salt or a hash verifies no password, so login against it fails with 401. |
| `Credentials.Login` | backend/server.js:92-99 | Login succeeds iff the request username is strictly equal to the stored one (so an absent request username matches a record without one, and `""` does not) and the password verifies; the claims carry role `admin` and the username. An absent password with a matching username and a hashed record throws (500). Every other failure is 401 `Invalid credentials`. |
| `Credentials.ChangePassword` | backend/server.js:102-112 | The checks run in the source's order, one iff per outcome: either field missing → 400; old password does not verify → 401; new shorter than 8 → 400; new equals old → 400. On success the username is kept, the salt is the fresh one, and the new password verifies. |
| `Credentials.ResetPassword` | backend/server.js:115-123 | Succeeds iff the username is truthy and equals the stored one (never for a record without a username); otherwise 400 `Invalid username`. On success the username is kept and the configured default password verifies. |
| `Credentials.LoginAfterChange` | backend/server.js:43-50 | After a successful change, login with the stored username and the new password succeeds. |
| `Credentials.OldPasswordRevoked` | backend/server.js:105-110 | After a successful change, the old password still logs in iff it derives the same key as the new one under the new salt, i.e. only on a collision. |
| `Credentials.LoginAfterReset` | backend/server.js:117-121 | After a reset, the default password logs in under the stored username. |
| `Ledger.NewBooking` | backend/server.js:126-191 | Accepted iff the contact fields (online: name, email, phone; offline: name, phone), a non-empty room list and a date are all present. A `null` room list after present contacts is a crash; every other rejection is 400 `Missing required fields`. An accepted record has `rooms` equal to the room list's length, payment defaulting to `pending`, the given id, document and timestamp, and for offline bookings an empty email and address. |
| `Ledger.UnparseableRoomsRejected` | backend/server.js:129-135 | A room list sent as text that is not JSON is rejected with 400. |
| `Ledger.StringRoomListAccepted` | backend/server.js:129-148 | A room list that parses to a non-empty JSON string is accepted, with `rooms` equal to its character count. |
| `Ledger.OnDate` | backend/server.js:202 | The filter keeps exactly the bookings whose date equals the query. |
| `Ledger.OnDateCounts` | backend/server.js:202 | The filter keeps each booking on the queried date as many times as the ledger holds it, and no booking on another date. |
| `Ledger.Availability` | backend/server.js:199-206 | 400 `date query required` iff the date is missing. Otherwise total is 30, used is the rooms summed over that date's bookings, and used + available = 30. |
| `Ledger.RoomsUsedAppend` | backend/server.js:202-203 | Appending a booking adds its rooms (a missing count as 0) to its own date's sum and changes no other date's sum. |
| `Ledger.AvailabilityAfterBooking` | backend/server.js:199-205 | A created booking lowers its date's availability by its room-list length and leaves other dates unchanged. |
| `Ledger.AvailabilityAtMostTotal` | backend/server.js:203-204 | With no negative room counts in the ledger, availability never exceeds 30. |
| `Ledger.AvailabilityNotClamped` | backend/server.js:204 | 31 rooms on a date give `available = -1`: there is no clamping. |
| `Occupancy.Toggle` | backend/server.js:229-247 | The action is `unbooked` iff the room was occupied. The room's flag flips, and every other key keeps its entry. Unbooking removes the key. Booking writes an occupied entry with the room number, the timestamp and `admin`. |
| `Occupancy.ToggleOccupiedKeys` | backend/server.js:232-244 | A toggle removes the room from the set of occupied keys or adds it, and changes no other key. |
| `Occupancy.ToggleTwice` | backend/server.js:232-244 | Toggling the same room twice restores the set of occupied rooms. |
| `Occupancy.ToggleRunParity` | backend/server.js:232-244 | After n toggles of a room, its flag is flipped iff n is odd, and the rest of the table is unchanged. |
| `Occupancy.BookedRooms` | backend/server.js:215-217 | The booked list holds exactly the parsed keys whose entries are occupied, and is no longer than the key list. |
| `Occupancy.BookedRoomsSnoc` | backend/server.js:215-217 | Appending a key to the enumeration appends its parsed room to the booked list exactly when its entry is occupied. |
| `Occupancy.BookedRoomsCounts` | backend/server.js:215-217 | Each value occurs in the booked list as many times as there are positions in the key list whose entry is occupied and whose key parses to it. |
| `Occupancy.AvailableRooms` | backend/server.js:219-220 | A room is available iff it is in the inventory and not in the booked list. |
| `Occupancy.AvailableRoomsAscending` | backend/server.js:219-220 | Filtering the ascending inventory keeps it ascending. |
| `Occupancy.RoomStatus` | backend/server.js:209-222 | 400 iff the date is missing. Booked rooms are exactly the parsed occupied keys, whatever the date. Available rooms are 1..30 minus booked, in ascending order, so no room is in both lists. |
| `Occupancy.RoomNumberKey` | backend/server.js:230 | Toggling by a room number 1..30 stores a key that parses back to that number. |
| `Occupancy.StatusPartition` | backend/server.js:214-221 | When all keys are room keys, every booked entry is a room in 1..30 and appears once. Each room is booked or available but never both, and the two lists together have 30 entries. |
| `Occupancy.PartitionCount` | backend/server.js:219-220 | Two repetition-free lists that share out rooms 1..30 have 30 entries between them. |
| `Occupancy.NonCanonicalKeysRepeatRoom` | backend/server.js:215-217 | Keys "5" and "05" both list room 5 as booked, so without canonical keys the two lists total 31 entries. |
| `Js.ParseIntOfIntToString` | backend/server.js:215-230 | `parseInt(String(n))` gives n back when n is below 10^21 in magnitude. From 10^21 on, `String` writes exponent form and `parseInt` stops at its point or `e`, so the result is the leading digit with n's sign. |
| `Occupancy.ExponentRoomNumberBooksLeadingDigit` | backend/server.js:215-230 | Toggling a room number n ≥ 10^21 into an empty table stores the exponent-form key. The status then lists the leading digit of n as the only booked room and leaves that room out of the available list. For 10^21 this is room 1. |
| `Server.HotelServer.constructor` | backend/server.js:52-61 | A stored admin record is kept. Otherwise ADMIN_USER is seeded with ADMIN_PASS (env or defaults `admin`/`secret123`) under the seed salt, and that password verifies. The two files are taken as read. |
| `Server.HotelServer.Login` | backend/server.js:92-99 | The response is the login outcome on the current record: success iff the username matches and the password verifies. |
| `Server.HotelServer.ChangePassword` | backend/server.js:102-112 | A missing or invalid token gives 401 and no change. Otherwise the record is replaced only when the ordered checks pass, and any failure leaves it as it was. |
| `Server.HotelServer.ResetPassword` | backend/server.js:115-123 | No authentication is needed. The record becomes the default-password record iff the username matches; otherwise nothing changes. |
| `Server.HotelServer.CreateOnlineBooking` | backend/server.js:126-157 | An accepted booking is appended at the end of the ledger as read, so earlier bookings are unchanged. A rejected one leaves the file as it was. |
| `Server.HotelServer.CreateOfflineBooking` | backend/server.js:160-191 | Authentication comes first: 401 with no write. Then it behaves as online, with the offline rules. |
| `Server.HotelServer.ListBookings` | backend/server.js:194-196 | After authentication it returns the ledger as read, in storage order. |
| `Server.HotelServer.Availability` | backend/server.js:199-206 | After authentication it returns the ledger-only availability for the date, independent of the occupancy table. |
| `Server.HotelServer.RoomsStatus` | backend/server.js:209-222 | Public. It returns the occupancy-only status for the table as read. |
| `Server.HotelServer.ToggleRoom` | backend/server.js:225-248 | A bad token gives 401. A missing date or falsy room number gives 400. Neither writes the table. Otherwise the table becomes the toggled table, and the reply carries the action, the room number and the source's message. |

## Left out

- Express routing, middleware registration, the error middleware, `app.listen` and the process handlers (backend/server.js:16-24, 250-269): HTTP and runtime plumbing. A thrown exception is modelled as a 500 response. Its message is a stand-in: Express's default handler answers with an HTML page (a stack trace unless NODE_ENV is `production`), which is not modelled.
- Uploads through multer (backend/server.js:26-35): file I/O. The stored file name is the `document` input.
- File reads and writes (backend/server.js:37-41, 52-77): the files are fields. A failing write and the lost-update race between concurrent requests are not modelled. Another process editing the files between requests is not modelled either.
- JWT verification and signing (backend/server.js:79-90, 95): a foreign library. Its verdict is the `AuthHeader` input. `Login` returns the claims, not a signed token, and the 8-hour expiry is not modelled.
- PBKDF2, random salts, uuid and `Date`: foreign or nondeterministic. The key derivation is a deterministic function parameter with a 128-character result. Salts, ids and timestamps are inputs.
- JSON.parse is a parameter that may fail. JSON numbers are integers here. An object with a `length` member is read as having no length.
- Request fields are strings or absent. Number or boolean values of other fields are not modelled. A room number is an integer or a string; fractional or boolean values are not modelled.
- String lengths count Unicode code points; JavaScript counts UTF-16 code units. This matters for the 8-character password minimum and for string room lists.
- `Occupancy.RoomStatus`: the order of `bookedRooms` is `Object.keys` order. JavaScript fixes that order: array-index keys (canonical decimal strings below 2^32 − 1) ascending, then the other keys, such as `"05"` or `"-1"`, in insertion order. The model does not track insertion order, so it takes the enumeration as an input (`keys`) and proves its results for every enumeration of the table.
- Occupancy keys that name `Object.prototype` members (such as `__proto__`) are treated as ordinary keys. JavaScript handles them differently.
- Occupancy entries that are not objects, and stored bookings whose `rooms` is not a number, are not modelled. Either would throw or concatenate strings in JavaScript.
- `parseInt` skips ASCII white space, no-break space, BOM and the line and paragraph separators. Other Unicode space separators, and the loss of precision past 2^53, are not modelled.
- All frontend files: React rendering, component state, fetch wrappers, local storage and routing.
