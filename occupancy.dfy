/** The room occupancy table: a date-independent "room is occupied" flag per
    room, toggled by the admin, and the public per-room status derived from
    it alone. */
module Occupancy {
  import opened Js
  import opened Http
  import opened Config

  /** The `roomNumber` a toggle request carries: a JSON number or a string. */
  datatype RoomRef = RoomNum(n: int) | RoomText(s: string)

  /** `String(roomNumber)`: the key of the room in the table. */
  function RoomKey(room: RoomRef): string {
    match room
    case RoomNum(n) => IntToString(n)
    case RoomText(s) => s
  }

  /** `!roomNumber` is false: an absent field, 0 and "" are falsy. */
  predicate RoomGiven(room: Option<RoomRef>) {
    match room
    case None => false
    case Some(RoomNum(n)) => n != 0
    case Some(RoomText(s)) => s != ""
  }

  /** A table entry. Entries read back from the occupancy file may carry a
      false `occupied` flag. */
  datatype Entry = Entry(occupied: bool, roomNumber: RoomRef, bookedAt: string, bookedBy: string)

  /** The occupancy object, keyed by the room's string key. */
  type Table = map<string, Entry>

  predicate IsOccupied(table: Table, key: string) {
    key in table && table[key].occupied
  }

  function OccupiedKeys(table: Table): set<string> {
    set key | key in table && table[key].occupied
  }

  datatype Action = Booked | Unbooked

  /** The table after a toggle, and what the toggle did. */
  datatype Toggled = Toggled(table: Table, action: Action)

  const RoomAndDateRequired := Failure(400, "date and roomNumber required")

  /** POST /api/admin/rooms/toggle, after validation: an occupied room's entry
      is deleted; any other room gets a fresh occupied entry stamped `now`
      and attributed to the admin. */
  function Toggle(table: Table, room: RoomRef, now: string): (r: Toggled)
    ensures var key := RoomKey(room);
      && (r.action == Unbooked <==> IsOccupied(table, key))
      && IsOccupied(r.table, key) == !IsOccupied(table, key)
      && r.table - {key} == table - {key}
      && (r.action == Unbooked ==> key !in r.table)
      && (r.action == Booked ==> r.table[key] == Entry(true, room, now, "admin"))
  {
    var key := RoomKey(room);
    if IsOccupied(table, key) then Toggled(table - {key}, Unbooked)
    else Toggled(table[key := Entry(true, room, now, "admin")], Booked)
  }

  /** A toggle adds the room to the occupied set or takes it out, and
      touches no other room. */
  lemma ToggleOccupiedKeys(table: Table, room: RoomRef, now: string)
    ensures var key := RoomKey(room);
            OccupiedKeys(Toggle(table, room, now).table)
            == if IsOccupied(table, key) then OccupiedKeys(table) - {key} else OccupiedKeys(table) + {key}
  {
    var key := RoomKey(room);
    var after := Toggle(table, room, now).table;
    forall k
      ensures k in OccupiedKeys(after) <==>
              k in (if IsOccupied(table, key) then OccupiedKeys(table) - {key} else OccupiedKeys(table) + {key})
    {
      if k != key {
        assert k in after <==> k in (after - {key});
        assert k in table <==> k in (table - {key});
        if k in after {
          assert after[k] == (after - {key})[k] == (table - {key})[k] == table[k];
        }
      }
    }
  }

  /** Toggling the same room twice gives back the original set of occupied
      rooms (the entry itself may differ: it carries a new timestamp, and an
      unoccupied entry is removed). */
  lemma ToggleTwice(table: Table, room: RoomRef, first: string, second: string)
    ensures OccupiedKeys(Toggle(Toggle(table, room, first).table, room, second).table) == OccupiedKeys(table)
  {
    var once := Toggle(table, room, first).table;
    ToggleOccupiedKeys(table, room, first);
    ToggleOccupiedKeys(once, room, second);
  }

  /** A run of toggles of one room, one per timestamp in `stamps`. */
  function ToggleRun(table: Table, room: RoomRef, stamps: seq<string>): Table
    decreases |stamps|
  {
    if stamps == [] then table else ToggleRun(Toggle(table, room, stamps[0]).table, room, stamps[1..])
  }

  /** After an odd number of toggles the room's flag is flipped, after an
      even number it is as before; no other room changes. */
  lemma {:induction false} ToggleRunParity(table: Table, room: RoomRef, stamps: seq<string>)
    ensures var key := RoomKey(room);
            var after := ToggleRun(table, room, stamps);
            && IsOccupied(after, key) == (IsOccupied(table, key) != (|stamps| % 2 == 1))
            && after - {key} == table - {key}
    decreases |stamps|
  {
    if stamps != [] {
      ToggleRunParity(Toggle(table, room, stamps[0]).table, room, stamps[1..]);
    }
  }

  // ---------------------------------------------------------------------
  // GET /api/rooms/status
  // ---------------------------------------------------------------------

  predicate Distinct<T(==)>(s: seq<T>) {
    forall i, j :: 0 <= i < j < |s| ==> s[i] != s[j]
  }

  /** `keys` is `Object.keys(table)`: every key once. The language fixes the
      order (array-index keys, the canonical decimal strings below 2^32 - 1,
      ascending, then the other keys in insertion order); the model admits
      every order. */
  predicate EnumeratesKeys(keys: seq<string>, table: Table) {
    && (forall i :: 0 <= i < |keys| ==> keys[i] in table)
    && (forall k :: k in table ==> k in keys)
    && Distinct(keys)
  }

  /** `keys.filter(k => table[k].occupied).map(k => parseInt(k))` */
  function BookedRooms(table: Table, keys: seq<string>): (r: seq<Parsed>)
    requires forall i :: 0 <= i < |keys| ==> keys[i] in table
    ensures |r| <= |keys|
    ensures forall p :: p in r ==> exists k :: k in keys && IsOccupied(table, k) && ParseInt(k) == p
    ensures forall k :: k in keys && IsOccupied(table, k) ==> ParseInt(k) in r
  {
    if keys == [] then []
    else (if table[keys[0]].occupied then [ParseInt(keys[0])] else []) + BookedRooms(table, keys[1..])
  }

  /** The positions of `keys` whose room is occupied and whose key parses to
      `p`. */
  ghost function OccupiedPositions(table: Table, keys: seq<string>, p: Parsed): set<int> {
    set i | 0 <= i < |keys| && IsOccupied(table, keys[i]) && ParseInt(keys[i]) == p
  }

  /** Appending a key appends its parsed room exactly when it is occupied. */
  lemma {:induction false} BookedRoomsSnoc(table: Table, keys: seq<string>, key: string)
    requires forall i :: 0 <= i < |keys| ==> keys[i] in table
    requires key in table
    ensures BookedRooms(table, keys + [key]) ==
            BookedRooms(table, keys) + (if table[key].occupied then [ParseInt(key)] else [])
    decreases |keys|
  {
    if keys == [] {
      assert [] + [key] == [key];
      assert [key][1..] == [];
    } else {
      assert (keys + [key])[0] == keys[0];
      assert (keys + [key])[1..] == keys[1..] + [key];
      BookedRoomsSnoc(table, keys[1..], key);
    }
  }

  /** Appending a key adds its own position to those of its room, when it is
      occupied and parses to that room. */
  lemma OccupiedPositionsSnoc(table: Table, keys: seq<string>, key: string, p: Parsed)
    ensures OccupiedPositions(table, keys + [key], p) ==
            OccupiedPositions(table, keys, p) + (if IsOccupied(table, key) && ParseInt(key) == p then {|keys|} else {})
  {
  }

  /** Every occupied key contributes its parsed room exactly once: room `p`
      is reported as many times as there are occupied keys parsing to `p`. */
  lemma {:induction false} BookedRoomsCounts(table: Table, keys: seq<string>, p: Parsed)
    requires forall i :: 0 <= i < |keys| ==> keys[i] in table
    ensures multiset(BookedRooms(table, keys))[p] == |OccupiedPositions(table, keys, p)|
    decreases |keys|
  {
    if keys == [] {
      assert OccupiedPositions(table, keys, p) == {};
    } else {
      var front, last := keys[..|keys| - 1], keys[|keys| - 1];
      assert keys == front + [last];
      BookedRoomsCounts(table, front, p);
      BookedRoomsSnoc(table, front, last);
      OccupiedPositionsSnoc(table, front, last, p);
      assert |front| !in OccupiedPositions(table, front, p);
    }
  }

  /** Rooms 1 to TotalRooms in ascending order. */
  function AllRooms(): (r: seq<int>)
    ensures |r| == TotalRooms && forall i :: 0 <= i < |r| ==> r[i] == i + 1
  {
    seq(TotalRooms, i => i + 1)
  }

  predicate Ascending(s: seq<int>) {
    forall i, j :: 0 <= i < j < |s| ==> s[i] < s[j]
  }

  /** `rooms.filter(r => !booked.includes(r))`; a NaN in `booked` equals no room. */
  function AvailableRooms(rooms: seq<int>, booked: seq<Parsed>): (r: seq<int>)
    ensures forall n :: n in r <==> n in rooms && Num(n) !in booked
  {
    if rooms == [] then []
    else (if Num(rooms[0]) in booked then [] else [rooms[0]]) + AvailableRooms(rooms[1..], booked)
  }

  /** Filtering keeps ascending order. */
  lemma {:induction false} AvailableRoomsAscending(rooms: seq<int>, booked: seq<Parsed>)
    requires Ascending(rooms)
    ensures Ascending(AvailableRooms(rooms, booked))
    decreases |rooms|
  {
    if rooms != [] {
      var rest := AvailableRooms(rooms[1..], booked);
      AvailableRoomsAscending(rooms[1..], booked);
      forall n | n in rest ensures rooms[0] < n {
        var j :| 0 <= j < |rooms[1..]| && rooms[1..][j] == n;
        assert rooms[j + 1] == n;
      }
      var r := AvailableRooms(rooms, booked);
      if Num(rooms[0]) !in booked {
        assert r == [rooms[0]] + rest;
        forall i, j | 0 <= i < j < |r| ensures r[i] < r[j] {
          assert r[j] == rest[j - 1] && rest[j - 1] in rest;
          if i > 0 {
            assert r[i] == rest[i - 1];
          }
        }
      } else {
        assert r == rest;
      }
    }
  }

  lemma AllRoomsMembers()
    ensures forall n :: n in AllRooms() <==> 1 <= n <= TotalRooms
    ensures Ascending(AllRooms())
  {
    forall n | 1 <= n <= TotalRooms ensures n in AllRooms() {
      assert AllRooms()[n - 1] == n;
    }
  }

  datatype StatusReport = StatusReport(date: string, total: int, bookedRooms: seq<Parsed>, availableRooms: seq<int>)

  /** GET /api/rooms/status: the booked rooms come from the occupancy table
      alone and the date is only echoed; every room of the inventory that is
      not booked is available, in ascending order, and no room is both. */
  function RoomStatus(table: Table, keys: seq<string>, date: Option<string>): (r: Result<StatusReport>)
    requires EnumeratesKeys(keys, table)
    ensures r.Err? <==> !Truthy(date)
    ensures r.Err? ==> r.failure == DateRequired
    ensures r.Ok? ==>
      var s := r.value;
      && s.date == date.value && s.total == TotalRooms
      && (forall p :: p in s.bookedRooms <==> exists k :: k in OccupiedKeys(table) && ParseInt(k) == p)
      && (forall n :: n in s.availableRooms <==> 1 <= n <= TotalRooms && Num(n) !in s.bookedRooms)
      && Ascending(s.availableRooms)
  {
    if !Truthy(date) then Err(DateRequired)
    else
      var booked := BookedRooms(table, keys);
      AllRoomsMembers();
      AvailableRoomsAscending(AllRooms(), booked);
      Ok(StatusReport(date.value, TotalRooms, booked, AvailableRooms(AllRooms(), booked)))
  }


  /** A key that is exactly the decimal form of a room of the inventory. */
  predicate IsRoomKey(key: string) {
    ParseInt(key).Num? && 1 <= ParseInt(key).value <= TotalRooms && IntToString(ParseInt(key).value) == key
  }

  /** Toggling a room by its number, as the admin page does, uses a room key. */
  lemma RoomNumberKey(n: int)
    requires 1 <= n <= TotalRooms
    ensures IsRoomKey(RoomKey(RoomNum(n))) && ParseInt(RoomKey(RoomNum(n))) == Num(n)
  {
    Pow10Bound(21);  // 10^21 is far above every room number
    ParseIntOfIntToString(n);
  }

  /** A room number of 10^21 or more is stored under its exponent-form key
      ("1e+21"), which parseInt reads as the leading digit alone: toggling
      room 10^21 into an empty table shows room 1 as booked
      (`ThresholdLeadingDigit`). */
  lemma ExponentRoomNumberBooksLeadingDigit(n: int, now: string, date: string)
    requires n >= ExponentThreshold && date != ""
    ensures var key := RoomKey(RoomNum(n));
            var table := Toggle(map[], RoomNum(n), now).table;
            EnumeratesKeys([key], table)
            && RoomStatus(table, [key], Some(date)).value.bookedRooms == [Num(LeadingDigit(n))]
            && LeadingDigit(n) !in RoomStatus(table, [key], Some(date)).value.availableRooms
  {
    var key := RoomKey(RoomNum(n));
    var table := Toggle(map[], RoomNum(n), now).table;
    ParseIntOfIntToString(n);
    assert table.Keys == {key};
    assert [key][1..] == [];
    assert BookedRooms(table, [key]) == [Num(LeadingDigit(n))];
  }

  /** Distinct room keys parse to distinct rooms. */
  lemma {:induction false} BookedRoomsDistinct(table: Table, keys: seq<string>)
    requires forall i :: 0 <= i < |keys| ==> keys[i] in table && IsRoomKey(keys[i])
    requires Distinct(keys)
    ensures Distinct(BookedRooms(table, keys))
    decreases |keys|
  {
    if keys != [] {
      var rest := BookedRooms(table, keys[1..]);
      BookedRoomsDistinct(table, keys[1..]);
      if table[keys[0]].occupied {
        var head := ParseInt(keys[0]);
        forall p | p in rest ensures p != head {
          var k :| k in keys[1..] && IsOccupied(table, k) && ParseInt(k) == p;
          var j :| 0 <= j < |keys[1..]| && keys[1..][j] == k;
          assert keys[j + 1] == k;
        }
        var r := BookedRooms(table, keys);
        assert r == [head] + rest;
        forall i, j | 0 <= i < j < |r| ensures r[i] != r[j] {
          assert r[j] == rest[j - 1] && rest[j - 1] in rest;
          if i > 0 {
            assert r[i] == rest[i - 1];
          }
        }
      } else {
        assert BookedRooms(table, keys) == rest;
      }
    }
  }

  /** A sequence without repetitions has as many elements as its set. */
  lemma {:induction false} DistinctCardinality<T>(s: seq<T>)
    requires Distinct(s)
    ensures |SetOf(s)| == |s|
    decreases |s|
  {
    if s != [] {
      DistinctCardinality(s[1..]);
      assert SetOf(s) == {s[0]} + SetOf(s[1..]);
      assert s[0] !in s[1..] by {
        forall j | 0 <= j < |s[1..]| ensures s[1..][j] != s[0] {
          assert s[1..][j] == s[j + 1];
        }
      }
    }
  }

  /** The rooms of `s` as parseInt results. */
  function NumsOf(s: seq<int>): (r: seq<Parsed>)
    ensures |r| == |s| && forall i :: 0 <= i < |s| ==> r[i] == Num(s[i])
  {
    seq(|s|, i requires 0 <= i < |s| => Num(s[i]))
  }

  lemma NumsOfAscending(s: seq<int>)
    requires Ascending(s)
    ensures Distinct(NumsOf(s))
    ensures forall p :: p in NumsOf(s) <==> p.Num? && p.value in s
  {
    var r := NumsOf(s);
    forall p: Parsed | p.Num? && p.value in s ensures p in r {
      var i :| 0 <= i < |s| && s[i] == p.value;
      assert r[i] == p;
    }
  }

  function SetOf<T>(s: seq<T>): set<T> {
    set x | x in s
  }

  /** Under the premises of PartitionCount, the rooms split into the two lists. */
  lemma PartitionSets(booked: seq<Parsed>, available: seq<int>)
    requires Ascending(available)
    requires forall p :: p in booked ==> p.Num? && 1 <= p.value <= TotalRooms
    requires forall n :: n in available <==> 1 <= n <= TotalRooms && Num(n) !in booked
    ensures SetOf(booked) !! SetOf(NumsOf(available))
    ensures SetOf(NumsOf(AllRooms())) == SetOf(booked) + SetOf(NumsOf(available))
  {
    AllRoomsMembers();
    NumsOfAscending(available);
    NumsOfAscending(AllRooms());
    forall p: Parsed | p in SetOf(NumsOf(AllRooms())) ensures p in SetOf(booked) + SetOf(NumsOf(available)) {
      assert p.Num? && p.value in AllRooms();
    }
    forall p: Parsed | p in SetOf(booked) + SetOf(NumsOf(available)) ensures p in SetOf(NumsOf(AllRooms())) {
      assert p.value in AllRooms();
    }
  }

  /** Two lists that share out the rooms of the inventory between them,
      each without repetitions, together have one entry per room. */
  lemma PartitionCount(booked: seq<Parsed>, available: seq<int>)
    requires Distinct(booked) && Ascending(available)
    requires forall p :: p in booked ==> p.Num? && 1 <= p.value <= TotalRooms
    requires forall n :: n in available <==> 1 <= n <= TotalRooms && Num(n) !in booked
    ensures |booked| + |available| == TotalRooms
  {
    NumsOfAscending(available);
    AllRoomsMembers();
    NumsOfAscending(AllRooms());
    DistinctCardinality(booked);
    DistinctCardinality(NumsOf(available));
    DistinctCardinality(NumsOf(AllRooms()));
    PartitionSets(booked, available);
  }

  /** When every key of the table is a room key, the status lists every room
      of the inventory exactly once: booked or available, never both, and
      nothing else. */
  lemma StatusPartition(table: Table, keys: seq<string>, date: Option<string>)
    requires EnumeratesKeys(keys, table)
    requires Truthy(date)
    requires forall k :: k in table ==> IsRoomKey(k)
    ensures var s := RoomStatus(table, keys, date).value;
      && (forall p :: p in s.bookedRooms ==> p.Num? && 1 <= p.value <= TotalRooms)
      && Distinct(s.bookedRooms)
      && (forall n :: 1 <= n <= TotalRooms ==> (Num(n) in s.bookedRooms <==> n !in s.availableRooms))
      && |s.bookedRooms| + |s.availableRooms| == TotalRooms
  {
    var s := RoomStatus(table, keys, date).value;
    BookedRoomsDistinct(table, keys);
    forall p | p in s.bookedRooms ensures p.Num? && 1 <= p.value <= TotalRooms {
      var k :| k in OccupiedKeys(table) && ParseInt(k) == p;
    }
    PartitionCount(s.bookedRooms, s.availableRooms);
  }

  lemma ParseFiveKeys()
    ensures ParseInt("5") == Num(5) && ParseInt("05") == Num(5)
  {
    assert TrimStart("5") == "5";
    assert DigitPrefix("5", 10) == "5";
    assert TrimStart("05") == "05";
    assert DigitPrefix("05", 10) == "05";
    assert DigitsValue("05", 10) == 5;
  }

  /** Without the room-key premise the partition fails: keys "5" and "05"
      both parse to room 5, which is then listed twice as booked. */
  lemma NonCanonicalKeysRepeatRoom(entry: Entry, date: string)
    requires entry.occupied && date != ""
    ensures var table := map["5" := entry, "05" := entry];
            var s := RoomStatus(table, ["5", "05"], Some(date)).value;
            && s.bookedRooms == [Num(5), Num(5)]
            && |s.bookedRooms| + |s.availableRooms| == TotalRooms + 1
  {
    var table := map["5" := entry, "05" := entry];
    var keys := ["5", "05"];
    ParseFiveKeys();
    assert keys[1..] == ["05"] && keys[1..][1..] == [];
    var booked := BookedRooms(table, keys);
    assert booked == [Num(5), Num(5)];
    var available := AvailableRooms(AllRooms(), booked);
    AllRoomsMembers();
    AvailableRoomsAscending(AllRooms(), booked);
    PartitionCount([Num(5)], available);
  }
}
