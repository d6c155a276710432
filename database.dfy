/** The backend of `main.py`: the six MySQL tables as one in-memory database,
    and the endpoints that insert into and update them. An endpoint either
    answers `Ok(row)` or `Err(code)`; a failed statement rolls the transaction
    back, so on every error path the tables are as they were. */
module Backend {
  import opened Common
  import opened Seqs
  import opened Schema
  import Text

  // ---------------------------------------------------------------------
  // Columns

  /** The value a UNIQUE index compares a text by: MySQL's default collation
      does not tell upper-case letters from lower-case ones. */
  function CollationKey(s: string): string { Text.ToLower(s) }

  function OptKey(s: Option<string>): Option<string> {
    if s.Some? then Some(CollationKey(s.value)) else None
  }

  function GuestId(g: Guest): int { g.guestId }
  function PhoneKey(g: Guest): string { CollationKey(g.phoneNumber) }
  function EmailKey(g: Guest): Option<string> { OptKey(g.email) }
  function IdProofKey(g: Guest): Option<string> { OptKey(g.idProofNumber) }
  function RoomId(r: Room): int { r.roomId }
  function RoomNumberKey(r: Room): string { CollationKey(r.roomNumber) }
  function BookingId(b: Booking): int { b.bookingId }
  function PaymentId(p: Payment): int { p.paymentId }
  function PaymentDate(p: Payment): Date { p.paymentDate }
  function UserId(u: User): int { u.userId }
  function UsernameKey(u: User): string { CollationKey(u.username) }
  function RequestId(m: MaintenanceRequest): int { m.requestId }
  function ReportedDate(m: MaintenanceRequest): Date { m.reportedDate }

  function SetOccupied(r: Room): Room { r.(occupancyStatus := Occupied) }

  // ---------------------------------------------------------------------
  // What the DDL guarantees of the stored rows

  /** AUTO_INCREMENT ids: positive, increasing in insertion order, and below
      the value the next insert will take. */
  predicate IdsBelow<T>(s: seq<T>, key: T -> int, next: int) {
    1 <= next && KeysAscending(s, key) && forall i :: 0 <= i < |s| ==> 1 <= key(s[i]) < next
  }

  lemma IdsBelowAppend<T>(s: seq<T>, key: T -> int, next: int, x: T)
    requires IdsBelow(s, key, next) && key(x) == next
    ensures IdsBelow(s + [x], key, next + 1)
  {
  }

  /** MySQL rounds a DECIMAL(10,2) value to two places, half away from zero;
      the result is in paise. */
  function RoundToPaise(v: real): (p: int)
    ensures v >= 0.0 ==> p >= 0
    ensures v >= 0.0 ==> (p as real) - 0.5 <= v * 100.0 < (p as real) + 0.5
  {
    if v >= 0.0 then (v * 100.0 + 0.5).Floor else -((-v) * 100.0 + 0.5).Floor
  }

  predicate DecimalInRange(paise: int) {
    -MaxDecimalPaise <= paise <= MaxDecimalPaise
  }

  /** Strict mode refuses a value too long for its column: a VARCHAR(n)
      counts characters, a TEXT bytes. */
  predicate GuestFits(g: Guest) {
    |g.fullName| <= FullNameWidth && |g.phoneNumber| <= PhoneWidth
    && FitsOpt(g.email, EmailWidth) && FitsOpt(g.idProofType, IdProofTypeWidth)
    && FitsOpt(g.idProofNumber, IdProofNumberWidth)
    && (g.address.Some? ==> Text.Utf8Length(g.address.value) <= TextBytes)
  }

  /** ... and a DECIMAL(10,2) out of range. */
  predicate RoomFits(r: Room) {
    |r.roomNumber| <= RoomNumberWidth && |r.roomType| <= RoomTypeWidth
    && DecimalInRange(r.monthlyRent)
  }

  predicate PaymentFits(p: Payment) {
    DecimalInRange(p.amountPaid) && FitsOpt(p.remarks, RemarksWidth)
  }

  predicate RequestFits(m: MaintenanceRequest) {
    Text.Utf8Length(m.issueDescription) <= TextBytes
  }

  predicate UserFits(u: User) {
    |u.username| <= UsernameWidth && |u.passwordHash| <= PasswordHashWidth
  }

  predicate GuestsOk(gs: seq<Guest>) {
    Distinct(Column(gs, PhoneKey)) && DistinctSome(Column(gs, EmailKey))
    && DistinctSome(Column(gs, IdProofKey)) && forall g :: g in gs ==> GuestFits(g)
  }

  predicate RoomsOk(rs: seq<Room>) {
    Distinct(Column(rs, RoomNumberKey)) && forall r :: r in rs ==> RoomFits(r)
  }

  predicate UsersOk(us: seq<User>) {
    Distinct(Column(us, UsernameKey)) && forall u :: u in us ==> UserFits(u)
  }

  /** The FOREIGN KEYs of Bookings. */
  predicate BookingRefsOk(bs: seq<Booking>, gs: seq<Guest>, rs: seq<Room>) {
    forall b :: b in bs ==> b.guestId in Column(gs, GuestId) && b.roomId in Column(rs, RoomId)
  }

  predicate PaymentsOk(ps: seq<Payment>, bs: seq<Booking>) {
    forall p :: p in ps ==> p.bookingId in Column(bs, BookingId) && PaymentFits(p)
  }

  /** The FOREIGN KEYs of MaintenanceRequests, whose `guest_id` is nullable,
      and the width of their descriptions. */
  predicate RequestRefsOk(ms: seq<MaintenanceRequest>, rs: seq<Room>, gs: seq<Guest>) {
    forall m :: m in ms ==>
      m.roomId in Column(rs, RoomId) && (m.guestId.Some? ==> m.guestId.value in Column(gs, GuestId))
      && RequestFits(m)
  }

  /** Rows whose rents the `Room` response model accepts (`gt=0`). */
  predicate RentsPositive(rs: seq<Room>) {
    forall x :: x in rs ==> x.monthlyRent > 0
  }

  /** Rows whose amounts the `Payment` response model accepts (`gt=0`). */
  predicate AmountsPositive(ps: seq<Payment>) {
    forall x :: x in ps ==> x.amountPaid > 0
  }

  /** The value of `cursor.lastrowid` after a statement that generated no id. */
  const LastRowIdAfterUpdate := 0

  /** The row `SELECT * FROM Bookings WHERE booking_id = id` returns, as the
      body of the answer: a missing row fails FastAPI's response model. */
  function ReadBackBooking(bookings: seq<Booking>, id: int): (r: Result<Booking>)
    ensures r.Ok? ==> r.value in bookings && r.value.bookingId == id
    ensures r.Err? <==> NoMatch(bookings, BookingId, id)
    ensures r.Err? ==> r.code == ServerError
  {
    match FindBy(bookings, BookingId, id)
    case Some(b) => Ok(b)
    case None => Err(ServerError)
  }

  /** As written, `create_booking` reads the new booking back with the
      `lastrowid` of the UPDATE of Rooms, which generated no id: it commits
      the booking and then answers 500. */
  lemma ReadBackAsWrittenFails(bookings: seq<Booking>)
    requires forall b :: b in bookings ==> b.bookingId >= 1
    ensures ReadBackBooking(bookings, LastRowIdAfterUpdate) == Err(ServerError)
  {
    assert NoMatch(bookings, BookingId, LastRowIdAfterUpdate) by {
      forall j | 0 <= j < |bookings| ensures bookings[j].bookingId != 0 {
        assert bookings[j] in bookings;
      }
    }
  }

  /** The id of the inserted booking reads back the inserted booking. */
  lemma ReadBackInserted(bookings: seq<Booking>, row: Booking)
    requires KeysAscending(bookings + [row], BookingId)
    ensures ReadBackBooking(bookings + [row], row.bookingId) == Ok(row)
  {
    FindByAscending(bookings + [row], BookingId, |bookings|);
  }

  /** The six tables at one moment. */
  datatype Snapshot = Snapshot(
    guests: seq<Guest>, rooms: seq<Room>, bookings: seq<Booking>,
    payments: seq<Payment>, users: seq<User>, requests: seq<MaintenanceRequest>)

  /** The next AUTO_INCREMENT value of each table. */
  datatype AutoIncrement = AutoIncrement(guest: int, room: int, booking: int, payment: int, user: int, request: int)

  /** Every PRIMARY KEY, UNIQUE, FOREIGN KEY and column constraint of the DDL. */
  predicate TablesOk(t: Snapshot, n: AutoIncrement) {
    && IdsBelow(t.guests, GuestId, n.guest)
    && IdsBelow(t.rooms, RoomId, n.room)
    && IdsBelow(t.bookings, BookingId, n.booking)
    && IdsBelow(t.payments, PaymentId, n.payment)
    && IdsBelow(t.users, UserId, n.user)
    && IdsBelow(t.requests, RequestId, n.request)
    && GuestsOk(t.guests) && RoomsOk(t.rooms) && UsersOk(t.users)
    && BookingRefsOk(t.bookings, t.guests, t.rooms)
    && PaymentsOk(t.payments, t.bookings)
    && RequestRefsOk(t.requests, t.rooms, t.guests)
  }

  /** Fresh tables, with every counter at 1, satisfy the constraints. */
  lemma EmptyOk()
    ensures TablesOk(Snapshot([], [], [], [], [], []), AutoIncrement(1, 1, 1, 1, 1, 1))
  {
  }

  /** A failed INSERT that took an id leaves the constraints intact. */
  lemma BumpOk(t: Snapshot, n: AutoIncrement, m: AutoIncrement)
    requires TablesOk(t, n)
    requires n.guest <= m.guest && n.room <= m.room && n.booking <= m.booking
    requires n.payment <= m.payment && n.user <= m.user && n.request <= m.request
    ensures TablesOk(t, m)
  {
  }

  lemma InsertGuestOk(t: Snapshot, n: AutoIncrement, row: Guest)
    requires TablesOk(t, n) && row.guestId == n.guest && GuestFits(row)
    requires PhoneKey(row) !in Column(t.guests, PhoneKey)
    requires row.email.Some? ==> EmailKey(row) !in Column(t.guests, EmailKey)
    requires row.idProofNumber.Some? ==> IdProofKey(row) !in Column(t.guests, IdProofKey)
    ensures TablesOk(t.(guests := t.guests + [row]), n.(guest := n.guest + 1))
  {
    ColumnAppend(t.guests, row, PhoneKey);
    ColumnAppend(t.guests, row, EmailKey);
    ColumnAppend(t.guests, row, IdProofKey);
    ColumnAppend(t.guests, row, GuestId);
    DistinctAppend(Column(t.guests, PhoneKey), PhoneKey(row));
    DistinctSomeAppend(Column(t.guests, EmailKey), EmailKey(row));
    DistinctSomeAppend(Column(t.guests, IdProofKey), IdProofKey(row));
    IdsBelowAppend(t.guests, GuestId, n.guest, row);
  }

  lemma InsertRoomOk(t: Snapshot, n: AutoIncrement, row: Room)
    requires TablesOk(t, n) && row.roomId == n.room && RoomFits(row)
    requires RoomNumberKey(row) !in Column(t.rooms, RoomNumberKey)
    ensures TablesOk(t.(rooms := t.rooms + [row]), n.(room := n.room + 1))
  {
    ColumnAppend(t.rooms, row, RoomNumberKey);
    ColumnAppend(t.rooms, row, RoomId);
    DistinctAppend(Column(t.rooms, RoomNumberKey), RoomNumberKey(row));
    IdsBelowAppend(t.rooms, RoomId, n.room, row);
  }

  /** Setting one room Occupied keeps every id and room number. */
  lemma OccupyOk(t: Snapshot, n: AutoIncrement, i: nat)
    requires TablesOk(t, n) && i < |t.rooms|
    ensures TablesOk(t.(rooms := t.rooms[i := SetOccupied(t.rooms[i])]), n)
  {
    var booked := SetOccupied(t.rooms[i]);
    var rs := t.rooms[i := booked];
    ColumnUpdateSame(t.rooms, i, booked, RoomId);
    ColumnUpdateSame(t.rooms, i, booked, RoomNumberKey);
    assert IdsBelow(rs, RoomId, n.room) by {
      assert forall j :: 0 <= j < |rs| ==> RoomId(rs[j]) == RoomId(t.rooms[j]);
    }
    assert RoomsOk(rs) by {
      assert t.rooms[i] in t.rooms;
      assert forall x :: x in rs ==> x in t.rooms || x == booked;
    }
    RoomsReplaced(t, n, rs);
  }

  lemma InsertBookingOk(t: Snapshot, n: AutoIncrement, row: Booking)
    requires TablesOk(t, n) && row.bookingId == n.booking
    requires row.guestId in Column(t.guests, GuestId) && row.roomId in Column(t.rooms, RoomId)
    ensures TablesOk(t.(bookings := t.bookings + [row]), n.(booking := n.booking + 1))
    ensures KeysAscending(t.bookings + [row], BookingId)
  {
    ColumnAppend(t.bookings, row, BookingId);
    IdsBelowAppend(t.bookings, BookingId, n.booking, row);
  }

  /** Inserting a booking and setting its room Occupied, as `create_booking`
      does, keeps the constraints. */
  lemma BookRoomOk(t: Snapshot, n: AutoIncrement, row: Booking, i: nat)
    requires TablesOk(t, n) && row.bookingId == n.booking
    requires i < |t.rooms| && t.rooms[i].roomId == row.roomId
    requires row.guestId in Column(t.guests, GuestId)
    ensures TablesOk(t.(bookings := t.bookings + [row], rooms := t.rooms[i := SetOccupied(t.rooms[i])]),
                     n.(booking := n.booking + 1))
    ensures KeysAscending(t.bookings + [row], BookingId)
  {
    var inserted := t.(bookings := t.bookings + [row]);
    assert row.roomId in Column(t.rooms, RoomId);
    InsertBookingOk(t, n, row);
    OccupyOk(inserted, n.(booking := n.booking + 1), i);
    assert inserted.(rooms := t.rooms[i := SetOccupied(t.rooms[i])])
        == t.(bookings := t.bookings + [row], rooms := t.rooms[i := SetOccupied(t.rooms[i])]);
  }

  lemma InsertPaymentOk(t: Snapshot, n: AutoIncrement, row: Payment)
    requires TablesOk(t, n) && row.paymentId == n.payment && PaymentFits(row)
    requires row.bookingId in Column(t.bookings, BookingId)
    ensures TablesOk(t.(payments := t.payments + [row]), n.(payment := n.payment + 1))
  {
    IdsBelowAppend(t.payments, PaymentId, n.payment, row);
  }

  lemma InsertRequestOk(t: Snapshot, n: AutoIncrement, row: MaintenanceRequest)
    requires TablesOk(t, n) && row.requestId == n.request && RequestFits(row)
    requires row.roomId in Column(t.rooms, RoomId)
    requires row.guestId.Some? ==> row.guestId.value in Column(t.guests, GuestId)
    ensures TablesOk(t.(requests := t.requests + [row]), n.(request := n.request + 1))
  {
    IdsBelowAppend(t.requests, RequestId, n.request, row);
  }

  lemma UpdateRequestOk(t: Snapshot, n: AutoIncrement, i: nat, status: MaintenanceStatus, resolvedDate: Option<CalendarDate>)
    requires TablesOk(t, n) && i < |t.requests|
    ensures TablesOk(t.(requests := t.requests[i := t.requests[i].(status := status, resolvedDate := resolvedDate)]), n)
  {
    var updated := t.requests[i].(status := status, resolvedDate := resolvedDate);
    var ms := t.requests[i := updated];
    assert IdsBelow(ms, RequestId, n.request) by {
      assert forall j :: 0 <= j < |ms| ==> RequestId(ms[j]) == RequestId(t.requests[j]);
    }
    assert RequestRefsOk(ms, t.rooms, t.guests) by {
      assert t.requests[i] in t.requests;
      assert forall x :: x in ms ==> x in t.requests || x == updated;
    }
    RequestsReplaced(t, n, ms);
  }

  /** Replacing the requests by rows with valid ids and keys keeps the
      constraints. */
  lemma RequestsReplaced(t: Snapshot, n: AutoIncrement, ms: seq<MaintenanceRequest>)
    requires TablesOk(t, n)
    requires IdsBelow(ms, RequestId, n.request) && RequestRefsOk(ms, t.rooms, t.guests)
    ensures TablesOk(t.(requests := ms), n)
  {
  }

  /** Replacing the rooms by rows with the same ids and numbers, each of
      which fits its columns, keeps the constraints. */
  lemma RoomsReplaced(t: Snapshot, n: AutoIncrement, rs: seq<Room>)
    requires TablesOk(t, n)
    requires Column(rs, RoomId) == Column(t.rooms, RoomId) && IdsBelow(rs, RoomId, n.room) && RoomsOk(rs)
    ensures TablesOk(t.(rooms := rs), n)
  {
  }

  class Database {
    var guests: seq<Guest>
    var rooms: seq<Room>
    var bookings: seq<Booking>
    var payments: seq<Payment>
    var users: seq<User>
    var requests: seq<MaintenanceRequest>
    var nextGuestId: int
    var nextRoomId: int
    var nextBookingId: int
    var nextPaymentId: int
    var nextUserId: int
    var nextRequestId: int

    function Tables(): Snapshot
      reads this
    {
      Snapshot(guests, rooms, bookings, payments, users, requests)
    }

    function Counters(): AutoIncrement
      reads this
    {
      AutoIncrement(nextGuestId, nextRoomId, nextBookingId, nextPaymentId, nextUserId, nextRequestId)
    }

    /** The constraints of the DDL hold of the tables. */
    predicate Valid()
      reads this
    {
      TablesOk(Tables(), Counters())
    }

    /** The tables `setup_database` creates: empty, every counter at 1. */
    constructor()
      ensures Valid()
      ensures Tables() == Snapshot([], [], [], [], [], [])
      ensures Counters() == AutoIncrement(1, 1, 1, 1, 1, 1)
    {
      guests, rooms, bookings, payments, users, requests := [], [], [], [], [], [];
      nextGuestId, nextRoomId, nextBookingId, nextPaymentId, nextUserId, nextRequestId := 1, 1, 1, 1, 1, 1;
      new;
      EmptyOk();
      assert Tables() == Snapshot([], [], [], [], [], []);
      assert Counters() == AutoIncrement(1, 1, 1, 1, 1, 1);
    }

    // -------------------------------------------------------------------
    // Reads

    /** `SELECT * FROM Guests`: primary-key order. */
    function ListGuests(): (r: seq<Guest>)
      reads this
      requires Valid()
      ensures KeysAscending(r, GuestId) && multiset(r) == multiset(guests)
    {
      guests
    }

    /** `SELECT * FROM Rooms`, in primary-key order, answered through the
        `Room` response model: one stored rent of 0.00 fails the whole list. */
    function ListRooms(): (r: Result<seq<Room>>)
      reads this
      requires Valid()
      ensures r.Ok? ==> KeysAscending(r.value, RoomId) && multiset(r.value) == multiset(rooms)
      ensures r.Ok? ==> forall x :: x in r.value ==> x.monthlyRent > 0
      ensures (exists x :: x in rooms && x.monthlyRent <= 0) ==> r == Err(ServerError)
    {
      if RentsPositive(rooms) then Ok(rooms) else Err(ServerError)
    }

    function ListBookings(): (r: seq<Booking>)
      reads this
      requires Valid()
      ensures KeysAscending(r, BookingId) && multiset(r) == multiset(bookings)
    {
      bookings
    }

    /** `SELECT * FROM Payments ORDER BY payment_date DESC`, answered through
        the `Payment` response model: one stored amount of 0.00 fails the
        whole list. */
    function ListPayments(): (r: Result<seq<Payment>>)
      reads this
      ensures r.Ok? ==> SortedDescBy(r.value, PaymentDate) && multiset(r.value) == multiset(payments)
      ensures r.Ok? ==> forall x :: x in r.value ==> x.amountPaid > 0
      ensures (exists x :: x in payments && x.amountPaid <= 0) ==> r == Err(ServerError)
    {
      if AmountsPositive(payments) then
        var sorted := SortDescBy(payments, PaymentDate);
        assert forall x :: x in sorted ==> x in multiset(payments);
        Ok(sorted)
      else Err(ServerError)
    }

    /** `SELECT * FROM MaintenanceRequests ORDER BY reported_date DESC`. */
    function ListMaintenanceRequests(): (r: seq<MaintenanceRequest>)
      reads this
      ensures SortedDescBy(r, ReportedDate) && multiset(r) == multiset(requests)
    {
      SortDescBy(requests, ReportedDate)
    }

    // -------------------------------------------------------------------
    // Inserts and updates

    /** `create_guest`. A value too long for its column raises a DataError the
        endpoint does not catch (500); a duplicate phone number, e-mail or id
        proof number fails the INSERT (400) after it has taken an id. */
    method CreateGuest(c: GuestCreate, now: int) returns (r: Result<Guest>)
      requires Valid()
      modifies this
      ensures Valid()
      ensures var row := Guest(old(nextGuestId), c.fullName, c.phoneNumber, c.email,
                               c.idProofType, c.idProofNumber, c.address, now);
        && (!GuestFits(row) ==> r == Err(ServerError) && unchanged(this))
        && (GuestFits(row) && DuplicateGuest(old(guests), c) ==>
              r == Err(BadRequest) && Tables() == old(Tables())
              && Counters() == old(Counters()).(guest := old(nextGuestId) + 1))
        && (GuestFits(row) && !DuplicateGuest(old(guests), c) ==>
              r == Ok(row) && Tables() == old(Tables()).(guests := old(guests) + [row])
              && Counters() == old(Counters()).(guest := old(nextGuestId) + 1))
    {
      var row := Guest(nextGuestId, c.fullName, c.phoneNumber, c.email,
                       c.idProofType, c.idProofNumber, c.address, now);
      if !GuestFits(row) {
        return Err(ServerError);
      }
      ghost var t := Tables();
      ghost var n := Counters().(guest := nextGuestId + 1);
      if DuplicateGuest(guests, c) {
        BumpOk(t, Counters(), n);
        nextGuestId := nextGuestId + 1;
        assert Tables() == t && Counters() == n;
        return Err(BadRequest);
      }
      InsertGuestOk(t, Counters(), row);
      nextGuestId := nextGuestId + 1;
      guests := guests + [row];
      assert Tables() == t.(guests := t.guests + [row]) && Counters() == n;
      r := Ok(row);
    }

    /** `create_room`. A room whose number is taken, up to case, fails the
        INSERT (400) after taking an id; a value too long, or a rent beyond
        DECIMAL(10,2), raises a DataError the endpoint does not catch (500).
        A rent below half a paisa is stored as 0.00 and committed, and then
        the row read back fails the `gt=0` of the response model (500). */
    method CreateRoom(c: RoomCreate, now: int) returns (r: Result<Room>)
      requires Valid()
      modifies this
      ensures Valid()
      ensures var row := Room(old(nextRoomId), c.roomNumber, c.roomType,
                              RoundToPaise(c.monthlyRent), c.occupancyStatus, now);
        && (!RoomFits(row) ==> r == Err(ServerError) && unchanged(this))
        && (RoomFits(row) && RoomNumberTaken(old(rooms), c.roomNumber) ==>
              r == Err(BadRequest) && Tables() == old(Tables())
              && Counters() == old(Counters()).(room := old(nextRoomId) + 1))
        && (RoomFits(row) && !RoomNumberTaken(old(rooms), c.roomNumber) ==>
              r == (if row.monthlyRent > 0 then Ok(row) else Err(ServerError))
              && Tables() == old(Tables()).(rooms := old(rooms) + [row])
              && Counters() == old(Counters()).(room := old(nextRoomId) + 1))
    {
      var row := Room(nextRoomId, c.roomNumber, c.roomType,
                      RoundToPaise(c.monthlyRent), c.occupancyStatus, now);
      if !RoomFits(row) {
        return Err(ServerError);
      }
      if RoomNumberTaken(rooms, c.roomNumber) {
        BumpOk(Tables(), Counters(), Counters().(room := nextRoomId + 1));
        nextRoomId := nextRoomId + 1;
        return Err(BadRequest);
      }
      InsertRoomOk(Tables(), Counters(), row);
      nextRoomId := nextRoomId + 1;
      rooms := rooms + [row];
      // SELECT * FROM Rooms WHERE room_id = ..., checked by the response model
      r := if row.monthlyRent > 0 then Ok(row) else Err(ServerError);
    }

    /** `create_booking`: 404 for an unknown room, 409 for a room that is not
        Available; otherwise the booking is inserted with the status it was
        given and the room becomes Occupied. An unknown guest fails the
        foreign key (400) after taking an id. */
    method CreateBooking(c: BookingCreate, now: int) returns (r: Result<Booking>)
      requires Valid()
      modifies this
      ensures Valid()
      ensures NoMatch(old(rooms), RoomId, c.roomId) ==> r == Err(NotFound) && unchanged(this)
      ensures var i := IndexBy(old(rooms), RoomId, c.roomId);
        i.Some? && old(rooms)[i.value].occupancyStatus != Available ==>
          r == Err(Conflict) && unchanged(this)
      ensures var i := IndexBy(old(rooms), RoomId, c.roomId);
        i.Some? && old(rooms)[i.value].occupancyStatus == Available
        && c.guestId !in Column(old(guests), GuestId) ==>
          r == Err(BadRequest) && Tables() == old(Tables())
          && Counters() == old(Counters()).(booking := old(nextBookingId) + 1)
      ensures var i := IndexBy(old(rooms), RoomId, c.roomId);
        var row := Booking(old(nextBookingId), c.guestId, c.roomId, c.checkInDate,
                           c.checkOutDate, c.bookingStatus, now);
        i.Some? && old(rooms)[i.value].occupancyStatus == Available
        && c.guestId in Column(old(guests), GuestId) ==>
          r == Ok(row)
          && Tables() == old(Tables()).(bookings := old(bookings) + [row],
                                        rooms := old(rooms)[i.value := SetOccupied(old(rooms)[i.value])])
          && Counters() == old(Counters()).(booking := old(nextBookingId) + 1)
    {
      var i := IndexBy(rooms, RoomId, c.roomId);
      if i.None? {
        return Err(NotFound);
      }
      if rooms[i.value].occupancyStatus != Available {
        return Err(Conflict);
      }
      // INSERT INTO Bookings: the statement takes an id, then checks the keys.
      var row := Booking(nextBookingId, c.guestId, c.roomId, c.checkInDate,
                         c.checkOutDate, c.bookingStatus, now);
      if c.guestId !in Column(guests, GuestId) {
        BumpOk(Tables(), Counters(), Counters().(booking := nextBookingId + 1));
        nextBookingId := nextBookingId + 1;
        return Err(BadRequest);
      }
      r := InsertBooking(row, i.value);
    }

    /** The INSERT of a booking whose keys hold, then the UPDATE of its room,
        committed together; the new row is read back by its id. */
    method InsertBooking(row: Booking, i: nat) returns (r: Result<Booking>)
      requires Valid() && row.bookingId == nextBookingId
      requires i < |rooms| && rooms[i].roomId == row.roomId
      requires row.guestId in Column(guests, GuestId)
      modifies this
      ensures Valid()
      ensures r == Ok(row)
      ensures Tables() == old(Tables()).(bookings := old(bookings) + [row],
                                         rooms := old(rooms)[i := SetOccupied(old(rooms)[i])])
      ensures Counters() == old(Counters()).(booking := old(nextBookingId) + 1)
    {
      ghost var t, n := Tables(), Counters();
      ghost var booked := rooms[i := SetOccupied(rooms[i])];
      UpdateWhereAscending(rooms, RoomId, SetOccupied, i);
      nextBookingId := nextBookingId + 1;
      bookings := bookings + [row];
      // UPDATE Rooms SET occupancy_status = 'Occupied' WHERE room_id = ...
      rooms := UpdateWhere(rooms, RoomId, row.roomId, SetOccupied);
      assert Tables() == t.(bookings := t.bookings + [row], rooms := booked);
      assert Counters() == n.(booking := n.booking + 1);
      BookRoomOk(t, n, row, i);
      ReadBackInserted(t.bookings, row);
      r := ReadBackBooking(bookings, row.bookingId);
    }

    /** `create_payment`: 404 for an unknown booking, whatever its status; a
        DataError (amount beyond DECIMAL(10,2), remarks too long) is caught and
        answered 400. An amount below half a paisa is stored as 0.00 and
        committed, and then fails the `gt=0` of the response model (500). */
    method CreatePayment(c: PaymentCreate, now: int) returns (r: Result<Payment>)
      requires Valid()
      modifies this
      ensures Valid()
      ensures NoMatch(old(bookings), BookingId, c.bookingId) ==> r == Err(NotFound) && unchanged(this)
      ensures var row := Payment(old(nextPaymentId), c.bookingId, RoundToPaise(c.amountPaid),
                                 c.paymentDate, c.paymentMethod, c.remarks, now);
        !NoMatch(old(bookings), BookingId, c.bookingId) ==>
          && (!PaymentFits(row) ==> r == Err(BadRequest) && unchanged(this))
          && (PaymentFits(row) ==>
                r == (if row.amountPaid > 0 then Ok(row) else Err(ServerError))
                && Tables() == old(Tables()).(payments := old(payments) + [row])
                && Counters() == old(Counters()).(payment := old(nextPaymentId) + 1))
    {
      var i := IndexBy(bookings, BookingId, c.bookingId);
      if i.None? {
        return Err(NotFound);
      }
      var row := Payment(nextPaymentId, c.bookingId, RoundToPaise(c.amountPaid),
                         c.paymentDate, c.paymentMethod, c.remarks, now);
      if !PaymentFits(row) {
        return Err(BadRequest);
      }
      assert bookings[i.value].bookingId == c.bookingId;
      InsertPaymentOk(Tables(), Counters(), row);
      nextPaymentId := nextPaymentId + 1;
      payments := payments + [row];
      // SELECT * FROM Payments WHERE payment_id = ..., checked by the response model
      r := if row.amountPaid > 0 then Ok(row) else Err(ServerError);
    }

    /** `create_maintenance_request`: 404 for an unknown room, and for an
        unknown guest only when `guest_id` is truthy. A description beyond
        the TEXT column is a DataError, caught and answered 400 before any id
        is taken; a `guest_id` of 0 skips the guest check and fails the
        foreign key instead (400, taking an id). */
    method CreateMaintenanceRequest(c: MaintenanceRequestCreate, now: int) returns (r: Result<MaintenanceRequest>)
      requires Valid()
      modifies this
      ensures Valid()
      ensures NoMatch(old(rooms), RoomId, c.roomId) ==> r == Err(NotFound) && unchanged(this)
      ensures !NoMatch(old(rooms), RoomId, c.roomId) && c.guestId.Some? && c.guestId.value != 0
              && c.guestId.value !in Column(old(guests), GuestId) ==>
                r == Err(NotFound) && unchanged(this)
      ensures var row := MaintenanceRequest(old(nextRequestId), c.roomId, c.guestId,
                                            c.issueDescription, c.reportedDate, c.status, c.resolvedDate);
        !NoMatch(old(rooms), RoomId, c.roomId)
        && (c.guestId.Some? && c.guestId.value != 0 ==> c.guestId.value in Column(old(guests), GuestId)) ==>
          && (!RequestFits(row) ==> r == Err(BadRequest) && unchanged(this))
          && (RequestFits(row) && c.guestId == Some(0) ==>
                r == Err(BadRequest) && Tables() == old(Tables())
                && Counters() == old(Counters()).(request := old(nextRequestId) + 1))
          && (RequestFits(row) && (c.guestId.Some? ==> c.guestId.value in Column(old(guests), GuestId)) ==>
                r == Ok(row) && Tables() == old(Tables()).(requests := old(requests) + [row])
                && Counters() == old(Counters()).(request := old(nextRequestId) + 1))
    {
      var i := IndexBy(rooms, RoomId, c.roomId);
      if i.None? {
        return Err(NotFound);
      }
      if c.guestId.Some? && c.guestId.value != 0 && c.guestId.value !in Column(guests, GuestId) {
        return Err(NotFound);
      }
      var row := MaintenanceRequest(nextRequestId, c.roomId, c.guestId,
                                    c.issueDescription, c.reportedDate, c.status, c.resolvedDate);
      if !RequestFits(row) {
        return Err(BadRequest);
      }
      if c.guestId.Some? && c.guestId.value !in Column(guests, GuestId) {
        BumpOk(Tables(), Counters(), Counters().(request := nextRequestId + 1));
        nextRequestId := nextRequestId + 1;
        return Err(BadRequest);
      }
      assert rooms[i.value].roomId == c.roomId;
      r := InsertRequest(row);
    }

    /** The INSERT of a maintenance request whose keys hold. */
    method InsertRequest(row: MaintenanceRequest) returns (r: Result<MaintenanceRequest>)
      requires Valid() && row.requestId == nextRequestId && RequestFits(row)
      requires row.roomId in Column(rooms, RoomId)
      requires row.guestId.Some? ==> row.guestId.value in Column(guests, GuestId)
      modifies this
      ensures Valid()
      ensures r == Ok(row)
      ensures Tables() == old(Tables()).(requests := old(requests) + [row])
      ensures Counters() == old(Counters()).(request := old(nextRequestId) + 1)
    {
      InsertRequestOk(Tables(), Counters(), row);
      nextRequestId := nextRequestId + 1;
      requests := requests + [row];
      r := Ok(row);
    }

    /** `update_maintenance_request`: 404 for an unknown id; otherwise exactly
        `status` and `resolved_date` of that request are overwritten, with any
        status and a missing date becoming NULL. */
    method UpdateMaintenanceRequest(id: int, status: MaintenanceStatus, resolvedDate: Option<CalendarDate>)
      returns (r: Result<MaintenanceRequest>)
      requires Valid()
      modifies this
      ensures Valid()
      ensures NoMatch(old(requests), RequestId, id) ==> r == Err(NotFound) && unchanged(this)
      ensures var i := IndexBy(old(requests), RequestId, id);
        i.Some? ==>
          var row := old(requests)[i.value].(status := status, resolvedDate := resolvedDate);
          r == Ok(row) && Tables() == old(Tables()).(requests := old(requests)[i.value := row])
          && Counters() == old(Counters())
    {
      var i := IndexBy(requests, RequestId, id);
      if i.None? {
        return Err(NotFound);
      }
      UpdateRequestOk(Tables(), Counters(), i.value, status, resolvedDate);
      // UPDATE MaintenanceRequests SET status = ..., resolved_date = ... WHERE request_id = ...
      var f := (m: MaintenanceRequest) => m.(status := status, resolvedDate := resolvedDate);
      UpdateWhereAscending(requests, RequestId, f, i.value);
      requests := UpdateWhere(requests, RequestId, id, f);
      r := Ok(requests[i.value]);
    }
  }

  /** The UNIQUE columns of Guests a new guest would collide on; a NULL e-mail
      or id proof number collides with nothing. */
  predicate DuplicateGuest(gs: seq<Guest>, c: GuestCreate) {
    CollationKey(c.phoneNumber) in Column(gs, PhoneKey)
    || (c.email.Some? && OptKey(c.email) in Column(gs, EmailKey))
    || (c.idProofNumber.Some? && OptKey(c.idProofNumber) in Column(gs, IdProofKey))
  }

  /** The UNIQUE index of Rooms already holds the number, up to case. */
  predicate RoomNumberTaken(rs: seq<Room>, number: string) {
    CollationKey(number) in Column(rs, RoomNumberKey)
  }

  function LowerOpt(s: Option<string>): Option<string> {
    if s.Some? then Some(Text.ToLower(s.value)) else None
  }

  /** A guest whose phone number, e-mail and id proof number differ from a
      stored guest's only in case is a duplicate of it. */
  lemma DuplicateGuestIgnoresCase(gs: seq<Guest>, c: GuestCreate)
    ensures DuplicateGuest(gs, c.(phoneNumber := Text.ToLower(c.phoneNumber), email := LowerOpt(c.email),
                                  idProofNumber := LowerOpt(c.idProofNumber)))
        == DuplicateGuest(gs, c)
  {
    Text.ToLowerIdempotent(c.phoneNumber);
    if c.email.Some? { Text.ToLowerIdempotent(c.email.value); }
    if c.idProofNumber.Some? { Text.ToLowerIdempotent(c.idProofNumber.value); }
  }

  /** `A101` is taken once `a101` is. */
  lemma RoomNumberTakenIgnoresCase(rs: seq<Room>, number: string)
    ensures RoomNumberTaken(rs, Text.ToLower(number)) == RoomNumberTaken(rs, number)
  {
    Text.ToLowerIdempotent(number);
  }
}
