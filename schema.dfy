/** The backend's data: the enumerations of `main.py`, the rows of the six
    tables with the limits their DDL declares, the JSON bodies clients post,
    and the validation pydantic performs before an endpoint runs. */
module Schema {
  import opened Common
  import opened Text

  // ---------------------------------------------------------------------
  // Enumerations, with the strings they travel as

  datatype RoomStatus = Available | Occupied | Maintenance {
    function Value(): string {
      match this
      case Available => "Available"
      case Occupied => "Occupied"
      case Maintenance => "Maintenance"
    }
  }

  datatype BookingStatus = Active | Completed | Cancelled {
    function Value(): string {
      match this
      case Active => "Active"
      case Completed => "Completed"
      case Cancelled => "Cancelled"
    }
  }

  datatype PaymentMethod = Cash | Upi | Card | BankTransfer {
    function Value(): string {
      match this
      case Cash => "Cash"
      case Upi => "UPI"
      case Card => "Card"
      case BankTransfer => "Bank Transfer"
    }
  }

  datatype MaintenanceStatus = Pending | InProgress | Resolved {
    function Value(): string {
      match this
      case Pending => "Pending"
      case InProgress => "In Progress"
      case Resolved => "Resolved"
    }
  }

  /** The `role` column of the Users table. */
  datatype Role = Admin | Staff {
    function Value(): string {
      match this
      case Admin => "Admin"
      case Staff => "Staff"
    }
  }

  /** The member of `RoomStatus` whose value is `s`, as `RoomStatus(s)` finds it. */
  function ParseRoomStatus(s: string): (r: Option<RoomStatus>)
    ensures r.Some? ==> r.value.Value() == s
    ensures forall st: RoomStatus :: st.Value() == s ==> r == Some(st)
  {
    if s == "Available" then Some(Available)
    else if s == "Occupied" then Some(Occupied)
    else if s == "Maintenance" then Some(Maintenance)
    else None
  }

  function ParseBookingStatus(s: string): (r: Option<BookingStatus>)
    ensures r.Some? ==> r.value.Value() == s
    ensures forall st: BookingStatus :: st.Value() == s ==> r == Some(st)
  {
    if s == "Active" then Some(Active)
    else if s == "Completed" then Some(Completed)
    else if s == "Cancelled" then Some(Cancelled)
    else None
  }

  function ParsePaymentMethod(s: string): (r: Option<PaymentMethod>)
    ensures r.Some? ==> r.value.Value() == s
    ensures forall m: PaymentMethod :: m.Value() == s ==> r == Some(m)
  {
    if s == "Cash" then Some(Cash)
    else if s == "UPI" then Some(Upi)
    else if s == "Card" then Some(Card)
    else if s == "Bank Transfer" then Some(BankTransfer)
    else None
  }

  function ParseMaintenanceStatus(s: string): (r: Option<MaintenanceStatus>)
    ensures r.Some? ==> r.value.Value() == s
    ensures forall st: MaintenanceStatus :: st.Value() == s ==> r == Some(st)
  {
    if s == "Pending" then Some(Pending)
    else if s == "In Progress" then Some(InProgress)
    else if s == "Resolved" then Some(Resolved)
    else None
  }

  // ---------------------------------------------------------------------
  // Table rows

  /** A row of Guests. `createdAt` is the CURRENT_TIMESTAMP of the insert. */
  datatype Guest = Guest(
    guestId: int, fullName: string, phoneNumber: string, email: Option<string>,
    idProofType: Option<string>, idProofNumber: Option<string>, address: Option<string>,
    createdAt: int)

  /** A row of Rooms; DECIMAL(10,2) rent is kept as a whole number of paise. */
  datatype Room = Room(
    roomId: int, roomNumber: string, roomType: string, monthlyRent: int,
    occupancyStatus: RoomStatus, createdAt: int)

  datatype Booking = Booking(
    bookingId: int, guestId: int, roomId: int, checkInDate: CalendarDate,
    checkOutDate: Option<CalendarDate>, bookingStatus: BookingStatus, createdAt: int)

  datatype Payment = Payment(
    paymentId: int, bookingId: int, amountPaid: int, paymentDate: CalendarDate,
    paymentMethod: PaymentMethod, remarks: Option<string>, createdAt: int)

  datatype User = User(
    userId: int, username: string, passwordHash: string, role: Role,
    lastLogin: Option<int>, createdAt: int)

  datatype MaintenanceRequest = MaintenanceRequest(
    requestId: int, roomId: int, guestId: Option<int>, issueDescription: string,
    reportedDate: CalendarDate, status: MaintenanceStatus, resolvedDate: Option<CalendarDate>)

  // Column widths the DDL declares.
  const FullNameWidth := 100
  const PhoneWidth := 15
  const EmailWidth := 100
  const IdProofTypeWidth := 50
  const IdProofNumberWidth := 50
  const RoomNumberWidth := 10
  const RoomTypeWidth := 50
  const RemarksWidth := 255
  const UsernameWidth := 50
  const PasswordHashWidth := 255
  /** A TEXT column holds at most 65,535 bytes. */
  const TextBytes := 65535
  /** The largest DECIMAL(10,2), 99999999.99, in paise. */
  const MaxDecimalPaise := 9999999999

  predicate FitsOpt(s: Option<string>, width: int) {
    s.None? || |s.value| <= width
  }

  // ---------------------------------------------------------------------
  // The models pydantic builds from a request body

  datatype GuestCreate = GuestCreate(
    fullName: string, phoneNumber: string, email: Option<string>,
    idProofType: Option<string>, idProofNumber: Option<string>, address: Option<string>)

  datatype RoomCreate = RoomCreate(
    roomNumber: string, roomType: string, monthlyRent: real, occupancyStatus: RoomStatus)

  datatype BookingCreate = BookingCreate(
    guestId: int, roomId: int, checkInDate: CalendarDate, checkOutDate: Option<CalendarDate>,
    bookingStatus: BookingStatus)

  datatype PaymentCreate = PaymentCreate(
    bookingId: int, amountPaid: real, paymentDate: CalendarDate, paymentMethod: PaymentMethod,
    remarks: Option<string>)

  datatype MaintenanceRequestCreate = MaintenanceRequestCreate(
    roomId: int, guestId: Option<int>, issueDescription: string, reportedDate: CalendarDate,
    status: MaintenanceStatus, resolvedDate: Option<CalendarDate>)

  // ---------------------------------------------------------------------
  // JSON bodies and pydantic's reading of their fields

  /** The JSON values the frontend sends: `JSON.stringify` writes NaN as null. */
  datatype Json = JNull | JNum(n: real) | JStr(s: string)

  type Body = map<string, Json>

  function Get(body: Body, key: string): Option<Json> {
    if key in body then Some(body[key]) else None
  }

  /** The integer a string of the form `[+-]digits` denotes, as Rust's
      `parse` reads it. */
  function SignedDigits(s: string): (r: Option<int>)
    ensures forall i :: s == IntToString(i) ==> r == Some(i)
  {
    var (neg, body) := SplitSign(s);
    if body != [] && PrefixLength(body, 10) == |body| then
      assert body[..|body|] == body;
      var v: int := ValueIn(body, 10);
      Some(if neg then -v else v)
    else None
  }

  /** The longest text pydantic reads as an integer. */
  const MaxIntText := 4300

  /** Pydantic's lax reading of a string for an `int` field: trimmed of white
      space at either end and at most 4300 characters long, the text is
      `[+-]digits`, or that followed by `.` and zeros only. */
  function IntText(s: string): (r: Option<int>)
    ensures forall i :: s == IntToString(i) && |s| <= MaxIntText ==> r == Some(i)
    ensures |Trim(s)| > MaxIntText ==> r == None
  {
    var t := Trim(s);
    IntToStringTrimmed(s);
    if |t| > MaxIntText then None
    else if SignedDigits(t).Some? then SignedDigits(t)
    else match IndexOf(t, '.')
      case Some(k) =>
        if forall j :: k < j < |t| ==> t[j] == '0' then SignedDigits(t[..k]) else None
      case None => None
  }

  /** The text of an integer has no white space to trim. */
  lemma IntToStringTrimmed(s: string)
    ensures (exists i :: s == IntToString(i)) ==> Trim(s) == s
  {
    if i :| s == IntToString(i) {
      TrimNoSpace(s);
    }
  }

  /** White space around the text, and a point followed by zeros, leave the
      integer pydantic reads unchanged: `" 5.00 "` is 5. */
  lemma IntTextLax(i: int, k: nat)
    requires |IntToString(i)| + k < MaxIntText
    ensures IntText(" " + IntToString(i) + "." + Zeros(k) + " ") == Some(i)
  {
    var d := IntToString(i);
    LaxDigits(d, k);
  }

  lemma LaxDigits(d: string, k: nat)
    requires d != [] && (d[0] == '-' || IsDigitIn(d[0], 10)) && AllDigitsIn(d[1..], 10)
    requires |d| + k < MaxIntText
    ensures IntText(" " + d + "." + Zeros(k) + " ") == SignedDigits(d)
  {
    var z := Zeros(k);
    var x := d + "." + z;
    var s := " " + x + " ";
    TrimAround(x);
    PointZeros(d, k);
    SignedDigitsNoPoint(x);
    IntTextOfPoint(s, x, |d|);
    Spaced(d, z);
  }

  lemma Spaced(d: string, z: string)
    ensures " " + (d + "." + z) + " " == " " + d + "." + z + " "
  {
  }

  /** No text with a point is `[+-]digits`. */
  lemma SignedDigitsNoPoint(s: string)
    requires '.' in s
    ensures SignedDigits(s) == None
  {
    var body := SplitSign(s).1;
    var j :| 0 <= j < |s| && s[j] == '.';
    assert '.' in body by {
      if s[0] == '-' || s[0] == '+' {
        assert body[j - 1] == s[j];
      } else {
        assert body[j] == s[j];
      }
    }
    assert body[..|body|] == body;
  }

  /** A trimmed text with a point and zeros only after it reads as the digits
      before the point. */
  lemma IntTextOfPoint(s: string, x: string, k: nat)
    requires Trim(s) == x && |x| <= MaxIntText && SignedDigits(x) == None
    requires IndexOf(x, '.') == Some(k) && forall j :: k < j < |x| ==> x[j] == '0'
    ensures IntText(s) == SignedDigits(x[..k])
  {
  }

  lemma TrimAround(x: string)
    ensures Trim(" " + x + " ") == Trim(x)
  {
    assert " " + x + " " == " " + (x + " ");
    TrimSpaceAround(x + " ");
    TrimSpaceAround(x);
  }

  /** The shape of `d.000`: nothing to trim, and the point after `d`. */
  lemma PointZeros(d: string, k: nat)
    requires d != [] && (d[0] == '-' || IsDigitIn(d[0], 10)) && AllDigitsIn(d[1..], 10)
    ensures var x := d + "." + Zeros(k);
      Trim(x) == x && IndexOf(x, '.') == Some(|d|) && x[..|d|] == d
      && (forall j :: |d| < j < |x| ==> x[j] == '0') && '.' in x
  {
    var x := d + "." + Zeros(k);
    assert x[|x| - 1] == '.' || x[|x| - 1] == '0';
    TrimNoSpace(x);
    assert x[|d|] == '.';
    assert x[..|d|] == d;
    assert '.' !in d by {
      forall j | 1 <= j < |d| ensures d[j] != '.' {
        assert d[1..][j - 1] == d[j];
      }
    }
  }

  /** A required `int` field: a whole JSON number or an integer string. */
  function ReadInt(j: Option<Json>): (r: Result<int>)
    ensures r.Err? ==> r.code == Unprocessable
    ensures forall i: int :: j == Some(JNum(i as real)) ==> r == Ok(i)
    ensures j.None? || j == Some(JNull) ==> r.Err?
  {
    match j
    case Some(JNum(n)) => if n == n.Floor as real then Ok(n.Floor) else Err(Unprocessable)
    case Some(JStr(s)) => if IntText(s).Some? then Ok(IntText(s).value) else Err(Unprocessable)
    case _ => Err(Unprocessable)
  }

  /** An `Optional[int] = None` field: missing or null is `None`. */
  function ReadOptInt(j: Option<Json>): (r: Result<Option<int>>)
    ensures r.Err? ==> r.code == Unprocessable
    ensures j.None? || j == Some(JNull) ==> r == Ok(None)
    ensures forall i: int :: j == Some(JNum(i as real)) ==> r == Ok(Some(i))
  {
    if j.None? || j == Some(JNull) then Ok(None)
    else match ReadInt(j)
      case Ok(i) => Ok(Some(i))
      case Err(c) => Err(c)
  }

  /** A required `str` field: pydantic does not turn numbers into strings. */
  function ReadStr(j: Option<Json>): (r: Result<string>)
    ensures r.Err? ==> r.code == Unprocessable
    ensures r.Ok? <==> j.Some? && j.value.JStr?
    ensures r.Ok? ==> j == Some(JStr(r.value))
  {
    match j
    case Some(JStr(s)) => Ok(s)
    case _ => Err(Unprocessable)
  }

  function ReadOptStr(j: Option<Json>): (r: Result<Option<string>>)
    ensures r.Err? ==> r.code == Unprocessable
    ensures j.None? || j == Some(JNull) ==> r == Ok(None)
    ensures forall s :: j == Some(JStr(s)) ==> r == Ok(Some(s))
    ensures (j.Some? && j.value.JNum?) ==> r.Err?
  {
    match j
    case None => Ok(None)
    case Some(JNull) => Ok(None)
    case Some(JStr(s)) => Ok(Some(s))
    case Some(JNum(_)) => Err(Unprocessable)
  }

  /** A required `date` field: the text `YYYY-MM-DD` of a real calendar day. */
  function ReadDate(j: Option<Json>): (r: Result<CalendarDate>)
    ensures r.Err? ==> r.code == Unprocessable
    ensures forall d: CalendarDate :: j == Some(JStr(IsoDate(d))) ==> r == Ok(d)
    ensures j == Some(JStr("")) ==> r.Err?
  {
    match j
    case Some(JStr(s)) =>
      IsoDatesRoundTrip();
      if ParseIsoDate(s).Some? then Ok(ParseIsoDate(s).value) else Err(Unprocessable)
    case _ => Err(Unprocessable)
  }

  /** An `Optional[date] = None` field: missing or null is `None`; any string,
      the empty one included, must be a date. */
  function ReadOptDate(j: Option<Json>): (r: Result<Option<CalendarDate>>)
    ensures r.Err? ==> r.code == Unprocessable
    ensures j.None? || j == Some(JNull) ==> r == Ok(None)
    ensures forall d: CalendarDate :: j == Some(JStr(IsoDate(d))) ==> r == Ok(Some(d))
    ensures j == Some(JStr("")) ==> r.Err?
  {
    if j.None? || j == Some(JNull) then Ok(None)
    else match ReadDate(j)
      case Ok(d) => Ok(Some(d))
      case Err(c) => Err(c)
  }

  /** A `Decimal = Field(..., gt=0)` field: a JSON number or decimal text,
      strictly positive. */
  function ReadPositiveDecimal(j: Option<Json>): (r: Result<real>)
    ensures r.Err? ==> r.code == Unprocessable
    ensures r.Ok? ==> r.value > 0.0
    ensures forall v: real :: v > 0.0 && j == Some(JNum(v)) ==> r == Ok(v)
    ensures forall v: real :: v <= 0.0 && j == Some(JNum(v)) ==> r.Err?
    ensures j.None? || j == Some(JNull) ==> r.Err?
  {
    var v := match j
      case Some(JNum(n)) => Some(n)
      case Some(JStr(s)) => ParseDecimal(s)
      case _ => None;
    if v.Some? && v.value > 0.0 then Ok(v.value) else Err(Unprocessable)
  }

  function ReadRoomStatus(j: Option<Json>, default: RoomStatus): (r: Result<RoomStatus>)
    ensures r.Err? ==> r.code == Unprocessable
    ensures j.None? ==> r == Ok(default)
    ensures forall st: RoomStatus :: j == Some(JStr(st.Value())) ==> r == Ok(st)
    ensures r.Ok? && j.Some? ==> j == Some(JStr(r.value.Value()))
  {
    match j
    case None => Ok(default)
    case Some(JStr(s)) => if ParseRoomStatus(s).Some? then Ok(ParseRoomStatus(s).value) else Err(Unprocessable)
    case _ => Err(Unprocessable)
  }

  function ReadBookingStatus(j: Option<Json>, default: BookingStatus): (r: Result<BookingStatus>)
    ensures r.Err? ==> r.code == Unprocessable
    ensures j.None? ==> r == Ok(default)
    ensures forall st: BookingStatus :: j == Some(JStr(st.Value())) ==> r == Ok(st)
    ensures r.Ok? && j.Some? ==> j == Some(JStr(r.value.Value()))
  {
    match j
    case None => Ok(default)
    case Some(JStr(s)) => if ParseBookingStatus(s).Some? then Ok(ParseBookingStatus(s).value) else Err(Unprocessable)
    case _ => Err(Unprocessable)
  }

  /** `payment_method` has no default: it must be present. */
  function ReadPaymentMethod(j: Option<Json>): (r: Result<PaymentMethod>)
    ensures r.Err? ==> r.code == Unprocessable
    ensures j.None? ==> r.Err?
    ensures forall m: PaymentMethod :: j == Some(JStr(m.Value())) ==> r == Ok(m)
    ensures r.Ok? ==> j == Some(JStr(r.value.Value()))
  {
    match j
    case Some(JStr(s)) => if ParsePaymentMethod(s).Some? then Ok(ParsePaymentMethod(s).value) else Err(Unprocessable)
    case _ => Err(Unprocessable)
  }

  function ReadMaintenanceStatus(j: Option<Json>, default: MaintenanceStatus): (r: Result<MaintenanceStatus>)
    ensures r.Err? ==> r.code == Unprocessable
    ensures j.None? ==> r == Ok(default)
    ensures forall st: MaintenanceStatus :: j == Some(JStr(st.Value())) ==> r == Ok(st)
    ensures r.Ok? && j.Some? ==> j == Some(JStr(r.value.Value()))
  {
    match j
    case None => Ok(default)
    case Some(JStr(s)) => if ParseMaintenanceStatus(s).Some? then Ok(ParseMaintenanceStatus(s).value) else Err(Unprocessable)
    case _ => Err(Unprocessable)
  }

  // ---------------------------------------------------------------------
  // Whole bodies

  function ValidateGuest(body: Body): (r: Result<GuestCreate>)
    ensures r.Err? ==> r.code == Unprocessable
    ensures "full_name" !in body || "phone_number" !in body ==> r.Err?
  {
    var fullName := ReadStr(Get(body, "full_name"));
    var phone := ReadStr(Get(body, "phone_number"));
    var email := ReadOptStr(Get(body, "email"));
    var proofType := ReadOptStr(Get(body, "id_proof_type"));
    var proofNumber := ReadOptStr(Get(body, "id_proof_number"));
    var address := ReadOptStr(Get(body, "address"));
    if fullName.Ok? && phone.Ok? && email.Ok? && proofType.Ok? && proofNumber.Ok? && address.Ok? then
      Ok(GuestCreate(fullName.value, phone.value, email.value, proofType.value, proofNumber.value, address.value))
    else Err(Unprocessable)
  }

  /** `RoomCreate`: rent strictly positive, status `Available` when omitted. */
  function ValidateRoom(body: Body): (r: Result<RoomCreate>)
    ensures r.Err? ==> r.code == Unprocessable
    ensures r.Ok? ==> r.value.monthlyRent > 0.0
    ensures r.Ok? && "occupancy_status" !in body ==> r.value.occupancyStatus == Available
    ensures "room_number" !in body || "room_type" !in body || "monthly_rent" !in body ==> r.Err?
  {
    var number := ReadStr(Get(body, "room_number"));
    var roomType := ReadStr(Get(body, "room_type"));
    var rent := ReadPositiveDecimal(Get(body, "monthly_rent"));
    var status := ReadRoomStatus(Get(body, "occupancy_status"), Available);
    if number.Ok? && roomType.Ok? && rent.Ok? && status.Ok? then
      Ok(RoomCreate(number.value, roomType.value, rent.value, status.value))
    else Err(Unprocessable)
  }

  /** `BookingCreate`: status `Active` when omitted. */
  function ValidateBooking(body: Body): (r: Result<BookingCreate>)
    ensures r.Err? ==> r.code == Unprocessable
    ensures r.Ok? && "booking_status" !in body ==> r.value.bookingStatus == Active
    ensures Get(body, "check_out_date") == Some(JStr("")) ==> r.Err?
    ensures "guest_id" !in body || "room_id" !in body || "check_in_date" !in body ==> r.Err?
  {
    var guestId := ReadInt(Get(body, "guest_id"));
    var roomId := ReadInt(Get(body, "room_id"));
    var checkIn := ReadDate(Get(body, "check_in_date"));
    var checkOut := ReadOptDate(Get(body, "check_out_date"));
    var status := ReadBookingStatus(Get(body, "booking_status"), Active);
    if guestId.Ok? && roomId.Ok? && checkIn.Ok? && checkOut.Ok? && status.Ok? then
      Ok(BookingCreate(guestId.value, roomId.value, checkIn.value, checkOut.value, status.value))
    else Err(Unprocessable)
  }

  /** `PaymentCreate`: amount strictly positive, method required. */
  function ValidatePayment(body: Body): (r: Result<PaymentCreate>)
    ensures r.Err? ==> r.code == Unprocessable
    ensures r.Ok? ==> r.value.amountPaid > 0.0
    ensures ("booking_id" !in body || "amount_paid" !in body || "payment_date" !in body
             || "payment_method" !in body) ==> r.Err?
  {
    var bookingId := ReadInt(Get(body, "booking_id"));
    var amount := ReadPositiveDecimal(Get(body, "amount_paid"));
    var date := ReadDate(Get(body, "payment_date"));
    var payMethod := ReadPaymentMethod(Get(body, "payment_method"));
    var remarks := ReadOptStr(Get(body, "remarks"));
    if bookingId.Ok? && amount.Ok? && date.Ok? && payMethod.Ok? && remarks.Ok? then
      Ok(PaymentCreate(bookingId.value, amount.value, date.value, payMethod.value, remarks.value))
    else Err(Unprocessable)
  }

  /** `MaintenanceRequestCreate`: status `Pending` when omitted. */
  function ValidateMaintenanceRequest(body: Body): (r: Result<MaintenanceRequestCreate>)
    ensures r.Err? ==> r.code == Unprocessable
    ensures r.Ok? && "status" !in body ==> r.value.status == Pending
    ensures r.Ok? && ("guest_id" !in body || body["guest_id"] == JNull) ==> r.value.guestId.None?
    ensures "room_id" !in body || "issue_description" !in body || "reported_date" !in body ==> r.Err?
  {
    var roomId := ReadInt(Get(body, "room_id"));
    var guestId := ReadOptInt(Get(body, "guest_id"));
    var issue := ReadStr(Get(body, "issue_description"));
    var reported := ReadDate(Get(body, "reported_date"));
    var status := ReadMaintenanceStatus(Get(body, "status"), Pending);
    var resolved := ReadOptDate(Get(body, "resolved_date"));
    if roomId.Ok? && guestId.Ok? && issue.Ok? && reported.Ok? && status.Ok? && resolved.Ok? then
      Ok(MaintenanceRequestCreate(roomId.value, guestId.value, issue.value, reported.value, status.value, resolved.value))
    else Err(Unprocessable)
  }

  /** The query of `PATCH /api/maintenance/{id}`: `status` is required. */
  function ValidateStatusQuery(status: Option<string>, resolvedDate: Option<string>): (r: Result<(MaintenanceStatus, Option<CalendarDate>)>)
    ensures r.Err? ==> r.code == Unprocessable
    ensures status.None? ==> r.Err?
    ensures forall st: MaintenanceStatus :: status == Some(st.Value()) && resolvedDate.None? ==> r == Ok((st, None))
    ensures forall st: MaintenanceStatus, d: CalendarDate ::
              (status == Some(st.Value()) && resolvedDate == Some(IsoDate(d)))
              ==> r == Ok((st, Some(d)))
  {
    var st := if status.Some? then ReadMaintenanceStatus(Some(JStr(status.value)), Pending) else Err(Unprocessable);
    var d := if resolvedDate.Some? then ReadOptDate(Some(JStr(resolvedDate.value))) else Ok(None);
    if st.Ok? && d.Ok? then Ok((st.value, d.value)) else Err(Unprocessable)
  }

  // ---------------------------------------------------------------------
  // Encodings that validation inverts

  function OptStrJson(s: Option<string>): Json {
    if s.Some? then JStr(s.value) else JNull
  }

  function OptDateJson(d: Option<CalendarDate>): Json
  {
    if d.Some? then JStr(IsoDate(d.value)) else JNull
  }

  function OptIntJson(i: Option<int>): Json {
    if i.Some? then JNum(i.value as real) else JNull
  }

  function BookingBody(c: BookingCreate): Body
  {
    map["guest_id" := JNum(c.guestId as real), "room_id" := JNum(c.roomId as real),
        "check_in_date" := JStr(IsoDate(c.checkInDate)),
        "check_out_date" := OptDateJson(c.checkOutDate),
        "booking_status" := JStr(c.bookingStatus.Value())]
  }

  /** Every booking can be posted: its JSON body validates back to it. */
  lemma ValidateBookingBody(c: BookingCreate)
    ensures ValidateBooking(BookingBody(c)) == Ok(c)
  {
    var b := BookingBody(c);
    assert Get(b, "guest_id") == Some(JNum(c.guestId as real));
    assert Get(b, "room_id") == Some(JNum(c.roomId as real));
    assert Get(b, "check_in_date") == Some(JStr(IsoDate(c.checkInDate)));
    assert Get(b, "check_out_date") == Some(OptDateJson(c.checkOutDate));
    assert Get(b, "booking_status") == Some(JStr(c.bookingStatus.Value()));
  }

  function GuestBody(g: GuestCreate): Body
  {
    map["full_name" := JStr(g.fullName), "phone_number" := JStr(g.phoneNumber),
        "email" := OptStrJson(g.email), "id_proof_type" := OptStrJson(g.idProofType),
        "id_proof_number" := OptStrJson(g.idProofNumber), "address" := OptStrJson(g.address)]
  }

  /** Every guest can be posted: its JSON body validates back to it. */
  lemma ValidateGuestBody(g: GuestCreate)
    ensures ValidateGuest(GuestBody(g)) == Ok(g)
  {
    var b := GuestBody(g);
    assert Get(b, "full_name") == Some(JStr(g.fullName));
    assert Get(b, "phone_number") == Some(JStr(g.phoneNumber));
    assert Get(b, "email") == Some(OptStrJson(g.email));
    assert Get(b, "id_proof_type") == Some(OptStrJson(g.idProofType));
    assert Get(b, "id_proof_number") == Some(OptStrJson(g.idProofNumber));
    assert Get(b, "address") == Some(OptStrJson(g.address));
  }

  function PaymentBody(c: PaymentCreate): Body
  {
    map["booking_id" := JNum(c.bookingId as real), "amount_paid" := JNum(c.amountPaid),
        "payment_date" := JStr(IsoDate(c.paymentDate)),
        "payment_method" := JStr(c.paymentMethod.Value()),
        "remarks" := OptStrJson(c.remarks)]
  }

  /** Every payment with a positive amount can be posted. */
  lemma ValidatePaymentBody(c: PaymentCreate)
    requires c.amountPaid > 0.0
    ensures ValidatePayment(PaymentBody(c)) == Ok(c)
  {
    var b := PaymentBody(c);
    assert Get(b, "booking_id") == Some(JNum(c.bookingId as real));
    assert Get(b, "amount_paid") == Some(JNum(c.amountPaid));
    assert Get(b, "payment_date") == Some(JStr(IsoDate(c.paymentDate)));
    assert Get(b, "payment_method") == Some(JStr(c.paymentMethod.Value()));
    assert Get(b, "remarks") == Some(OptStrJson(c.remarks));
  }

  function MaintenanceRequestBody(c: MaintenanceRequestCreate): Body
  {
    map["room_id" := JNum(c.roomId as real), "guest_id" := OptIntJson(c.guestId),
        "issue_description" := JStr(c.issueDescription),
        "reported_date" := JStr(IsoDate(c.reportedDate)),
        "status" := JStr(c.status.Value()),
        "resolved_date" := OptDateJson(c.resolvedDate)]
  }

  /** Every maintenance request can be posted. */
  lemma ValidateMaintenanceRequestBody(c: MaintenanceRequestCreate)
    ensures ValidateMaintenanceRequest(MaintenanceRequestBody(c)) == Ok(c)
  {
    var b := MaintenanceRequestBody(c);
    assert Get(b, "room_id") == Some(JNum(c.roomId as real));
    assert Get(b, "guest_id") == Some(OptIntJson(c.guestId));
    assert Get(b, "issue_description") == Some(JStr(c.issueDescription));
    assert Get(b, "reported_date") == Some(JStr(IsoDate(c.reportedDate)));
    assert Get(b, "status") == Some(JStr(c.status.Value()));
    assert Get(b, "resolved_date") == Some(OptDateJson(c.resolvedDate));
  }
}
