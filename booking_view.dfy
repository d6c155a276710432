/** `BookingManagement.js`: the list of bookings with the Active, Total and
    Available Rooms cards, and the form that creates a booking. */
module BookingView {
  import opened Common
  import opened Seqs
  import opened Text
  import opened Schema
  import opened Client
  import Backend

  // ---------------------------------------------------------------------
  // Derived values

  /** `availableRooms`: the rooms whose status is `Available`, in list order. */
  function AvailableRooms(rooms: seq<RoomRow>): (r: seq<RoomRow>)
    ensures |r| <= |rooms|
    ensures forall x :: x in r <==> x in rooms && x.occupancyStatus == "Available"
  {
    FilterBy(rooms, RoomRowStatus, "Available")
  }

  /** `activeBookings`: how many bookings are `Active`. */
  function ActiveCount(bookings: seq<BookingRow>): (n: nat)
    ensures n <= |bookings|
  {
    |FilterBy(bookings, BookingRowStatus, "Active")|
  }

  function CountWithStatus(bookings: seq<BookingRow>, status: string): (n: nat)
    ensures n <= |bookings|
  {
    |FilterBy(bookings, BookingRowStatus, status)|
  }

  /** The Active card never exceeds the Total card; with the Completed and
      Cancelled bookings it makes up the total exactly when every status is
      one of the enum's, as it is for every booking the backend stores. */
  lemma StatusCounts(bookings: seq<BookingRow>)
    ensures ActiveCount(bookings) + CountWithStatus(bookings, "Completed")
            + CountWithStatus(bookings, "Cancelled") <= |bookings|
    ensures ActiveCount(bookings) + CountWithStatus(bookings, "Completed")
            + CountWithStatus(bookings, "Cancelled") == |bookings|
            <==> forall x :: x in bookings ==> ParseBookingStatus(x.bookingStatus).Some?
  {
    PartitionCount(bookings, BookingRowStatus, "Active", "Completed", "Cancelled");
    forall x | x in bookings
      ensures ParseBookingStatus(x.bookingStatus).Some?
              <==> x.bookingStatus == "Active" || x.bookingStatus == "Completed" || x.bookingStatus == "Cancelled"
    {
      assert Active.Value() == "Active" && Completed.Value() == "Completed" && Cancelled.Value() == "Cancelled";
    }
  }

  /** `getStatusBadge`: the lower-cased status, with no space replaced. */
  function BadgeClass(status: string): (c: string)
    ensures |c| == |status|
    ensures forall k :: 0 <= k < |status| ==> c[k] == LowerChar(status[k])
  {
    ToLower(status)
  }

  /** Unlike the other views, a space in the status stays a space. */
  lemma BadgeClassKeepsSpace()
    ensures BadgeClass("In Progress") == "in progress"
  {
    var c := BadgeClass("In Progress");
    assert c[0] == 'i' && c[2] == ' ' && c[3] == 'p';
  }

  /** The class of each status the backend can send. */
  lemma BadgeClasses(st: BookingStatus)
    ensures BadgeClass(st.Value()) == match st
      case Active => "active"
      case Completed => "completed"
      case Cancelled => "cancelled"
  {
    match st
    case Active => LowerActive();
    case Completed => LowerCompleted();
    case Cancelled => LowerCancelled();
  }

  lemma LowerActive()
    ensures ToLower("Active") == "active"
  {
  }

  lemma LowerCompleted()
    ensures ToLower("Completed") == "completed"
  {
  }

  lemma LowerCancelled()
    ensures ToLower("Cancelled") == "cancelled"
  {
  }

  /** `getGuestName`: the name of the first guest with the id. */
  function GuestName(guests: seq<GuestRow>, guestId: int): (s: string)
    ensures NoMatch(guests, GuestRowId, guestId) ==> s == "Unknown"
    ensures forall i :: IsFirstMatch(guests, GuestRowId, guestId, i) ==> s == guests[i].fullName
  {
    match FindBy(guests, GuestRowId, guestId)
    case Some(g) => g.fullName
    case None => "Unknown"
  }

  /** `getRoomNumber`: the number of the first room with the id. */
  function RoomNumber(rooms: seq<RoomRow>, roomId: int): (s: string)
    ensures NoMatch(rooms, RoomRowId, roomId) ==> s == "Unknown"
    ensures forall i :: IsFirstMatch(rooms, RoomRowId, roomId, i) ==> s == rooms[i].roomNumber
  {
    match FindBy(rooms, RoomRowId, roomId)
    case Some(r) => r.roomNumber
    case None => "Unknown"
  }

  /** The foreign keys of the stored tables mean that a listed booking shows
      the name of its guest and the number of its room, never `Unknown`
      for want of a row. */
  lemma StoredBookingNames(t: Backend.Snapshot, n: Backend.AutoIncrement, b: Booking)
    requires Backend.TablesOk(t, n) && b in t.bookings
    ensures FindBy(t.guests, Backend.GuestId, b.guestId).Some?
    ensures GuestName(Column(t.guests, GuestRowOf), b.guestId)
            == FindBy(t.guests, Backend.GuestId, b.guestId).value.fullName
    ensures FindBy(t.rooms, Backend.RoomId, b.roomId).Some?
    ensures RoomNumber(Column(t.rooms, RoomRowOf), b.roomId)
            == FindBy(t.rooms, Backend.RoomId, b.roomId).value.roomNumber
  {
    assert Backend.BookingRefsOk(t.bookings, t.guests, t.rooms);
    FoundInColumn(t.guests, Backend.GuestId, b.guestId);
    FindByColumn(t.guests, GuestRowOf, Backend.GuestId, GuestRowId, b.guestId);
    FoundInColumn(t.rooms, Backend.RoomId, b.roomId);
    FindByColumn(t.rooms, RoomRowOf, Backend.RoomId, RoomRowId, b.roomId);
  }

  /** The submit button is disabled exactly when there is no guest or no
      available room to choose. */
  function SubmitDisabled(guests: seq<GuestRow>, rooms: seq<RoomRow>): (d: bool)
    ensures !d <==> guests != [] && exists r :: r in rooms && r.occupancyStatus == "Available"
  {
    var available := AvailableRooms(rooms);
    assert available != [] ==> available[0] in available;
    guests == [] || available == []
  }

  // ---------------------------------------------------------------------
  // The form

  datatype BookingForm = BookingForm(
    guestId: string, roomId: string, checkInDate: string, checkOutDate: string, bookingStatus: string)

  /** The form as first shown and as reset after a successful submit. */
  const EmptyForm := BookingForm("", "", "", "", "Active")

  datatype Field = GuestField | RoomField | CheckInField | CheckOutField | StatusField

  /** `handleChange`: the named field takes the value; the others stay. */
  function WithField(f: BookingForm, field: Field, value: string): (g: BookingForm)
    ensures field == GuestField ==> g == f.(guestId := value)
    ensures field == RoomField ==> g == f.(roomId := value)
    ensures field == CheckInField ==> g == f.(checkInDate := value)
    ensures field == CheckOutField ==> g == f.(checkOutDate := value)
    ensures field == StatusField ==> g == f.(bookingStatus := value)
  {
    match field
    case GuestField => f.(guestId := value)
    case RoomField => f.(roomId := value)
    case CheckInField => f.(checkInDate := value)
    case CheckOutField => f.(checkOutDate := value)
    case StatusField => f.(bookingStatus := value)
  }

  /** The JSON body `handleSubmit` posts as written: the form spread, with
      the two ids through `parseInt`; an untouched check-out input is sent
      as the empty string. */
  function PayloadAsWritten(f: BookingForm): (body: Body)
    ensures "guest_id" in body && "room_id" in body && "check_in_date" in body
    ensures "check_out_date" in body && "booking_status" in body
    ensures body["check_out_date"] == JStr(f.checkOutDate)
  {
    map["guest_id" := ParseIntJson(f.guestId),
        "room_id" := ParseIntJson(f.roomId),
        "check_in_date" := JStr(f.checkInDate),
        "check_out_date" := JStr(f.checkOutDate),
        "booking_status" := JStr(f.bookingStatus)]
  }

  /** A booking without a check-out date cannot be created from the form:
      the empty string is not a date, and the endpoint answers 422. */
  lemma EmptyCheckOutRefused(f: BookingForm)
    requires f.checkOutDate == ""
    ensures ValidateBooking(PayloadAsWritten(f)) == Err(Unprocessable)
  {
    assert Get(PayloadAsWritten(f), "check_out_date") == Some(JStr(""));
  }

  /** The body with the evident intent: an empty check-out input is sent as
      null, the optional date left out. */
  function Payload(f: BookingForm): (body: Body)
    ensures "guest_id" in body && "room_id" in body && "check_in_date" in body
    ensures "check_out_date" in body && "booking_status" in body
    ensures f.checkOutDate == "" ==> body["check_out_date"] == JNull
  {
    map["guest_id" := ParseIntJson(f.guestId),
        "room_id" := ParseIntJson(f.roomId),
        "check_in_date" := JStr(f.checkInDate),
        "check_out_date" := if f.checkOutDate == "" then JNull else JStr(f.checkOutDate),
        "booking_status" := JStr(f.bookingStatus)]
  }

  /** A form filled from the selectors and the date inputs (which hold
      `YYYY-MM-DD` or nothing), with or without a check-out date, is
      accepted as the booking that was chosen. */
  lemma SelectedFormValidates(f: BookingForm, c: BookingCreate)
    requires ParseInt(f.guestId) == Some(c.guestId) && ParseInt(f.roomId) == Some(c.roomId)
    requires f.checkInDate == IsoDate(c.checkInDate)
    requires f.checkOutDate == if c.checkOutDate.Some? then IsoDate(c.checkOutDate.value) else ""
    requires f.bookingStatus == c.bookingStatus.Value()
    ensures ValidateBooking(Payload(f)) == Ok(c)
  {
    assert Payload(f) == BookingBody(c);
    ValidateBookingBody(c);
  }

  const CreatedAlert := "Booking created successfully!"
  const CreateFallback := "Failed to create booking"

  // ---------------------------------------------------------------------
  // The component's state

  datatype Data = Data(bookings: seq<BookingRow>, guests: seq<GuestRow>, rooms: seq<RoomRow>)

  /** The data and error after `fetchData`: the three lists on success, the
      old lists and the message on failure. */
  function Reload(d: Data, l: Loaded<(seq<BookingRow>, seq<GuestRow>, seq<RoomRow>)>): (r: (Data, Option<string>))
    ensures l.Loaded? ==> r == (Data(l.data.0, l.data.1, l.data.2), None)
    ensures l.LoadFailed? ==> r == (d, Some(l.message))
  {
    match l
    case Loaded((a, b, c)) => (Data(a, b, c), None)
    case LoadFailed(m) => (d, Some(m))
  }

  class BookingManagement {
    var bookings: seq<BookingRow>
    var guests: seq<GuestRow>
    var rooms: seq<RoomRow>
    var loading: bool
    var error: Option<string>
    var showForm: bool
    var form: BookingForm

    function Lists(): Data
      reads this
    {
      Data(bookings, guests, rooms)
    }

    /** The component's first render: no data, still loading. */
    constructor()
      ensures Lists() == Data([], [], []) && loading && error.None?
      ensures !showForm && form == EmptyForm
    {
      bookings, guests, rooms := [], [], [];
      loading, error, showForm := true, None, false;
      form := EmptyForm;
    }

    function Screen(): Screen
      reads this
    {
      ScreenOf(loading, error)
    }

    /** The Active Bookings card. */
    function ActiveBookings(): (n: nat)
      reads this
      ensures n <= |bookings|
    {
      ActiveCount(bookings)
    }

    /** `fetchData`, once its fetches have settled. */
    method FetchData(bookingsRes: Fetch<BookingRow>, guestsRes: Fetch<GuestRow>, roomsRes: Fetch<RoomRow>)
      modifies this
      ensures (Lists(), error) == Reload(old(Lists()), All3(bookingsRes, guestsRes, roomsRes))
      ensures !loading && showForm == old(showForm) && form == old(form)
    {
      loading := true;
      var l := All3(bookingsRes, guestsRes, roomsRes);
      if l.Loaded? {
        bookings, guests, rooms := l.data.0, l.data.1, l.data.2;
        error := None;
      } else {
        error := Some(l.message);
      }
      loading := false;
    }

    /** The header button. */
    method ToggleForm()
      modifies this
      ensures showForm == !old(showForm)
      ensures Lists() == old(Lists()) && loading == old(loading) && error == old(error) && form == old(form)
    {
      showForm := !showForm;
    }

    method HandleChange(field: Field, value: string)
      modifies this
      ensures form == WithField(old(form), field, value)
      ensures Lists() == old(Lists()) && loading == old(loading) && error == old(error) && showForm == old(showForm)
    {
      form := WithField(form, field, value);
    }

    /** `handleSubmit`: posts the form as written, so that an empty check-out
      input goes out as the empty string; when the backend creates the booking
      the lists are fetched again and the form closes and resets, otherwise
      the alert names the error and nothing else changes. */
    method HandleSubmit(response: Posted,
                        bookingsRes: Fetch<BookingRow>, guestsRes: Fetch<GuestRow>, roomsRes: Fetch<RoomRow>)
      returns (payload: Body, alert: string)
      modifies this
      ensures payload == PayloadAsWritten(old(form))
      ensures response.Created? ==>
        (Lists(), error) == Reload(old(Lists()), All3(bookingsRes, guestsRes, roomsRes))
        && !loading && !showForm && form == EmptyForm && alert == CreatedAlert
      ensures !response.Created? ==>
        unchanged(this) && alert == FailureAlert(response, CreateFallback)
    {
      payload := PayloadAsWritten(form);
      if response.Created? {
        FetchData(bookingsRes, guestsRes, roomsRes);
        showForm := false;
        form := EmptyForm;
        alert := CreatedAlert;
      } else {
        alert := FailureAlert(response, CreateFallback);
      }
    }
  }
}
