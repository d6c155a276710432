/** `PaymentManagement.js`: the payment history with the Total Payments,
    Total Amount and This Month cards, and the form that records a payment
    against an active booking. */
module PaymentView {
  import opened Common
  import opened Seqs
  import opened Text
  import opened Schema
  import opened Client

  // ---------------------------------------------------------------------
  // Describing a booking

  /** The bookings the selector offers: the `Active` ones, in list order. */
  function ActiveBookings(bookings: seq<BookingRow>): (r: seq<BookingRow>)
    ensures |r| <= |bookings|
    ensures forall x :: x in r <==> x in bookings && x.bookingStatus == "Active"
  {
    FilterBy(bookings, BookingRowStatus, "Active")
  }

  /** `value || 'Unknown'` of an optional field: a missing row and an empty
      text are both falsy. */
  function OrUnknown(s: Option<string>): (r: string)
    ensures r != ""
    ensures s.Some? && s.value != "" ==> r == s.value
    ensures s.None? || s == Some("") ==> r == "Unknown"
  {
    if s.Some? && s.value != "" then s.value else "Unknown"
  }

  /** `guest?.full_name || 'Unknown'` for the first guest with the id. */
  function GuestPart(guests: seq<GuestRow>, guestId: int): (s: string)
    ensures s != ""
    ensures NoMatch(guests, GuestRowId, guestId) ==> s == "Unknown"
    ensures forall i :: IsFirstMatch(guests, GuestRowId, guestId, i) ==>
              s == if guests[i].fullName != "" then guests[i].fullName else "Unknown"
  {
    match FindBy(guests, GuestRowId, guestId)
    case None => "Unknown"
    case Some(g) => OrUnknown(Some(g.fullName))
  }

  /** `room?.room_number || 'Unknown'` for the first room with the id. */
  function RoomPart(rooms: seq<RoomRow>, roomId: int): (s: string)
    ensures s != ""
    ensures NoMatch(rooms, RoomRowId, roomId) ==> s == "Unknown"
    ensures forall i :: IsFirstMatch(rooms, RoomRowId, roomId, i) ==>
              s == if rooms[i].roomNumber != "" then rooms[i].roomNumber else "Unknown"
  {
    match FindBy(rooms, RoomRowId, roomId)
    case None => "Unknown"
    case Some(r) => OrUnknown(Some(r.roomNumber))
  }

  /** `${guest?.full_name || 'Unknown'} - Room ${room?.room_number || 'Unknown'}`
      for a booking: each part falls back on its own. */
  function BookingLabel(guests: seq<GuestRow>, rooms: seq<RoomRow>, b: BookingRow): (s: string)
    ensures |s| >= |" - Room "| + 2
  {
    GuestPart(guests, b.guestId) + " - Room " + RoomPart(rooms, b.roomId)
  }

  /** `getBookingInfo`: `Unknown` for an id no booking has, otherwise the
      label of the first booking with the id. */
  function BookingInfo(bookings: seq<BookingRow>, guests: seq<GuestRow>, rooms: seq<RoomRow>, bookingId: int): (s: string)
    ensures NoMatch(bookings, BookingRowId, bookingId) ==> s == "Unknown"
    ensures forall i :: IsFirstMatch(bookings, BookingRowId, bookingId, i) ==>
              s == BookingLabel(guests, rooms, bookings[i])
  {
    match FindBy(bookings, BookingRowId, bookingId)
    case None => "Unknown"
    case Some(b) => BookingLabel(guests, rooms, b)
  }

  /** The bare `Unknown` of the table means exactly that the payment's
      booking is not among the loaded bookings: a found booking always gets
      the longer label, even when its guest and room are missing. */
  lemma InfoUnknownIff(bookings: seq<BookingRow>, guests: seq<GuestRow>, rooms: seq<RoomRow>, bookingId: int)
    ensures BookingInfo(bookings, guests, rooms, bookingId) == "Unknown"
            <==> NoMatch(bookings, BookingRowId, bookingId)
  {
    var i := IndexBy(bookings, BookingRowId, bookingId);
    if i.Some? {
      assert |BookingLabel(guests, rooms, bookings[i.value])| > |"Unknown"|;
    }
  }

  /** The text of an option of the selector: `Booking #id - ` and the label. */
  function OptionText(guests: seq<GuestRow>, rooms: seq<RoomRow>, b: BookingRow): (s: string)
    ensures |s| > |"Booking #" + IntToString(b.bookingId) + " - "|
    ensures (s)[..|"Booking #" + IntToString(b.bookingId) + " - "|] == "Booking #" + IntToString(b.bookingId) + " - "
  {
    var head := "Booking #" + IntToString(b.bookingId) + " - ";
    assert (head + BookingLabel(guests, rooms, b))[..|head|] == head;
    head + BookingLabel(guests, rooms, b)
  }

  /** Each option, chosen, posts the id of its booking: the option's value
      is the id's text, and `parseInt` reads it back. */
  lemma OptionPostsBooking(b: BookingRow)
    ensures ParseIntJson(IntToString(b.bookingId)) == JNum(b.bookingId as real)
  {
    IntJsonOfText(b.bookingId);
  }

  // ---------------------------------------------------------------------
  // The Total Amount card

  /** `parseFloat(payment.amount_paid || 0)`: a missing amount and an empty
      text count as 0; `None` stands for NaN. */
  function AmountOf(p: PaymentRow): (v: Option<real>)
    ensures p.amountPaid.None? || p.amountPaid == Some("") ==> v == Some(0.0)
    ensures p.amountPaid.Some? && p.amountPaid.value != "" ==> v == ParseFloat(p.amountPaid.value)
  {
    if p.amountPaid.Some? && p.amountPaid.value != "" then ParseFloat(p.amountPaid.value) else Some(0.0)
  }

  /** JavaScript's `+` on numbers where NaN absorbs. */
  function AddNumbers(a: Option<real>, b: Option<real>): (r: Option<real>)
    ensures r.None? <==> a.None? || b.None?
    ensures r.Some? ==> r.value == a.value + b.value
  {
    if a.Some? && b.Some? then Some(a.value + b.value) else None
  }

  /** The sum, left to right from 0, of numbers where NaN absorbs. */
  function SumNumbers(vs: seq<Option<real>>): (t: Option<real>)
    ensures t.None? <==> exists i :: 0 <= i < |vs| && vs[i].None?
    ensures (forall i :: 0 <= i < |vs| ==> vs[i].Some? && vs[i].value >= 0.0) ==> t.Some? && t.value >= 0.0
    decreases |vs|
  {
    if vs == [] then Some(0.0)
    else
      var front := vs[..|vs| - 1];
      assert forall i :: 0 <= i < |front| ==> front[i] == vs[i];
      AddNumbers(SumNumbers(front), vs[|vs| - 1])
  }

  /** The sum of two runs of numbers put together is the sum of their sums. */
  lemma {:induction false} SumAppend(a: seq<Option<real>>, b: seq<Option<real>>)
    ensures SumNumbers(a + b) == AddNumbers(SumNumbers(a), SumNumbers(b))
    decreases |b|
  {
    if b == [] {
      assert a + b == a;
    } else {
      var front := b[..|b| - 1];
      assert (a + b)[..|a + b| - 1] == a + front;
      assert (a + b)[|a + b| - 1] == b[|b| - 1];
      SumAppend(a, front);
    }
  }

  /** `calculateTotalPayments`: the `reduce` from 0 over the amounts. */
  function TotalPayments(ps: seq<PaymentRow>): (t: Option<real>)
    ensures t.None? <==> exists i :: 0 <= i < |ps| && AmountOf(ps[i]).None?
    ensures (forall i :: 0 <= i < |ps| ==> AmountOf(ps[i]).Some? && AmountOf(ps[i]).value >= 0.0)
            ==> t.Some? && t.value >= 0.0
  {
    SumNumbers(Column(ps, AmountOf))
  }

  /** The total of two histories put together is the sum of their totals. */
  lemma TotalAppend(a: seq<PaymentRow>, b: seq<PaymentRow>)
    ensures TotalPayments(a + b) == AddNumbers(TotalPayments(a), TotalPayments(b))
  {
    ColumnConcat(a, b, AmountOf);
    SumAppend(Column(a, AmountOf), Column(b, AmountOf));
  }

  /** Recording a payment raises the total by its amount: NaN when either
      the old total or the new amount is unreadable. */
  lemma TotalRecorded(ps: seq<PaymentRow>, p: PaymentRow)
    ensures TotalPayments(ps + [p]) == AddNumbers(TotalPayments(ps), AmountOf(p))
  {
    ColumnAppend(ps, p, AmountOf);
    SumSnoc(Column(ps, AmountOf), AmountOf(p));
  }

  lemma SumSnoc(vs: seq<Option<real>>, x: Option<real>)
    ensures SumNumbers(vs + [x]) == AddNumbers(SumNumbers(vs), x)
  {
    assert (vs + [x])[..|vs|] == vs;
  }

  // ---------------------------------------------------------------------
  // The This Month card

  /** The payment's date is in the month and year of `now`; text that is no
      date (`new Date` gives NaN) is in no month. */
  predicate InMonth(now: CalendarDate, p: PaymentRow) {
    var d := ParseIsoDate(p.paymentDate);
    d.Some? && d.value.year == now.year && d.value.month == now.month
  }

  function ThisMonthCount(ps: seq<PaymentRow>, now: CalendarDate): (n: nat)
    ensures n <= |ps|
  {
    |Filter(ps, (p: PaymentRow) => InMonth(now, p))|
  }

  /** A payment recorded with today's date, as the form proposes, counts
      this month; one dated in another month does not. */
  lemma ThisMonthRecorded(ps: seq<PaymentRow>, p: PaymentRow, now: CalendarDate)
    ensures p.paymentDate == IsoDate(now) ==> ThisMonthCount(ps + [p], now) == ThisMonthCount(ps, now) + 1
    ensures !InMonth(now, p) ==> ThisMonthCount(ps + [p], now) == ThisMonthCount(ps, now)
  {
    var inMonth := (q: PaymentRow) => InMonth(now, q);
    FilterAppend(ps, [p], inMonth);
    IsoDateRoundTrip(now);
    assert Filter([p], inMonth) == if inMonth(p) then [p] else [] by {
      assert [p][1..] == [];
    }
  }

  // ---------------------------------------------------------------------
  // The form

  datatype PaymentForm = PaymentForm(
    bookingId: string, amountPaid: string, paymentDate: string, paymentMethod: string, remarks: string)

  /** The form as first shown and as reset after a successful submit:
      today's date and `Cash`. `today` is the ISO text of the current date. */
  function EmptyForm(today: string): (f: PaymentForm)
    ensures f.bookingId == "" && f.amountPaid == "" && f.remarks == ""
    ensures f.paymentDate == today && f.paymentMethod == Cash.Value()
  {
    PaymentForm("", "", today, "Cash", "")
  }

  datatype Field = BookingField | AmountField | DateField | MethodField | RemarksField

  /** `handleChange`: the named field takes the value; the others stay. */
  function WithField(f: PaymentForm, field: Field, value: string): (g: PaymentForm)
    ensures field == BookingField ==> g == f.(bookingId := value)
    ensures field == AmountField ==> g == f.(amountPaid := value)
    ensures field == DateField ==> g == f.(paymentDate := value)
    ensures field == MethodField ==> g == f.(paymentMethod := value)
    ensures field == RemarksField ==> g == f.(remarks := value)
  {
    match field
    case BookingField => f.(bookingId := value)
    case AmountField => f.(amountPaid := value)
    case DateField => f.(paymentDate := value)
    case MethodField => f.(paymentMethod := value)
    case RemarksField => f.(remarks := value)
  }

  /** The JSON body `handleSubmit` posts: the form spread, the booking id
      through `parseInt` and the amount through `parseFloat`; empty remarks
      are sent as the empty string. */
  function Payload(f: PaymentForm): (body: Body)
    ensures body.Keys == {"booking_id", "amount_paid", "payment_date", "payment_method", "remarks"}
    ensures body["remarks"] == JStr(f.remarks)
  {
    map["booking_id" := ParseIntJson(f.bookingId),
        "amount_paid" := ParseFloatJson(f.amountPaid),
        "payment_date" := JStr(f.paymentDate),
        "payment_method" := JStr(f.paymentMethod),
        "remarks" := JStr(f.remarks)]
  }

  /** A form whose booking was chosen, whose amount reads as a positive
      number, whose date input holds a date and whose method is one of the
      four is accepted as that payment, its remarks kept even when empty. */
  lemma FilledFormValidates(f: PaymentForm, c: PaymentCreate)
    requires ParseInt(f.bookingId) == Some(c.bookingId)
    requires ParseFloat(f.amountPaid) == Some(c.amountPaid) && c.amountPaid > 0.0
    requires f.paymentDate == IsoDate(c.paymentDate)
    requires f.paymentMethod == c.paymentMethod.Value()
    requires c.remarks == Some(f.remarks)
    ensures ValidatePayment(Payload(f)) == Ok(c)
  {
    assert Payload(f) == PaymentBody(c);
    ValidatePaymentBody(c);
  }

  /** The amount input allows 0 and an unreadable amount posts null: the
      endpoint refuses both with 422, as it does a form with no booking
      chosen. */
  lemma UnpayableFormRefused(f: PaymentForm)
    requires ParseInt(f.bookingId).None? || ParseFloat(f.amountPaid).None? || ParseFloat(f.amountPaid).value <= 0.0
    ensures ValidatePayment(Payload(f)) == Err(Unprocessable)
  {
    UnpayableJson(f.bookingId, f.amountPaid);
    var b := Payload(f);
    assert Get(b, "booking_id") == Some(ParseIntJson(f.bookingId));
    assert Get(b, "amount_paid") == Some(ParseFloatJson(f.amountPaid));
    PaymentRefusedOf(b);
  }

  /** An unreadable id is posted as null, and an unreadable amount as null
      or a number that is not positive. */
  lemma UnpayableJson(bookingId: string, amount: string)
    requires ParseInt(bookingId).None? || ParseFloat(amount).None? || ParseFloat(amount).value <= 0.0
    ensures ParseIntJson(bookingId) == JNull || ParseFloatJson(amount) == JNull
            || (ParseFloatJson(amount).JNum? && ParseFloatJson(amount).n <= 0.0)
  {
  }

  /** A body without a readable booking id or a positive amount is refused. */
  lemma PaymentRefusedOf(b: Body)
    requires "booking_id" in b && "amount_paid" in b
    requires b["booking_id"] == JNull || b["amount_paid"] == JNull
             || (b["amount_paid"].JNum? && b["amount_paid"].n <= 0.0)
    ensures ValidatePayment(b) == Err(Unprocessable)
  {
  }

  /** The untouched booking selector and amount input hold the empty text,
      which reads as NaN. */
  lemma EmptyTextIsNaN()
    ensures ParseInt("") == None && ParseFloat("") == None
  {
    assert TrimStart("") == "";
  }

  const CreatedAlert := "Payment recorded successfully!"
  const CreateFallback := "Failed to create payment"

  // ---------------------------------------------------------------------
  // The component's state

  datatype Data = Data(payments: seq<PaymentRow>, bookings: seq<BookingRow>, guests: seq<GuestRow>, rooms: seq<RoomRow>)

  /** The data and error after `fetchData`: the four lists on success, the
      old lists and the message on failure. */
  function Reload(d: Data, l: Loaded<(seq<PaymentRow>, seq<BookingRow>, seq<GuestRow>, seq<RoomRow>)>): (r: (Data, Option<string>))
    ensures l.Loaded? ==> r == (Data(l.data.0, l.data.1, l.data.2, l.data.3), None)
    ensures l.LoadFailed? ==> r == (d, Some(l.message))
  {
    match l
    case Loaded((a, b, c, e)) => (Data(a, b, c, e), None)
    case LoadFailed(m) => (d, Some(m))
  }

  class PaymentManagement {
    var payments: seq<PaymentRow>
    var bookings: seq<BookingRow>
    var guests: seq<GuestRow>
    var rooms: seq<RoomRow>
    var loading: bool
    var error: Option<string>
    var showForm: bool
    var form: PaymentForm

    function Lists(): Data
      reads this
    {
      Data(payments, bookings, guests, rooms)
    }

    /** The component's first render: no data, still loading. */
    constructor(today: string)
      ensures Lists() == Data([], [], [], []) && loading && error.None?
      ensures !showForm && form == EmptyForm(today)
    {
      payments, bookings, guests, rooms := [], [], [], [];
      loading, error, showForm := true, None, false;
      form := EmptyForm(today);
    }

    function Screen(): Screen
      reads this
    {
      ScreenOf(loading, error)
    }

    /** The Total Amount card; NaN once any amount is unreadable. */
    function TotalAmount(): (t: Option<real>)
      reads this
      ensures t.None? <==> exists i :: 0 <= i < |payments| && AmountOf(payments[i]).None?
    {
      TotalPayments(payments)
    }

    /** The This Month card, for the current date `now`. */
    function ThisMonth(now: CalendarDate): (n: nat)
      reads this
      ensures n <= |payments|
    {
      ThisMonthCount(payments, now)
    }

    /** `fetchData`, once its fetches have settled. */
    method FetchData(paymentsRes: Fetch<PaymentRow>, bookingsRes: Fetch<BookingRow>,
                     guestsRes: Fetch<GuestRow>, roomsRes: Fetch<RoomRow>)
      modifies this
      ensures (Lists(), error) == Reload(old(Lists()), All4(paymentsRes, bookingsRes, guestsRes, roomsRes))
      ensures !loading && showForm == old(showForm) && form == old(form)
    {
      loading := true;
      var l := All4(paymentsRes, bookingsRes, guestsRes, roomsRes);
      if l.Loaded? {
        payments, bookings, guests, rooms := l.data.0, l.data.1, l.data.2, l.data.3;
        error := None;
      } else {
        error := Some(l.message);
      }
      loading := false;
    }

    /** The header button. */
    method ToggleForm()
      modifies this
      ensures showForm == !old(showForm)
      ensures Lists() == old(Lists()) && loading == old(loading) && error == old(error) && form == old(form)
    {
      showForm := !showForm;
    }

    method HandleChange(field: Field, value: string)
      modifies this
      ensures form == WithField(old(form), field, value)
      ensures Lists() == old(Lists()) && loading == old(loading) && error == old(error) && showForm == old(showForm)
    {
      form := WithField(form, field, value);
    }

    /** `handleSubmit`: posts the form; when the backend records the payment
      the lists are fetched again and the form closes and resets to today,
      otherwise the alert names the error and nothing else changes. */
    method HandleSubmit(response: Posted, today: string,
                        paymentsRes: Fetch<PaymentRow>, bookingsRes: Fetch<BookingRow>,
                        guestsRes: Fetch<GuestRow>, roomsRes: Fetch<RoomRow>)
      returns (payload: Body, alert: string)
      modifies this
      ensures payload == Payload(old(form))
      ensures response.Created? ==>
        (Lists(), error) == Reload(old(Lists()), All4(paymentsRes, bookingsRes, guestsRes, roomsRes))
        && !loading && !showForm && form == EmptyForm(today) && alert == CreatedAlert
      ensures !response.Created? ==>
        unchanged(this) && alert == FailureAlert(response, CreateFallback)
    {
      payload := Payload(form);
      if response.Created? {
        FetchData(paymentsRes, bookingsRes, guestsRes, roomsRes);
        showForm := false;
        form := EmptyForm(today);
        alert := CreatedAlert;
      } else {
        alert := FailureAlert(response, CreateFallback);
      }
    }
  }
}
