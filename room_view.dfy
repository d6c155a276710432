/** `RoomManagement.js`: the list of rooms with one card per occupancy
    status, and the form that adds a room. */
module RoomView {
  import opened Common
  import opened Seqs
  import opened Text
  import opened Schema
  import opened Client

  // ---------------------------------------------------------------------
  // Derived values

  /** `rooms.filter(r => r.occupancy_status === status).length`. */
  function CountWithStatus(rooms: seq<RoomRow>, status: string): (n: nat)
    ensures n <= |rooms|
  {
    |FilterBy(rooms, RoomRowStatus, status)|
  }

  /** The Available, Occupied and Maintenance cards never count a room twice,
      and add up to the Total card exactly when every status is one of the
      enum's. */
  lemma StatusCounts(rooms: seq<RoomRow>)
    ensures CountWithStatus(rooms, "Available") + CountWithStatus(rooms, "Occupied")
            + CountWithStatus(rooms, "Maintenance") <= |rooms|
    ensures CountWithStatus(rooms, "Available") + CountWithStatus(rooms, "Occupied")
            + CountWithStatus(rooms, "Maintenance") == |rooms|
            <==> forall x :: x in rooms ==> ParseRoomStatus(x.occupancyStatus).Some?
  {
    PartitionCount(rooms, RoomRowStatus, "Available", "Occupied", "Maintenance");
    forall x | x in rooms
      ensures ParseRoomStatus(x.occupancyStatus).Some?
              <==> x.occupancyStatus == "Available" || x.occupancyStatus == "Occupied"
                   || x.occupancyStatus == "Maintenance"
    {
      assert Available.Value() == "Available" && Occupied.Value() == "Occupied"
             && Maintenance.Value() == "Maintenance";
    }
  }

  /** For the rooms the backend lists the three cards add up to the total. */
  lemma ServedStatusCounts(rs: seq<Room>)
    ensures var c := Column(rs, RoomRowOf);
      CountWithStatus(c, "Available") + CountWithStatus(c, "Occupied")
      + CountWithStatus(c, "Maintenance") == |c|
  {
    ServedRoomCounts(rs);
  }

  /** `getStatusBadge`: `status.toLowerCase().replace(' ', '-')`. */
  function BadgeClass(status: string): (c: string)
    ensures |c| == |status|
    ensures forall k :: 0 <= k < |status| ==>
      c[k] == (if status[k] == ' ' && ' ' !in status[..k] then '-' else LowerChar(status[k]))
  {
    DashedClass(status)
  }

  /** The class of each status the backend can send. */
  lemma BadgeClasses(st: RoomStatus)
    ensures BadgeClass(st.Value()) == match st
      case Available => "available"
      case Occupied => "occupied"
      case Maintenance => "maintenance"
  {
    match st
    case Available =>
      LowerAvailable();
      DashedOneWord("Available", "available");
    case Occupied =>
      LowerOccupied();
      DashedOneWord("Occupied", "occupied");
    case Maintenance =>
      LowerMaintenance();
      DashedOneWord("Maintenance", "maintenance");
  }

  lemma LowerAvailable()
    ensures ToLower("Available") == "available"
  {
  }

  lemma LowerOccupied()
    ensures ToLower("Occupied") == "occupied"
  {
  }

  lemma LowerMaintenance()
    ensures ToLower("Maintenance") == "maintenance"
  {
  }

  /** The `room_type` selector's options. */
  const RoomTypeOptions: seq<string> := ["Single", "Double", "Triple", "Deluxe"]

  /** Every room type the selector offers fits `room_type VARCHAR(50)`. */
  lemma RoomTypesFit()
    ensures forall t :: t in RoomTypeOptions ==> 0 < |t| <= RoomTypeWidth
  {
  }

  // ---------------------------------------------------------------------
  // Loading

  /** `fetchRooms`, once its fetch has settled: a status outside 2xx is
      reported as `HTTP <status>`. */
  function LoadRooms(res: Fetch<RoomRow>): (l: Loaded<seq<RoomRow>>)
    ensures l.Loaded? <==> res.Fetched?
    ensures res.Fetched? ==> l.data == res.rows
    ensures res.NotOk? ==> l.message == "HTTP " + IntToString(res.status)
    ensures res.Unparsable? || res.Rejected? ==> l.message == res.message
  {
    match res
    case Fetched(rows) => Loaded(rows)
    case NotOk(status) => LoadFailed("HTTP " + IntToString(status))
    case Unparsable(m) => LoadFailed(m)
    case Rejected(m) => LoadFailed(m)
  }

  /** A status outside 2xx always shows the error screen, whose message
      names the status; unlike the other views it is never the generic
      `Failed to fetch data`. */
  lemma NotOkShown(status: int)
    ensures ScreenOf(false, Some(LoadRooms(NotOk(status)).message)).ErrorScreen?
    ensures LoadRooms(NotOk(status)).message != FetchFailed
  {
    var m := LoadRooms(NotOk(status)).message;
    assert m[0] == 'H';
    assert FetchFailed[0] == 'F';
  }

  // ---------------------------------------------------------------------
  // The form

  datatype RoomForm = RoomForm(roomNumber: string, roomType: string, monthlyRent: string, occupancyStatus: string)

  /** The form as first shown and as reset after a successful submit. */
  const EmptyForm := RoomForm("", "", "", "Available")

  datatype Field = NumberField | TypeField | RentField | StatusField

  /** `handleChange`: the named field takes the value; the others stay. */
  function WithField(f: RoomForm, field: Field, value: string): (g: RoomForm)
    ensures field == NumberField ==> g == f.(roomNumber := value)
    ensures field == TypeField ==> g == f.(roomType := value)
    ensures field == RentField ==> g == f.(monthlyRent := value)
    ensures field == StatusField ==> g == f.(occupancyStatus := value)
  {
    match field
    case NumberField => f.(roomNumber := value)
    case TypeField => f.(roomType := value)
    case RentField => f.(monthlyRent := value)
    case StatusField => f.(occupancyStatus := value)
  }

  /** `JSON.stringify(formData)`: every field is posted as the string typed. */
  function Payload(f: RoomForm): (body: Body)
    ensures "room_number" in body && "room_type" in body && "monthly_rent" in body
    ensures "occupancy_status" in body
    ensures body["monthly_rent"] == JStr(f.monthlyRent)
  {
    map["room_number" := JStr(f.roomNumber),
        "room_type" := JStr(f.roomType),
        "monthly_rent" := JStr(f.monthlyRent),
        "occupancy_status" := JStr(f.occupancyStatus)]
  }

  /** A form with a whole positive rent typed in digits is accepted as the
      room that was typed: the rent string is read as a decimal. */
  lemma TypedFormValidates(f: RoomForm, rent: nat, status: RoomStatus)
    requires rent > 0 && f.monthlyRent == NatToString(rent)
    requires f.occupancyStatus == status.Value()
    ensures ValidateRoom(Payload(f)) == Ok(RoomCreate(f.roomNumber, f.roomType, rent as real, status))
  {
    var b := Payload(f);
    assert Get(b, "room_number") == Some(JStr(f.roomNumber));
    assert Get(b, "room_type") == Some(JStr(f.roomType));
    assert Get(b, "monthly_rent") == Some(JStr(NatToString(rent)));
    assert Get(b, "occupancy_status") == Some(JStr(status.Value()));
    RentRead(Get(b, "monthly_rent"), rent);
    ValidateRoomOf(b, f.roomNumber, f.roomType, rent as real, status);
  }

  /** A rent typed in digits is accepted exactly when it is not zero. */
  lemma RentRead(j: Option<Json>, rent: nat)
    requires j == Some(JStr(NatToString(rent)))
    ensures ReadPositiveDecimal(j) == if rent > 0 then Ok(rent as real) else Err(Unprocessable)
  {
    ParseOfDigits(rent);
  }

  lemma ValidateRoomOf(b: Body, number: string, roomType: string, rent: real, status: RoomStatus)
    requires Get(b, "room_number") == Some(JStr(number)) && Get(b, "room_type") == Some(JStr(roomType))
    requires ReadPositiveDecimal(Get(b, "monthly_rent")) == Ok(rent)
    requires Get(b, "occupancy_status") == Some(JStr(status.Value()))
    ensures ValidateRoom(b) == Ok(RoomCreate(number, roomType, rent, status))
  {
  }

  /** The rent input allows 0 and an empty input, and the endpoint refuses
      both with 422. */
  lemma ZeroOrEmptyRentRefused(f: RoomForm)
    requires f.monthlyRent == "0" || f.monthlyRent == ""
    ensures ValidateRoom(Payload(f)) == Err(Unprocessable)
  {
    var b := Payload(f);
    assert Get(b, "monthly_rent") == Some(JStr(f.monthlyRent));
    if f.monthlyRent == "0" {
      ZeroText();
      RentRead(Get(b, "monthly_rent"), 0);
    }
    assert ReadPositiveDecimal(Get(b, "monthly_rent")).Err?;
  }

  lemma ZeroText()
    ensures NatToString(0) == "0"
  {
  }

  const CreatedAlert := "Room added successfully!"
  const CreateFallback := "Failed to create room"

  // ---------------------------------------------------------------------
  // The component's state

  class RoomManagement {
    var rooms: seq<RoomRow>
    var loading: bool
    var error: Option<string>
    var showForm: bool
    var form: RoomForm

    /** The component's first render: no rooms, still loading. */
    constructor()
      ensures rooms == [] && loading && error.None? && !showForm && form == EmptyForm
    {
      rooms, loading, error, showForm, form := [], true, None, false, EmptyForm;
    }

    function Screen(): Screen
      reads this
    {
      ScreenOf(loading, error)
    }

    /** `fetchRooms`: the rows on success, the old rows and the message on
      failure; loading ends either way. */
    method FetchRooms(res: Fetch<RoomRow>)
      modifies this
      ensures var l := LoadRooms(res);
        (l.Loaded? ==> rooms == l.data && error.None?)
        && (l.LoadFailed? ==> rooms == old(rooms) && error == Some(l.message))
      ensures !loading && showForm == old(showForm) && form == old(form)
    {
      loading := true;
      var l := LoadRooms(res);
      if l.Loaded? {
        rooms := l.data;
        error := None;
      } else {
        error := Some(l.message);
      }
      loading := false;
    }

    /** The header button. */
    method ToggleForm()
      modifies this
      ensures showForm == !old(showForm)
      ensures rooms == old(rooms) && loading == old(loading) && error == old(error) && form == old(form)
    {
      showForm := !showForm;
    }

    method HandleChange(field: Field, value: string)
      modifies this
      ensures form == WithField(old(form), field, value)
      ensures rooms == old(rooms) && loading == old(loading) && error == old(error) && showForm == old(showForm)
    {
      form := WithField(form, field, value);
    }

    /** `handleSubmit`: posts the form; when the backend creates the room the
      list is fetched again and the form closes and resets, otherwise the
      alert names the error and nothing else changes. */
    method HandleSubmit(response: Posted, roomsRes: Fetch<RoomRow>) returns (payload: Body, alert: string)
      modifies this
      ensures payload == Payload(old(form))
      ensures response.Created? ==>
        var l := LoadRooms(roomsRes);
        (l.Loaded? ==> rooms == l.data && error.None?)
        && (l.LoadFailed? ==> rooms == old(rooms) && error == Some(l.message))
        && !loading && !showForm && form == EmptyForm && alert == CreatedAlert
      ensures !response.Created? ==>
        unchanged(this) && alert == FailureAlert(response, CreateFallback)
    {
      payload := Payload(form);
      if response.Created? {
        FetchRooms(roomsRes);
        showForm := false;
        form := EmptyForm;
        alert := CreatedAlert;
      } else {
        alert := FailureAlert(response, CreateFallback);
      }
    }
  }
}
