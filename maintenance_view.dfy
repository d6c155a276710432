/** `MaintenanceManagement.js`: the list of maintenance requests with their
    status counts, the form that creates a request, and the buttons that move
    a request on. */
module MaintenanceView {
  import opened Common
  import opened Seqs
  import opened Text
  import opened Schema
  import opened Client
  import Backend

  // ---------------------------------------------------------------------
  // Derived values

  /** `requests.filter(r => r.status === status).length`. */
  function CountWithStatus(requests: seq<RequestRow>, status: string): (n: nat)
    ensures n <= |requests|
  {
    |FilterBy(requests, RequestRowStatus, status)|
  }

  /** The Pending, In Progress and Resolved cards never count a request twice,
      and together count every request exactly when each status is one of the
      enum's. */
  lemma StatusCounts(requests: seq<RequestRow>)
    ensures CountWithStatus(requests, "Pending") + CountWithStatus(requests, "In Progress")
            + CountWithStatus(requests, "Resolved") <= |requests|
    ensures CountWithStatus(requests, "Pending") + CountWithStatus(requests, "In Progress")
            + CountWithStatus(requests, "Resolved") == |requests|
            <==> forall x :: x in requests ==> ParseMaintenanceStatus(x.status).Some?
  {
    PartitionCount(requests, RequestRowStatus, "Pending", "In Progress", "Resolved");
    forall x | x in requests
      ensures ParseMaintenanceStatus(x.status).Some?
              <==> x.status == "Pending" || x.status == "In Progress" || x.status == "Resolved"
    {
      assert Pending.Value() == "Pending" && InProgress.Value() == "In Progress" && Resolved.Value() == "Resolved";
    }
  }

  /** `status.toLowerCase().replace(' ', '-')`. */
  function BadgeClass(status: string): (c: string)
    ensures |c| == |status|
    ensures forall k :: 0 <= k < |status| ==>
      c[k] == (if status[k] == ' ' && ' ' !in status[..k] then '-' else LowerChar(status[k]))
  {
    DashedClass(status)
  }

  /** The class of each status the backend can send. */
  lemma BadgeClasses(st: MaintenanceStatus)
    ensures BadgeClass(st.Value()) == match st
      case Pending => "pending"
      case InProgress => "in-progress"
      case Resolved => "resolved"
  {
    match st
    case Pending =>
      LowerPending();
      DashedOneWord("Pending", "pending");
    case InProgress =>
      LowerInProgress();
      DashInProgress();
    case Resolved =>
      LowerResolved();
      DashedOneWord("Resolved", "resolved");
  }

  lemma LowerPending()
    ensures ToLower("Pending") == "pending"
  {
  }

  lemma LowerInProgress()
    ensures ToLower("In Progress") == "in progress"
  {
  }

  lemma LowerResolved()
    ensures ToLower("Resolved") == "resolved"
  {
  }

  /** Only the space after `in` becomes `-`. */
  lemma DashInProgress()
    ensures ReplaceFirstSpace("in progress") == "in-progress"
  {
    SpaceInProgress();
    DashAtSpace();
  }

  lemma SpaceInProgress()
    ensures IndexOf("in progress", ' ') == Some(2)
  {
  }

  lemma DashAtSpace()
    ensures "in progress"[2 := '-'] == "in-progress"
  {
  }

  /** `getRoomInfo`: the number and type of the first room with the id. */
  function RoomInfo(rooms: seq<RoomRow>, roomId: int): (s: string)
    ensures NoMatch(rooms, RoomRowId, roomId) ==> s == "Unknown"
    ensures forall i :: IsFirstMatch(rooms, RoomRowId, roomId, i) ==>
              s == rooms[i].roomNumber + " - " + rooms[i].roomType
  {
    match FindBy(rooms, RoomRowId, roomId)
    case Some(room) => room.roomNumber + " - " + room.roomType
    case None => "Unknown"
  }

  /** `getGuestName`: `-` for a falsy id (null, or 0), else the name of the
      first guest with the id. */
  function GuestName(guests: seq<GuestRow>, guestId: Option<int>): (s: string)
    ensures guestId.None? || guestId == Some(0) ==> s == "-"
    ensures guestId.Some? && guestId.value != 0 && NoMatch(guests, GuestRowId, guestId.value) ==> s == "Unknown"
    ensures forall i :: guestId.Some? && guestId.value != 0 && IsFirstMatch(guests, GuestRowId, guestId.value, i)
              ==> s == guests[i].fullName
  {
    if guestId.None? || guestId.value == 0 then "-"
    else match FindBy(guests, GuestRowId, guestId.value)
      case Some(g) => g.fullName
      case None => "Unknown"
  }

  /** A positive id that is stored shows the name of the guest stored with it. */
  lemma KnownGuestName(guests: seq<Guest>, g: int)
    requires g in Column(guests, Backend.GuestId) && g != 0
    ensures FindBy(guests, Backend.GuestId, g).Some?
    ensures GuestName(Column(guests, GuestRowOf), Some(g)) == FindBy(guests, Backend.GuestId, g).value.fullName
  {
    var ids := Column(guests, Backend.GuestId);
    var j :| 0 <= j < |ids| && ids[j] == g;
    assert !NoMatch(guests, Backend.GuestId, g);
    FindByColumn(guests, GuestRowOf, Backend.GuestId, GuestRowId, g);
  }

  /** The foreign keys of the stored tables mean that every request the
      backend lists shows the name of its guest, or `-` when it has none. */
  lemma StoredRequestGuest(t: Backend.Snapshot, n: Backend.AutoIncrement, m: MaintenanceRequest)
    requires Backend.TablesOk(t, n) && m in t.requests
    ensures m.guestId.None? ==> GuestName(Column(t.guests, GuestRowOf), m.guestId) == "-"
    ensures m.guestId.Some? ==>
      FindBy(t.guests, Backend.GuestId, m.guestId.value).Some?
      && GuestName(Column(t.guests, GuestRowOf), m.guestId)
         == FindBy(t.guests, Backend.GuestId, m.guestId.value).value.fullName
  {
    if m.guestId.Some? {
      var g := m.guestId.value;
      assert Backend.RequestRefsOk(t.requests, t.rooms, t.guests);
      assert g in Column(t.guests, Backend.GuestId);
      assert g != 0 by {
        assert Backend.IdsBelow(t.guests, Backend.GuestId, n.guest);
        var j :| 0 <= j < |t.guests| && t.guests[j].guestId == g;
        assert Backend.GuestId(t.guests[j]) >= 1;
      }
      KnownGuestName(t.guests, g);
    }
  }

  // ---------------------------------------------------------------------
  // Moving a request on

  /** The statuses the buttons of a request offer: none once it is Resolved;
      Start (to In Progress) only while it is Pending; Resolve otherwise. */
  function Actions(status: string): (targets: seq<string>)
    ensures status == "Resolved" <==> targets == []
    ensures status != "Resolved" ==> targets[|targets| - 1] == "Resolved"
    ensures "In Progress" in targets <==> status == "Pending"
  {
    if status == "Resolved" then []
    else if status == "Pending" then ["In Progress", "Resolved"]
    else ["Resolved"]
  }

  /** Between statuses of the enum the buttons offer exactly three moves. */
  lemma OfferedTransitions(from: MaintenanceStatus, to: MaintenanceStatus)
    ensures to.Value() in Actions(from.Value()) <==>
      (from == Pending && to == InProgress) || (from == Pending && to == Resolved)
      || (from == InProgress && to == Resolved)
  {
  }

  /** `resolvedDate`: today's date exactly when the new status is Resolved.
      `today` is the ISO text of the current date. */
  function ResolvedDateParam(newStatus: string, today: string): (d: Option<string>)
    ensures d.Some? <==> newStatus == "Resolved"
    ensures d.Some? ==> d.value == today
  {
    if newStatus == "Resolved" then Some(today) else None
  }

  /** The PATCH URL of `handleStatusUpdate`: the request id in the path, then
      `status` and, when there is one, `resolved_date` in the query. */
  datatype StatusUpdate = StatusUpdate(requestId: int, status: string, resolvedDate: Option<string>)

  function StatusUpdateFor(requestId: int, newStatus: string, today: string): StatusUpdate {
    StatusUpdate(requestId, newStatus, ResolvedDateParam(newStatus, today))
  }

  /** Every move the buttons offer is accepted by the endpoint, which then
      stores the new status and today as the resolved date exactly when the
      request is resolved, and no date otherwise. */
  lemma OfferedUpdateValidates(from: MaintenanceStatus, to: MaintenanceStatus, requestId: int, today: CalendarDate)
    requires to.Value() in Actions(from.Value())
    ensures var u := StatusUpdateFor(requestId, to.Value(), IsoDate(today));
      ValidateStatusQuery(Some(u.status), u.resolvedDate)
      == Ok((to, if to == Resolved then Some(today) else None))
  {
    if to == Resolved {
      IsoDateRoundTrip(today);
    }
  }

  // ---------------------------------------------------------------------
  // The form

  datatype RequestForm = RequestForm(
    roomId: string, guestId: string, issueDescription: string, reportedDate: string, status: string)

  /** The form as first shown and as reset after a successful submit. */
  function EmptyForm(today: string): RequestForm {
    RequestForm("", "", "", today, "Pending")
  }

  datatype Field = RoomField | GuestField | IssueField | ReportedDateField | StatusField

  /** `handleChange`: the named field takes the value; the others stay. */
  function WithField(f: RequestForm, field: Field, value: string): (g: RequestForm)
    ensures field == RoomField ==> g == f.(roomId := value)
    ensures field == GuestField ==> g == f.(guestId := value)
    ensures field == IssueField ==> g == f.(issueDescription := value)
    ensures field == ReportedDateField ==> g == f.(reportedDate := value)
    ensures field == StatusField ==> g == f.(status := value)
  {
    match field
    case RoomField => f.(roomId := value)
    case GuestField => f.(guestId := value)
    case IssueField => f.(issueDescription := value)
    case ReportedDateField => f.(reportedDate := value)
    case StatusField => f.(status := value)
  }

  /** The JSON body `handleSubmit` posts: `room_id` through `parseInt`,
      `guest_id` through `parseInt` or null when the selector is empty. */
  function Payload(f: RequestForm): (body: Body)
    ensures "room_id" in body && "guest_id" in body && "issue_description" in body
    ensures "reported_date" in body && "status" in body && "resolved_date" !in body
    ensures f.guestId == "" ==> body["guest_id"] == JNull
  {
    map["room_id" := ParseIntJson(f.roomId),
        "guest_id" := if f.guestId != "" then ParseIntJson(f.guestId) else JNull,
        "issue_description" := JStr(f.issueDescription),
        "reported_date" := JStr(f.reportedDate),
        "status" := JStr(f.status)]
  }

  /** A form filled from the selectors and the date input is accepted as the
      request that was chosen, with no resolved date. */
  lemma SelectedFormValidates(f: RequestForm, roomId: int, guestId: Option<int>, reported: CalendarDate,
                              status: MaintenanceStatus)
    requires ParseInt(f.roomId) == Some(roomId)
    requires guestId.None? ==> f.guestId == ""
    requires guestId.Some? ==> f.guestId != "" && ParseInt(f.guestId) == guestId
    requires ParseIsoDate(f.reportedDate) == Some(reported) && f.status == status.Value()
    ensures ValidateMaintenanceRequest(Payload(f))
      == Ok(MaintenanceRequestCreate(roomId, guestId, f.issueDescription, reported, status, None))
  {
    var b := Payload(f);
    assert ReadInt(Get(b, "room_id")) == Ok(roomId);
    assert ReadOptInt(Get(b, "guest_id")) == Ok(guestId);
    assert ReadStr(Get(b, "issue_description")) == Ok(f.issueDescription);
    assert ReadDate(Get(b, "reported_date")) == Ok(reported);
    assert ReadMaintenanceStatus(Get(b, "status"), Pending) == Ok(status);
    assert ReadOptDate(Get(b, "resolved_date")) == Ok(None);
  }

  const CreatedAlert := "Maintenance request created successfully!"
  const CreateFallback := "Failed to create maintenance request"
  const UpdatedAlert := "Maintenance request status updated!"
  const UpdateFallback := "Failed to update maintenance request"

  // ---------------------------------------------------------------------
  // The component's state

  datatype Data = Data(requests: seq<RequestRow>, rooms: seq<RoomRow>, guests: seq<GuestRow>)

  /** The data and error after `fetchData`: the three lists on success, the
      old lists and the message on failure. */
  function Reload(d: Data, l: Loaded<(seq<RequestRow>, seq<RoomRow>, seq<GuestRow>)>): (r: (Data, Option<string>))
    ensures l.Loaded? ==> r == (Data(l.data.0, l.data.1, l.data.2), None)
    ensures l.LoadFailed? ==> r == (d, Some(l.message))
  {
    match l
    case Loaded((a, b, c)) => (Data(a, b, c), None)
    case LoadFailed(m) => (d, Some(m))
  }

  class MaintenanceManagement {
    var requests: seq<RequestRow>
    var rooms: seq<RoomRow>
    var guests: seq<GuestRow>
    var loading: bool
    var error: Option<string>
    var showForm: bool
    var form: RequestForm

    function Lists(): Data
      reads this
    {
      Data(requests, rooms, guests)
    }

    /** The component's first render: no data, still loading. */
    constructor(today: string)
      ensures Lists() == Data([], [], []) && loading && error.None?
      ensures !showForm && form == EmptyForm(today)
    {
      requests, rooms, guests := [], [], [];
      loading, error, showForm := true, None, false;
      form := EmptyForm(today);
    }

    function Screen(): Screen
      reads this
    {
      ScreenOf(loading, error)
    }

    /** `fetchData`, once its fetches have settled. */
    method FetchData(requestsRes: Fetch<RequestRow>, roomsRes: Fetch<RoomRow>, guestsRes: Fetch<GuestRow>)
      modifies this
      ensures (Lists(), error) == Reload(old(Lists()), All3(requestsRes, roomsRes, guestsRes))
      ensures !loading && showForm == old(showForm) && form == old(form)
    {
      var l := All3(requestsRes, roomsRes, guestsRes);
      if l.Loaded? {
        requests, rooms, guests := l.data.0, l.data.1, l.data.2;
        error := None;
      } else {
        error := Some(l.message);
      }
      loading := false;
    }

    /** The header button. */
    method ToggleForm()
      modifies this
      ensures showForm == !old(showForm)
      ensures Lists() == old(Lists()) && loading == old(loading) && error == old(error) && form == old(form)
    {
      showForm := !showForm;
    }

    method HandleChange(field: Field, value: string)
      modifies this
      ensures form == WithField(old(form), field, value)
      ensures Lists() == old(Lists()) && loading == old(loading) && error == old(error) && showForm == old(showForm)
    {
      form := WithField(form, field, value);
    }

    /** `handleSubmit`: posts the form; when the backend creates the request
      the lists are fetched again and the form closes and resets, otherwise
      the alert names the error and nothing else changes. */
    method HandleSubmit(response: Posted, today: string,
                        requestsRes: Fetch<RequestRow>, roomsRes: Fetch<RoomRow>, guestsRes: Fetch<GuestRow>)
      returns (payload: Body, alert: string)
      modifies this
      ensures payload == Payload(old(form))
      ensures response.Created? ==>
        (Lists(), error) == Reload(old(Lists()), All3(requestsRes, roomsRes, guestsRes))
        && !loading && !showForm && form == EmptyForm(today) && alert == CreatedAlert
      ensures !response.Created? ==>
        unchanged(this) && alert == FailureAlert(response, CreateFallback)
    {
      payload := Payload(form);
      if response.Created? {
        FetchData(requestsRes, roomsRes, guestsRes);
        showForm := false;
        form := EmptyForm(today);
        alert := CreatedAlert;
      } else {
        alert := FailureAlert(response, CreateFallback);
      }
    }

    /** `handleStatusUpdate`: sends the new status (and today's date when it
      is Resolved); on success the lists are fetched again. */
    method HandleStatusUpdate(requestId: int, newStatus: string, today: string, response: Posted,
                              requestsRes: Fetch<RequestRow>, roomsRes: Fetch<RoomRow>, guestsRes: Fetch<GuestRow>)
      returns (update: StatusUpdate, alert: string)
      modifies this
      ensures update == StatusUpdateFor(requestId, newStatus, today)
      ensures response.Created? ==>
        (Lists(), error) == Reload(old(Lists()), All3(requestsRes, roomsRes, guestsRes))
        && !loading && showForm == old(showForm) && form == old(form) && alert == UpdatedAlert
      ensures !response.Created? ==>
        unchanged(this) && alert == FailureAlert(response, UpdateFallback)
    {
      update := StatusUpdateFor(requestId, newStatus, today);
      if response.Created? {
        FetchData(requestsRes, roomsRes, guestsRes);
        alert := UpdatedAlert;
      } else {
        alert := FailureAlert(response, UpdateFallback);
      }
    }
  }
}
