/** What the React views see of the backend: the JSON rows they keep in
    state, the outcomes of their `fetch` calls, and the messages they derive
    from those outcomes. */
module Client {
  import opened Common
  import opened Seqs
  import opened Text
  import opened Schema

  // ---------------------------------------------------------------------
  // Rows as the views keep them: JSON objects with the fields they read

  datatype GuestRow = GuestRow(guestId: int, fullName: string, phoneNumber: string)

  datatype RoomRow = RoomRow(roomId: int, roomNumber: string, roomType: string, occupancyStatus: string)

  datatype BookingRow = BookingRow(
    bookingId: int, guestId: int, roomId: int, checkInDate: string,
    checkOutDate: Option<string>, bookingStatus: string)

  /** `amountPaid` is `None` when the field is missing from the object. */
  datatype PaymentRow = PaymentRow(
    paymentId: int, bookingId: int, amountPaid: Option<string>, paymentDate: string,
    paymentMethod: string, remarks: Option<string>)

  datatype RequestRow = RequestRow(
    requestId: int, roomId: int, guestId: Option<int>, issueDescription: string,
    reportedDate: string, status: string, resolvedDate: Option<string>)

  function GuestRowId(g: GuestRow): int { g.guestId }
  function RoomRowId(r: RoomRow): int { r.roomId }
  function RoomRowStatus(r: RoomRow): string { r.occupancyStatus }
  function BookingRowId(b: BookingRow): int { b.bookingId }
  function BookingRowStatus(b: BookingRow): string { b.bookingStatus }
  function RequestRowStatus(m: RequestRow): string { m.status }

  // ---------------------------------------------------------------------
  // The JSON the backend writes for a stored row: enums as their values

  function GuestRowOf(g: Guest): GuestRow {
    GuestRow(g.guestId, g.fullName, g.phoneNumber)
  }

  function RoomRowOf(r: Room): RoomRow {
    RoomRow(r.roomId, r.roomNumber, r.roomType, r.occupancyStatus.Value())
  }

  /** The lookup of an id among serialized rows finds the serialization of
      the row the lookup among stored rows finds. */
  lemma FindByColumn<T, U>(s: seq<T>, f: T -> U, keyT: T -> int, keyU: U -> int, id: int)
    requires forall x :: keyU(f(x)) == keyT(x)
    ensures FindBy(Column(s, f), keyU, id).None? <==> FindBy(s, keyT, id).None?
    ensures FindBy(s, keyT, id).Some? ==> FindBy(Column(s, f), keyU, id) == Some(f(FindBy(s, keyT, id).value))
  {
    var c := Column(s, f);
    assert NoMatch(c, keyU, id) <==> NoMatch(s, keyT, id);
    var i := IndexBy(s, keyT, id);
    if i.Some? {
      assert IsFirstMatch(c, keyU, id, i.value);
    }
  }

  /** An id stored in the key column is found by the lookup. */
  lemma FoundInColumn<T>(s: seq<T>, key: T -> int, id: int)
    requires id in Column(s, key)
    ensures FindBy(s, key, id).Some?
  {
    var c := Column(s, key);
    var j :| 0 <= j < |c| && c[j] == id;
    assert key(s[j]) == id;
  }

  /** Every stored row has a status of the enum, so the three per-status
      counts of the serialized rooms add up to all of them. */
  lemma ServedRoomCounts(rs: seq<Room>)
    ensures var c := Column(rs, RoomRowOf);
      |FilterBy(c, RoomRowStatus, "Available")| + |FilterBy(c, RoomRowStatus, "Occupied")|
      + |FilterBy(c, RoomRowStatus, "Maintenance")| == |rs|
  {
    var c := Column(rs, RoomRowOf);
    forall x | x in c
      ensures RoomRowStatus(x) == "Available" || RoomRowStatus(x) == "Occupied" || RoomRowStatus(x) == "Maintenance"
    {
      var i :| 0 <= i < |c| && c[i] == x;
      assert x == RoomRowOf(rs[i]);
    }
    PartitionCount(c, RoomRowStatus, "Available", "Occupied", "Maintenance");
  }

  // ---------------------------------------------------------------------
  // Loading data

  /** One `fetch` of a list, then `res.json()`. */
  datatype Fetch<T> =
    | Fetched(rows: seq<T>)            // a 2xx answer whose body is the list
    | NotOk(status: int)               // an answer outside 2xx
    | Unparsable(message: string)      // a 2xx answer whose body is no JSON: the SyntaxError
    | Rejected(message: string)        // no answer at all: the TypeError of `fetch`

  /** What a view ends up with after loading. */
  datatype Loaded<D> = Loaded(data: D) | LoadFailed(message: string)

  /** The message of the error a view with several fetches throws. */
  const FetchFailed := "Failed to fetch data"

  /** How one fetch went, with its rows forgotten. */
  datatype Outcome = Good | Rejection(message: string) | BadStatus | BadBody(message: string)

  function OutcomeOf<T>(f: Fetch<T>): Outcome {
    match f
    case Fetched(_) => Good
    case NotOk(_) => BadStatus
    case Unparsable(m) => BadBody(m)
    case Rejected(m) => Rejection(m)
  }

  /** The first outcome of `os` that `p` picks, and its message. */
  function FirstMessage(os: seq<Outcome>, p: Outcome -> bool): (m: Option<string>)
    requires forall o :: p(o) ==> o.Rejection? || o.BadBody?
    ensures m.None? <==> forall i :: 0 <= i < |os| ==> !p(os[i])
    ensures m.Some? ==> exists i :: 0 <= i < |os| && p(os[i]) && os[i].message == m.value
  {
    if os == [] then None
    else if p(os[0]) then Some(os[0].message)
    else
      var m := FirstMessage(os[1..], p);
      assert forall i :: 1 <= i < |os| ==> os[i] == os[1..][i - 1];
      m
  }

  /** `Promise.all` of the fetches, the check of every `res.ok`, then
      `Promise.all` of the `res.json()` calls: a rejected fetch wins, then a
      status outside 2xx, then an unreadable body. */
  function FailureOf(os: seq<Outcome>): (m: Option<string>)
    ensures m.None? <==> forall i :: 0 <= i < |os| ==> os[i].Good?
    ensures ((forall i :: 0 <= i < |os| ==> !os[i].Rejection?)
             && (exists i :: 0 <= i < |os| && os[i].BadStatus?)) ==> m == Some(FetchFailed)
    ensures (exists i :: 0 <= i < |os| && os[i].Rejection?) ==>
              exists i :: 0 <= i < |os| && os[i] == Rejection(m.value)
  {
    var rejection := FirstMessage(os, (o: Outcome) => o.Rejection?);
    if rejection.Some? then rejection
    else if exists i :: 0 <= i < |os| && os[i].BadStatus? then Some(FetchFailed)
    else
      var body := FirstMessage(os, (o: Outcome) => o.BadBody?);
      assert body.None? ==> forall i :: 0 <= i < |os| ==> os[i].Good?;
      body
  }

  /** The three lists of a view that fetches three, or why it has none. */
  function All3<A, B, C>(a: Fetch<A>, b: Fetch<B>, c: Fetch<C>): (r: Loaded<(seq<A>, seq<B>, seq<C>)>)
    ensures r.Loaded? <==> a.Fetched? && b.Fetched? && c.Fetched?
    ensures r.Loaded? ==> r.data == (a.rows, b.rows, c.rows)
    ensures (!a.Rejected? && !b.Rejected? && !c.Rejected? && (a.NotOk? || b.NotOk? || c.NotOk?))
            ==> r == LoadFailed(FetchFailed)
  {
    var os := [OutcomeOf(a), OutcomeOf(b), OutcomeOf(c)];
    match FailureOf(os)
    case Some(m) =>
      assert (a.NotOk? ==> os[0].BadStatus?) && (b.NotOk? ==> os[1].BadStatus?) && (c.NotOk? ==> os[2].BadStatus?);
      LoadFailed(m)
    case None =>
      assert os[0].Good? && os[1].Good? && os[2].Good?;
      Loaded((a.rows, b.rows, c.rows))
  }

  function All4<A, B, C, D>(a: Fetch<A>, b: Fetch<B>, c: Fetch<C>, d: Fetch<D>): (r: Loaded<(seq<A>, seq<B>, seq<C>, seq<D>)>)
    ensures r.Loaded? <==> a.Fetched? && b.Fetched? && c.Fetched? && d.Fetched?
    ensures r.Loaded? ==> r.data == (a.rows, b.rows, c.rows, d.rows)
    ensures (!a.Rejected? && !b.Rejected? && !c.Rejected? && !d.Rejected?
             && (a.NotOk? || b.NotOk? || c.NotOk? || d.NotOk?)) ==> r == LoadFailed(FetchFailed)
  {
    var os := [OutcomeOf(a), OutcomeOf(b), OutcomeOf(c), OutcomeOf(d)];
    match FailureOf(os)
    case Some(m) =>
      assert (a.NotOk? ==> os[0].BadStatus?) && (b.NotOk? ==> os[1].BadStatus?)
        && (c.NotOk? ==> os[2].BadStatus?) && (d.NotOk? ==> os[3].BadStatus?);
      LoadFailed(m)
    case None =>
      assert os[0].Good? && os[1].Good? && os[2].Good? && os[3].Good?;
      Loaded((a.rows, b.rows, c.rows, d.rows))
  }

  /** A rejected fetch is reported with its own message, whatever the other
      fetches did, as long as no earlier one was rejected. */
  lemma All3Rejected<A, B, C>(a: Fetch<A>, b: Fetch<B>, c: Fetch<C>)
    requires a.Rejected?
    ensures All3(a, b, c) == LoadFailed(a.message)
  {
    assert FirstMessage([OutcomeOf(a), OutcomeOf(b), OutcomeOf(c)], (o: Outcome) => o.Rejection?) == Some(a.message);
  }

  // ---------------------------------------------------------------------
  // What the screen shows

  datatype Screen = LoadingScreen | ErrorScreen(message: string) | ReadyScreen

  /** `if (loading) ...; if (error) ...;`: an empty message is falsy. */
  function ScreenOf(loading: bool, error: Option<string>): (s: Screen)
    ensures s == LoadingScreen <==> loading
    ensures s.ErrorScreen? <==> !loading && error.Some? && error.value != ""
    ensures s.ErrorScreen? ==> Some(s.message) == error
  {
    if loading then LoadingScreen
    else if error.Some? && error.value != "" then ErrorScreen(error.value)
    else ReadyScreen
  }

  // ---------------------------------------------------------------------
  // Posting a form

  /** The body of an answer outside 2xx, as `response.json()` reads it. */
  datatype ErrorBody =
    | Detail(text: string)             // `{"detail": "..."}` of an HTTPException
    | DetailList(count: nat)           // `{"detail": [...]}` of a validation error
    | NoDetail                         // a JSON body without `detail`
    | NotJson(message: string)         // a body `response.json()` cannot parse: the SyntaxError

  datatype Posted = Created | Refused(status: int, body: ErrorBody) | PostRejected(message: string)

  /** `String(o)` of a plain object. */
  const ObjectText := "[object Object]"

  /** `parts.join(sep)`. */
  function Join(parts: seq<string>, sep: string): string {
    if parts == [] then "" else if |parts| == 1 then parts[0] else parts[0] + sep + Join(parts[1..], sep)
  }

  /** `String(list)` of a list of `n` objects. */
  function ObjectList(n: nat): (s: string)
    ensures |s| == if n == 0 then 0 else 16 * n - 1
    ensures n > 0 ==> s[..15] == ObjectText
    ensures n > 1 ==> s[15] == ','
  {
    if n == 0 then "" else if n == 1 then ObjectText else ObjectText + "," + ObjectList(n - 1)
  }

  /** `String(list)` is `list.join(',')`, each object written as `[object Object]`. */
  lemma {:induction false} ObjectListJoin(n: nat)
    ensures ObjectList(n) == Join(seq(n, _ => ObjectText), ",")
  {
    if n > 1 {
      var parts := seq(n, _ => ObjectText);
      assert parts[1..] == seq(n - 1, _ => ObjectText);
      ObjectListJoin(n - 1);
    }
  }

  /** `new Error(errorData.detail || fallback).message`: an empty detail string
      is falsy and any list, even an empty one, is truthy; a body that is not
      JSON rejects with the parser's own message. */
  function ErrorMessage(body: ErrorBody, fallback: string): (m: string)
    ensures body.Detail? && body.text != "" ==> m == body.text
    ensures body == Detail("") || body == NoDetail ==> m == fallback
    ensures body.DetailList? ==> |m| == if body.count == 0 then 0 else 16 * body.count - 1
    ensures body.DetailList? && body.count > 0 ==> m[..15] == ObjectText
    ensures body.NotJson? ==> m == body.message
  {
    match body
    case Detail(t) => if t != "" then t else fallback
    case DetailList(n) => ObjectList(n)
    case NoDetail => fallback
    case NotJson(m) => m
  }

  /** The alert a failed post shows. */
  function FailureAlert(response: Posted, fallback: string): (a: string)
    requires !response.Created?
    ensures |a| >= 7 && a[..7] == "Error: "
  {
    "Error: " + match response
      case Refused(_, body) => ErrorMessage(body, fallback)
      case PostRejected(m) => m
  }

  /** `JSON.stringify` of `parseInt(s)`: NaN becomes null. */
  function ParseIntJson(s: string): (j: Json)
    ensures ParseInt(s).None? <==> j == JNull
    ensures ParseInt(s).Some? ==> j == JNum(ParseInt(s).value as real)
  {
    if ParseInt(s).Some? then JNum(ParseInt(s).value as real) else JNull
  }

  /** The text of an id taken from a selector posts that id as a number. */
  lemma IntJsonOfText(i: int)
    ensures ParseIntJson(IntToString(i)) == JNum(i as real)
  {
    ParseIntRoundTrip(i);
  }

  /** `JSON.stringify` of `parseFloat(s)`. */
  function ParseFloatJson(s: string): (j: Json)
    ensures ParseFloat(s).None? <==> j == JNull
    ensures ParseFloat(s).Some? ==> j == JNum(ParseFloat(s).value)
  {
    if ParseFloat(s).Some? then JNum(ParseFloat(s).value) else JNull
  }
}
