/** `Dashboard.js`: the six counts of the dashboard cards and the occupancy
    rate, computed once from the guests, rooms and bookings. */
module DashboardView {
  import opened Common
  import opened Seqs
  import opened Schema
  import opened Client
  import Backend

  /** The dashboard's `stats`. `totalGuests` is `None` when it is JavaScript's
      `undefined`: the `length` of a guests reply that is an object. */
  datatype Stats = Stats(
    totalGuests: Option<nat>, totalRooms: nat, availableRooms: nat, occupiedRooms: nat,
    activeBookings: nat, totalBookings: nat)

  /** The first value of `stats`, kept when loading fails. */
  const InitialStats := Stats(Some(0), 0, 0, 0, 0, 0)

  /** One `fetch`, then `res.json()`. The status is not checked: an answer
      outside 2xx with a JSON body is read like any other. */
  datatype Reply<T> =
    | ListBody(rows: seq<T>)   // a JSON array
    | ObjectBody               // a JSON object, such as `{"detail": ...}`
    | NotJson                  // a body `res.json()` cannot parse
    | NoAnswer                 // `fetch` rejected

  /** The value `setStats` receives, or `None` when the `try` block throws:
      a rejected fetch, an unparsable body, or `filter` called on an object.
      The guests reply is only asked its `length`, so an object there gives
      an undefined count instead of an error. */
  function StatsOf(guests: Reply<GuestRow>, rooms: Reply<RoomRow>, bookings: Reply<BookingRow>): (s: Option<Stats>)
    ensures s.Some? <==> (guests.ListBody? || guests.ObjectBody?) && rooms.ListBody? && bookings.ListBody?
    ensures s.Some? ==> s.value == Stats(
      if guests.ListBody? then Some(|guests.rows|) else None,
      |rooms.rows|,
      |FilterBy(rooms.rows, RoomRowStatus, "Available")|,
      |FilterBy(rooms.rows, RoomRowStatus, "Occupied")|,
      |FilterBy(bookings.rows, BookingRowStatus, "Active")|,
      |bookings.rows|)
  {
    if guests.NoAnswer? || rooms.NoAnswer? || bookings.NoAnswer? then None
    else if guests.NotJson? || rooms.NotJson? || bookings.NotJson? then None
    else if !rooms.ListBody? || !bookings.ListBody? then None
    else
      Some(ComputeStats(if guests.ListBody? then Some(|guests.rows|) else None, rooms.rows, bookings.rows))
  }

  /** The stats of the fetched lists. */
  function ComputeStats(totalGuests: Option<nat>, rooms: seq<RoomRow>, bookings: seq<BookingRow>): (s: Stats)
    ensures s.totalGuests == totalGuests && s.totalRooms == |rooms| && s.totalBookings == |bookings|
    ensures forall r :: r in rooms && r.occupancyStatus == "Available" ==> s.availableRooms > 0
    ensures s.availableRooms + s.occupiedRooms <= s.totalRooms
    ensures s.activeBookings <= s.totalBookings
  {
    PartitionCount(rooms, RoomRowStatus, "Available", "Occupied", "Maintenance");
    var available := FilterBy(rooms, RoomRowStatus, "Available");
    assert forall r :: r in rooms && r.occupancyStatus == "Available" ==> r in available;
    Stats(totalGuests, |rooms|, |available|,
          |FilterBy(rooms, RoomRowStatus, "Occupied")|,
          |FilterBy(bookings, BookingRowStatus, "Active")|, |bookings|)
  }

  /** The counts that can be shown are consistent: the available and
      occupied rooms are among the rooms, the active bookings among the
      bookings. */
  predicate Consistent(s: Stats) {
    s.availableRooms + s.occupiedRooms <= s.totalRooms && s.activeBookings <= s.totalBookings
  }

  lemma StatsConsistent(guests: Reply<GuestRow>, rooms: Reply<RoomRow>, bookings: Reply<BookingRow>)
    requires StatsOf(guests, rooms, bookings).Some?
    ensures Consistent(StatsOf(guests, rooms, bookings).value)
  {
    var s := ComputeStats(if guests.ListBody? then Some(|guests.rows|) else None, rooms.rows, bookings.rows);
    assert StatsOf(guests, rooms, bookings) == Some(s);
  }

  /** `occupancyRate` before `toFixed(1)`: 0 without rooms, otherwise the
      occupied share of the rooms as a percentage. */
  function OccupancyRate(s: Stats): (rate: real)
    ensures s.totalRooms == 0 ==> rate == 0.0
    ensures s.totalRooms > 0 ==> rate * (s.totalRooms as real) == (s.occupiedRooms as real) * 100.0
    ensures s.occupiedRooms <= s.totalRooms ==> 0.0 <= rate <= 100.0
  {
    if s.totalRooms > 0 then (s.occupiedRooms as real / s.totalRooms as real) * 100.0 else 0.0
  }

  /** Every rate the dashboard shows is a percentage. */
  lemma RateIsPercentage(s: Stats)
    requires Consistent(s)
    ensures 0.0 <= OccupancyRate(s) <= 100.0
  {
  }

  /** A booking created by the backend turns one Available room Occupied:
      reloaded, the dashboard shows one room fewer available, one more
      occupied, and the same total. */
  lemma BookedRoomCounted(rs: seq<Room>, i: int)
    requires 0 <= i < |rs| && rs[i].occupancyStatus == Available
    ensures var before := Column(rs, RoomRowOf);
      var after := Column(rs[i := Backend.SetOccupied(rs[i])], RoomRowOf);
      |after| == |before|
      && |FilterBy(after, RoomRowStatus, "Available")| + 1 == |FilterBy(before, RoomRowStatus, "Available")|
      && |FilterBy(after, RoomRowStatus, "Occupied")| == |FilterBy(before, RoomRowStatus, "Occupied")| + 1
  {
    var before := Column(rs, RoomRowOf);
    var booked := RoomRowOf(Backend.SetOccupied(rs[i]));
    assert Column(rs[i := Backend.SetOccupied(rs[i])], RoomRowOf) == before[i := booked];
    assert before[i].occupancyStatus == "Available" && booked.occupancyStatus == "Occupied";
    FilterByUpdate(before, RoomRowStatus, "Available", i, booked);
    FilterByUpdate(before, RoomRowStatus, "Occupied", i, booked);
  }

  class Dashboard {
    var stats: Stats
    var loading: bool

    /** The first render: all counts zero, still loading. */
    constructor()
      ensures stats == InitialStats && loading
    {
      stats := InitialStats;
      loading := true;
    }

    /** The occupancy card. */
    function Rate(): (rate: real)
      reads this
      ensures Consistent(stats) ==> 0.0 <= rate <= 100.0
    {
      OccupancyRate(stats)
    }

    /** `fetchDashboardData`: the stats of the replies when they can be
      read, the old stats otherwise; loading ends either way. */
    method FetchDashboardData(guests: Reply<GuestRow>, rooms: Reply<RoomRow>, bookings: Reply<BookingRow>)
      modifies this
      ensures StatsOf(guests, rooms, bookings).Some? ==> stats == StatsOf(guests, rooms, bookings).value
      ensures StatsOf(guests, rooms, bookings).None? ==> stats == old(stats)
      ensures !loading
    {
      var s := StatsOf(guests, rooms, bookings);
      if s.Some? {
        stats := s.value;
      }
      loading := false;
    }
  }

  /** The dashboard loads once, on mount: when that fails every count stays
      zero and the rate is 0. */
  method MountDashboard(guests: Reply<GuestRow>, rooms: Reply<RoomRow>, bookings: Reply<BookingRow>)
    returns (shown: Stats, rate: real)
    ensures StatsOf(guests, rooms, bookings).None? ==> shown == InitialStats && rate == 0.0
    ensures StatsOf(guests, rooms, bookings).Some? ==> shown == StatsOf(guests, rooms, bookings).value
    ensures 0.0 <= rate <= 100.0
  {
    var d := new Dashboard();
    d.FetchDashboardData(guests, rooms, bookings);
    if StatsOf(guests, rooms, bookings).Some? {
      StatsConsistent(guests, rooms, bookings);
    }
    shown, rate := d.stats, d.Rate();
  }
}
