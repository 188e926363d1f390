/** The contended row: seat_inventory, and every write the services make to it.
  * A seat's id is its index in the table, so scanning upwards is ORDER BY id. */
module Inventory {
  import opened Domain

  /** A seat number such as 14C. */
  datatype Place = Place(row: nat, letter: char)

  datatype Seat = Seat(
    flight: nat,
    place: Place,
    price: int,  // in cents
    status: SeatStatus,
    holder: Option<nat>,
    holdId: Option<nat>,
    expires: Option<int>,
    booking: Option<nat>,
    version: nat)

  predicate Takeable(seat: Seat, now: int) {
    seat.status.Available? || (seat.status.Held? && seat.expires.Some? && seat.expires.value < now)
  }

  predicate HoldIsLive(seat: Seat, now: int) {
    seat.status.Held? && seat.expires.Some? && seat.expires.value > now
  }

  /** The saga's own test for a hold it may no longer use. */
  predicate Lapsed(seat: Seat, now: int) {
    seat.expires.None? || seat.expires.value <= now
  }

  // ----- what each statement writes to one row -----

  function Taken(seat: Seat, user: nat, hold: nat, expires: int): Seat {
    seat.(status := Held, holder := Some(user), holdId := Some(hold), expires := Some(expires),
          booking := None, version := seat.version + 1)
  }

  /** release_hold and the sweep: the hold goes, a booking_id stays where it is. */
  function LetGo(seat: Seat): Seat {
    seat.(status := Available, holder := None, holdId := None, expires := None, version := seat.version + 1)
  }

  function Returned(seat: Seat): Seat {
    LetGo(seat).(booking := None)
  }

  function Pinned(seat: Seat, booking: nat): Seat {
    seat.(booking := Some(booking), version := seat.version + 1)
  }

  function Unpinned(seat: Seat): Seat {
    seat.(booking := None, version := seat.version + 1)
  }

  function Sold(seat: Seat, booking: nat): Seat {
    seat.(status := Booked, holdId := None, expires := None, booking := Some(booking), version := seat.version + 1)
  }

  // ----- which rows each statement touches -----

  predicate At(seat: Seat, flight: nat, place: Place) {
    seat.flight == flight && seat.place == place
  }

  predicate HasHold(seat: Seat, hold: nat, user: Option<nat>) {
    seat.holdId == Some(hold) && seat.status.Held? && (user.Some? ==> seat.holder == user)
  }

  predicate Sweepable(seat: Seat, now: int) {
    seat.status.Held? && seat.expires.Some? && seat.expires.value < now && seat.booking.None?
  }

  // ----- the statements, over the whole table -----

  function TakeAt(seats: seq<Seat>, flight: nat, place: Place, user: nat, hold: nat, now: int, ttl: nat): seq<Seat> {
    seq(|seats|, i requires 0 <= i < |seats| =>
      if At(seats[i], flight, place) && Takeable(seats[i], now)
      then Taken(seats[i], user, hold, now + ttl) else seats[i])
  }

  function ReleaseHold(seats: seq<Seat>, hold: nat, user: Option<nat>): seq<Seat> {
    seq(|seats|, i requires 0 <= i < |seats| =>
      if HasHold(seats[i], hold, user) then LetGo(seats[i]) else seats[i])
  }

  function Sweep(seats: seq<Seat>, now: int): seq<Seat> {
    seq(|seats|, i requires 0 <= i < |seats| =>
      if Sweepable(seats[i], now) then LetGo(seats[i]) else seats[i])
  }

  function Pin(seats: seq<Seat>, ids: seq<nat>, booking: nat): seq<Seat> {
    seq(|seats|, i requires 0 <= i < |seats| =>
      if i in ids then Pinned(seats[i], booking) else seats[i])
  }

  function Unpin(seats: seq<Seat>, booking: nat): seq<Seat> {
    seq(|seats|, i requires 0 <= i < |seats| =>
      if seats[i].booking == Some(booking) then Unpinned(seats[i]) else seats[i])
  }

  function Return(seats: seq<Seat>, booking: nat): seq<Seat> {
    seq(|seats|, i requires 0 <= i < |seats| =>
      if seats[i].booking == Some(booking) then Returned(seats[i]) else seats[i])
  }

  function Sell(seats: seq<Seat>, ids: seq<nat>, booking: nat): seq<Seat> {
    seq(|seats|, i requires 0 <= i < |seats| =>
      if i in ids then Sold(seats[i], booking) else seats[i])
  }

  // ----- queries -----

  /** count_active_holds over the first n rows. */
  function LiveHolds(seats: seq<Seat>, n: nat, user: nat, now: int): (count: nat)
    requires n <= |seats|
  {
    if n == 0 then 0
    else LiveHolds(seats, n - 1, user, now)
         + if seats[n - 1].holder == Some(user) && HoldIsLive(seats[n - 1], now) then 1 else 0
  }

  predicate Mine(seat: Seat, holds: seq<nat>, user: nat) {
    seat.holdId.Some? && seat.holdId.value in holds && seat.holder == Some(user)
  }

  /** _lock_seats_for_holds over the first n rows: ids in ascending order. */
  function Matched(seats: seq<Seat>, n: nat, holds: seq<nat>, user: nat): (ids: seq<nat>)
    requires n <= |seats|
    ensures InTable(seats, ids)
  {
    if n == 0 then []
    else Matched(seats, n - 1, holds, user) + if Mine(seats[n - 1], holds, user) then [n - 1] else []
  }

  predicate InTable(seats: seq<Seat>, ids: seq<nat>) {
    forall k :: 0 <= k < |ids| ==> ids[k] < |seats|
  }

  predicate PlaceLess(a: Place, b: Place) {
    a.row < b.row || (a.row == b.row && a.letter < b.letter)
  }

  /** One step of sorted(seats, key=(row_no, seat_letter)): stable insertion. */
  function InsertByPlace(seats: seq<Seat>, sorted: seq<nat>, id: nat): (r: seq<nat>)
    requires id < |seats| && InTable(seats, sorted)
    ensures InTable(seats, r)
  {
    if sorted == [] then [id]
    else
      var last := sorted[|sorted| - 1];
      if PlaceLess(seats[id].place, seats[last].place)
      then InsertByPlace(seats, sorted[..|sorted| - 1], id) + [last]
      else sorted + [id]
  }

  function SortByPlace(seats: seq<Seat>, ids: seq<nat>): (sorted: seq<nat>)
    requires InTable(seats, ids)
    ensures InTable(seats, sorted)
  {
    if ids == [] then []
    else InsertByPlace(seats, SortByPlace(seats, ids[..|ids| - 1]), ids[|ids| - 1])
  }

  lemma {:induction false} InsertByPlaceKeeps(seats: seq<Seat>, sorted: seq<nat>, id: nat)
    requires id < |seats| && InTable(seats, sorted)
    ensures multiset(InsertByPlace(seats, sorted, id)) == multiset(sorted) + multiset{id}
  {
    if sorted != [] {
      var front := sorted[..|sorted| - 1];
      assert sorted == front + [sorted[|sorted| - 1]];
      InsertByPlaceKeeps(seats, front, id);
    }
  }

  lemma {:induction false} SortByPlaceKeeps(seats: seq<Seat>, ids: seq<nat>)
    requires InTable(seats, ids)
    ensures multiset(SortByPlace(seats, ids)) == multiset(ids)
  {
    if ids != [] {
      var front := ids[..|ids| - 1];
      assert ids == front + [ids[|ids| - 1]];
      SortByPlaceKeeps(seats, front);
      InsertByPlaceKeeps(seats, SortByPlace(seats, front), ids[|ids| - 1]);
    }
  }

  predicate SortedByPlace(seats: seq<Seat>, ids: seq<nat>)
    requires InTable(seats, ids)
  {
    forall i, j :: 0 <= i < j < |ids| ==> !PlaceLess(seats[ids[j]].place, seats[ids[i]].place)
  }

  lemma {:induction false} InsertByPlaceSorts(seats: seq<Seat>, sorted: seq<nat>, id: nat)
    requires id < |seats| && InTable(seats, sorted) && SortedByPlace(seats, sorted)
    ensures SortedByPlace(seats, InsertByPlace(seats, sorted, id))
  {
    if sorted != [] && PlaceLess(seats[id].place, seats[sorted[|sorted| - 1]].place) {
      var front := sorted[..|sorted| - 1];
      InsertByPlaceSorts(seats, front, id);
      InsertByPlaceKeeps(seats, front, id);
      var r := InsertByPlace(seats, front, id);
      forall i | 0 <= i < |r|
        ensures !PlaceLess(seats[sorted[|sorted| - 1]].place, seats[r[i]].place)
      {
        assert r[i] in multiset(r);
        assert r[i] == id || r[i] in front;
      }
    }
  }

  lemma {:induction false} SortByPlaceSorts(seats: seq<Seat>, ids: seq<nat>)
    requires InTable(seats, ids)
    ensures SortedByPlace(seats, SortByPlace(seats, ids))
  {
    if ids != [] {
      SortByPlaceSorts(seats, ids[..|ids| - 1]);
      InsertByPlaceSorts(seats, SortByPlace(seats, ids[..|ids| - 1]), ids[|ids| - 1]);
    }
  }

  function SumPrices(seats: seq<Seat>, ids: seq<nat>): int
    requires InTable(seats, ids)
  {
    if ids == [] then 0 else SumPrices(seats, ids[..|ids| - 1]) + seats[ids[|ids| - 1]].price
  }

  /** No statement touches a seat's flight, place or price. */
  ghost predicate SameSeats(before: seq<Seat>, after: seq<Seat>) {
    && |before| == |after|
    && forall i :: 0 <= i < |before| ==>
         before[i].flight == after[i].flight && before[i].place == after[i].place && before[i].price == after[i].price
  }

  lemma {:induction false} SumPricesFixed(before: seq<Seat>, after: seq<Seat>, ids: seq<nat>)
    requires SameSeats(before, after) && InTable(before, ids)
    ensures SumPrices(before, ids) == SumPrices(after, ids)
  {
    if ids != [] {
      SumPricesFixed(before, after, ids[..|ids| - 1]);
    }
  }

  // ----- what the query returns -----

  /** The locked rows are exactly the rows that are mine, each once, in ascending id. */
  lemma {:induction false} MatchedIsExact(seats: seq<Seat>, n: nat, holds: seq<nat>, user: nat)
    requires n <= |seats|
    ensures forall i: nat :: i in Matched(seats, n, holds, user) <==> i < n && Mine(seats[i], holds, user)
    ensures forall i, j :: 0 <= i < j < |Matched(seats, n, holds, user)| ==>
      Matched(seats, n, holds, user)[i] < Matched(seats, n, holds, user)[j]
  {
    if n > 0 {
      MatchedIsExact(seats, n - 1, holds, user);
      var front := Matched(seats, n - 1, holds, user);
      assert forall k :: 0 <= k < |front| ==> front[k] in front;
    }
  }

  lemma {:induction false} SameRowsFound(s: seq<Seat>, t: seq<Seat>, n: nat, holds: seq<nat>, user: nat)
    requires n <= |s| == |t|
    requires forall i: nat :: i < n ==> (Mine(s[i], holds, user) <==> Mine(t[i], holds, user))
    ensures Matched(s, n, holds, user) == Matched(t, n, holds, user)
  {
    if n > 0 {
      SameRowsFound(s, t, n - 1, holds, user);
    }
  }

  lemma SameMultiset(a: seq<nat>, b: seq<nat>)
    requires multiset(a) == multiset(b) && forall i, j :: 0 <= i < j < |a| ==> a[i] < a[j]
    ensures |a| == |b| && NoDuplicates(b) && forall x: nat :: x in a <==> x in b
  {
    assert |multiset(a)| == |a| && |multiset(b)| == |b|;
    forall x: nat ensures x in a <==> x in b {
      assert x in a <==> x in multiset(a);
      assert x in b <==> x in multiset(b);
    }
    forall i, j | 0 <= i < j < |b| ensures b[i] != b[j] {
      if b[i] == b[j] {
        assert b == b[..j] + [b[j]] + b[j + 1..];
        assert b[i] in b[..j];
        assert multiset(b)[b[i]] >= 2;
        Once(a, b[i]);
      }
    }
  }

  lemma {:induction false} Once(a: seq<nat>, x: nat)
    requires forall i, j :: 0 <= i < j < |a| ==> a[i] < a[j]
    ensures multiset(a)[x] <= 1
  {
    if a != [] {
      var front := a[..|a| - 1];
      assert a == front + [a[|a| - 1]];
      Once(front, x);
      assert forall i :: 0 <= i < |front| ==> front[i] < a[|a| - 1];
    }
  }

  lemma WithoutOne(s: seq<nat>, j: nat)
    requires j < |s|
    ensures multiset(s[..j] + s[j + 1..]) == multiset(s) - multiset{s[j]}
  {
    assert s == s[..j] + [s[j]] + s[j + 1..];
  }

  lemma {:induction false} SumPricesPermuted(seats: seq<Seat>, a: seq<nat>, b: seq<nat>)
    requires InTable(seats, a) && InTable(seats, b) && multiset(a) == multiset(b)
    ensures SumPrices(seats, a) == SumPrices(seats, b)
  {
    if a == [] {
      assert |multiset(b)| == 0;
    } else {
      var n := |a| - 1;
      assert a[n] in multiset(b);
      var j :| 0 <= j < |b| && b[j] == a[n];
      WithoutOne(a, n);
      WithoutOne(b, j);
      assert a[..n] + a[n + 1..] == a[..n];
      SumPricesPermuted(seats, a[..n], b[..j] + b[j + 1..]);
      SumPricesSplit(seats, b, j);
    }
  }

  lemma {:induction false} SumPricesSplit(seats: seq<Seat>, b: seq<nat>, j: nat)
    requires InTable(seats, b) && j < |b|
    ensures SumPrices(seats, b) == SumPrices(seats, b[..j] + b[j + 1..]) + seats[b[j]].price
  {
    var rest := b[..j] + b[j + 1..];
    if j == |b| - 1 {
      assert rest == b[..|b| - 1];
    } else {
      var front := b[..|b| - 1];
      SumPricesSplit(seats, front, j);
      assert rest[..|rest| - 1] == front[..j] + front[j + 1..];
    }
  }
}
