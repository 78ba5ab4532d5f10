/** The room-allocation engine shared by both RoomAllocation components:
    one {adult, child} record per room, the unallocated-guest count, the
    per-category upper bound (calculateMaxValue) and the single-field edit
    (handleAllocationChange). */
module Engine {

  /** CAPACITY_PRE_ROOM: the most occupants a room holds. */
  const RoomCapacity: int := 4

  /** The two guest categories a room's selectors edit ('adult' and 'child'). */
  datatype Category = Adult | Child

  /** One room's occupancy. */
  datatype Allocation = Allocation(adult: int, child: int)

  /** The default occupancy of a freshly created room. */
  const DefaultRoom: Allocation := Allocation(1, 0)

  /** The count of category `c` in room `a`. */
  function Get(a: Allocation, c: Category): int {
    match c
    case Adult => a.adult
    case Child => a.child
  }

  /** The count of the category that is not `c` in room `a`. */
  function Other(a: Allocation, c: Category): int {
    match c
    case Adult => a.child
    case Child => a.adult
  }

  /** `{ ...a, [type]: n }`: room `a` with category `c` overwritten by `n`. */
  function With(a: Allocation, c: Category, n: int): (r: Allocation)
    ensures Get(r, c) == n && Other(r, c) == Other(a, c)
  {
    match c
    case Adult => a.(adult := n)
    case Child => a.(child := n)
  }

  /** The smallest value a category's selector accepts: 1 adult, 0 children,
      the least count of that category a valid room can hold. */
  function MinValue(c: Category): (r: int)
    ensures forall a {:trigger ValidRoom(a), Get(a, c)} :: ValidRoom(a) ==> r <= Get(a, c)
    ensures ValidRoom(With(DefaultRoom, c, r))
  {
    match c
    case Adult => 1
    case Child => 0
  }

  /** The reduce `acc + cur.adult + cur.child` from 0, left to right. With
      no negative count in any room it is never negative. */
  function Total(rooms: seq<Allocation>): (r: int)
    ensures (forall j :: 0 <= j < |rooms| ==> rooms[j].adult >= 0 && rooms[j].child >= 0) ==> r >= 0
    decreases |rooms|
  {
    if rooms == [] then 0
    else
      var last := rooms[|rooms| - 1];
      Total(rooms[..|rooms| - 1]) + last.adult + last.child
  }

  /** unAllocatedGuests: guests not yet placed in any room. In a valid state
      it is never negative, and every room keeps at least one guest out of
      it. */
  function Unallocated(guest: int, rooms: seq<Allocation>): (r: int)
    ensures ValidState(guest, rooms) ==> 0 <= r <= guest - |rooms|
  {
    ValidTotalBounds(guest, rooms);
    guest - Total(rooms)
  }

  /** The two ceilings a category's count must stay under: the room's
      capacity left by the other category, and every unallocated guest added
      to this category's own current count. */
  predicate UnderCeilings(remaining: int, a: Allocation, c: Category, v: int) {
    v <= RoomCapacity - Other(a, c) && v <= remaining + Get(a, c)
  }

  /** calculateMaxValue(remainingGuests, allocation, type): the largest value
      under both ceilings. */
  function MaxValue(remaining: int, a: Allocation, c: Category): (r: int)
    ensures UnderCeilings(remaining, a, c, r)
    ensures forall v :: UnderCeilings(remaining, a, c, v) ==> v <= r
  {
    var (minusNumber, addedNumber) := if c == Adult then (a.child, a.adult) else (a.adult, a.child);
    var maxCapacityPerRoom := RoomCapacity - minusNumber;
    if remaining + addedNumber <= maxCapacityPerRoom then remaining + addedNumber else maxCapacityPerRoom
  }

  /** The `max` prop wired to room `i`'s selector for category `c`. In a
      valid state it never lies below the room's current count. */
  function Bound(guest: int, rooms: seq<Allocation>, i: int, c: Category): (r: int)
    requires 0 <= i < |rooms|
    ensures ValidState(guest, rooms) ==> MinValue(c) <= Get(rooms[i], c) <= r
  {
    MaxValue(Unallocated(guest, rooms), rooms[i], c)
  }

  /** handleAllocationChange(index, type, inputNumber) on a copy of the list:
      only field `c` of room `i` changes. */
  function Update(rooms: seq<Allocation>, i: int, c: Category, n: int): (r: seq<Allocation>)
    requires 0 <= i < |rooms|
    ensures |r| == |rooms|
    ensures Get(r[i], c) == n && Other(r[i], c) == Other(rooms[i], c)
    ensures forall j :: 0 <= j < |rooms| && j != i ==> r[j] == rooms[j]
  {
    rooms[i := With(rooms[i], c, n)]
  }

  /** `Array(room).fill({ adult: 1, child: 0 })`. */
  function InitialRooms(room: nat): (r: seq<Allocation>)
    ensures |r| == room
    ensures forall j :: 0 <= j < room ==> r[j] == DefaultRoom
  {
    seq(room, _ => DefaultRoom)
  }

  /** A room with at least one adult, no negative child count and no more
      occupants than its capacity. */
  predicate ValidRoom(a: Allocation) {
    a.adult >= 1 && a.child >= 0 && a.adult + a.child <= RoomCapacity
  }

  /** The engine's invariant: every room valid and no more guests placed than exist. */
  predicate ValidState(guest: int, rooms: seq<Allocation>) {
    (forall j :: 0 <= j < |rooms| ==> ValidRoom(rooms[j])) && Total(rooms) <= guest
  }

  // ---------------------------------------------------------------------
  // Lemmas about the sum

  lemma {:induction false} TotalAppend(a: seq<Allocation>, b: seq<Allocation>)
    ensures Total(a + b) == Total(a) + Total(b)
    decreases |b|
  {
    if b == [] {
      assert a + b == a;
    } else {
      var b' := b[..|b| - 1];
      assert (a + b)[..|a + b| - 1] == a + b';
      TotalAppend(a, b');
    }
  }

  /** The reduce counts every room once: the total is the sum of each room's
      occupants, taken from the front as well as from the back. */
  lemma {:induction false} TotalFromFront(rooms: seq<Allocation>)
    requires |rooms| > 0
    ensures Total(rooms) == rooms[0].adult + rooms[0].child + Total(rooms[1..])
  {
    assert rooms == [rooms[0]] + rooms[1..];
    TotalAppend([rooms[0]], rooms[1..]);
    assert [rooms[0]][..0] == [];
  }

  /** Editing one field changes the total by exactly the difference. */
  lemma {:induction false} TotalUpdate(rooms: seq<Allocation>, i: int, c: Category, n: int)
    requires 0 <= i < |rooms|
    ensures Total(Update(rooms, i, c, n)) == Total(rooms) - Get(rooms[i], c) + n
  {
    var r := Update(rooms, i, c, n);
    assert rooms == rooms[..i] + [rooms[i]] + rooms[i + 1..];
    assert r == rooms[..i] + [r[i]] + rooms[i + 1..];
    TotalAppend(rooms[..i] + [rooms[i]], rooms[i + 1..]);
    TotalAppend(rooms[..i], [rooms[i]]);
    TotalAppend(rooms[..i] + [r[i]], rooms[i + 1..]);
    TotalAppend(rooms[..i], [r[i]]);
    assert [rooms[i]][..0] == [] && [r[i]][..0] == [];
  }

  /** Every freshly created room holds one guest, so the total is the room count. */
  lemma {:induction false} InitialTotal(room: nat)
    ensures Total(InitialRooms(room)) == room
  {
    if room > 0 {
      assert InitialRooms(room)[..room - 1] == InitialRooms(room - 1);
      InitialTotal(room - 1);
    }
  }

  /** Valid rooms hold between one and RoomCapacity guests each. */
  lemma {:induction false} TotalOfValidRooms(rooms: seq<Allocation>)
    requires forall j :: 0 <= j < |rooms| ==> ValidRoom(rooms[j])
    ensures |rooms| <= Total(rooms) <= RoomCapacity * |rooms|
    decreases |rooms|
  {
    if rooms != [] {
      TotalOfValidRooms(rooms[..|rooms| - 1]);
      assert ValidRoom(rooms[|rooms| - 1]);
    }
  }

  // ---------------------------------------------------------------------
  // The invariant

  /** In a valid state every room holds at least one guest and no more
      guests are placed than exist. */
  lemma ValidTotalBounds(guest: int, rooms: seq<Allocation>)
    ensures ValidState(guest, rooms) ==> |rooms| <= Total(rooms) <= guest
  {
    if ValidState(guest, rooms) {
      TotalOfValidRooms(rooms);
    }
  }

  /** No valid list has more rooms than guests: the requirement guest >= room
      of InitialValid cannot be dropped. */
  lemma ValidNeedsEnoughGuests(guest: int, rooms: seq<Allocation>)
    requires ValidState(guest, rooms)
    ensures guest >= |rooms|
  {
    TotalOfValidRooms(rooms);
  }

  /** With at least as many guests as rooms, the initial list is valid and
      leaves guest − room guests unallocated. */
  lemma InitialValid(guest: int, room: nat)
    requires guest >= room
    ensures ValidState(guest, InitialRooms(room))
    ensures Unallocated(guest, InitialRooms(room)) == guest - room
  {
    InitialTotal(room);
  }

  /** The selector's range is exact: from a valid state, an edit keeps the
      state valid if and only if the new value lies in [MinValue(c), Bound]. */
  lemma EditValidIff(guest: int, rooms: seq<Allocation>, i: int, c: Category, n: int)
    requires ValidState(guest, rooms) && 0 <= i < |rooms|
    ensures ValidState(guest, Update(rooms, i, c, n)) <==> MinValue(c) <= n <= Bound(guest, rooms, i, c)
  {
    var r := Update(rooms, i, c, n);
    TotalUpdate(rooms, i, c, n);
    if ValidState(guest, r) {
      assert ValidRoom(r[i]);
      assert UnderCeilings(Unallocated(guest, rooms), rooms[i], c, n);
    }
    if MinValue(c) <= n <= Bound(guest, rooms, i, c) {
      assert ValidRoom(rooms[i]);
      assert forall j :: 0 <= j < |r| ==> ValidRoom(r[j]);
    }
  }

  /** Every edit a selector can accept, a value in [MinValue(c), Bound],
      keeps the state valid. */
  lemma EditPreservesValid(guest: int, rooms: seq<Allocation>, i: int, c: Category, n: int)
    requires ValidState(guest, rooms) && 0 <= i < |rooms|
    requires MinValue(c) <= n <= Bound(guest, rooms, i, c)
    ensures ValidState(guest, Update(rooms, i, c, n))
    ensures Unallocated(guest, Update(rooms, i, c, n)) >= 0
  {
    EditValidIff(guest, rooms, i, c, n);
  }

  /** In a valid state every room's current counts lie within their
      selectors' [min, max], so the bound never forces a value down. */
  lemma CurrentWithinBounds(guest: int, rooms: seq<Allocation>, i: int, c: Category)
    requires ValidState(guest, rooms) && 0 <= i < |rooms|
    ensures MinValue(c) <= Get(rooms[i], c) <= Bound(guest, rooms, i, c)
  {
  }

  /** When no guest is left unallocated, every bound equals the current
      count: no selector can increase anything. */
  lemma NoIncrementWhenFull(guest: int, rooms: seq<Allocation>, i: int, c: Category)
    requires ValidState(guest, rooms) && 0 <= i < |rooms|
    requires Unallocated(guest, rooms) == 0
    ensures Bound(guest, rooms, i, c) == Get(rooms[i], c)
  {
  }

  /** The bound never grows as fewer guests remain unallocated. */
  lemma MaxValueMonotonic(r1: int, r2: int, a: Allocation, c: Category)
    requires r1 <= r2
    ensures MaxValue(r1, a, c) <= MaxValue(r2, a, c)
  {
  }

  /** Setting a room's category to its current count leaves the list unchanged. */
  lemma UpdateToCurrentIsIdentity(rooms: seq<Allocation>, i: int, c: Category)
    requires 0 <= i < |rooms|
    ensures Update(rooms, i, c, Get(rooms[i], c)) == rooms
  {
  }

  // ---------------------------------------------------------------------
  // Scenarios

  /** Six guests in two rooms start with four unallocated; one more adult in
      the first room leaves three. */
  lemma ScenarioSixGuestsTwoRooms()
    ensures InitialRooms(2) == [Allocation(1, 0), Allocation(1, 0)]
    ensures Unallocated(6, InitialRooms(2)) == 4
    ensures Update(InitialRooms(2), 0, Adult, 2) == [Allocation(2, 0), Allocation(1, 0)]
    ensures Unallocated(6, Update(InitialRooms(2), 0, Adult, 2)) == 3
  {
    InitialTotal(2);
    TotalUpdate(InitialRooms(2), 0, Adult, 2);
  }

  /** A room full of adults admits no child. */
  lemma ScenarioFullRoomRejectsChild()
    ensures Bound(6, [Allocation(4, 0), Allocation(1, 0)], 0, Child) == 0
  {
    assert Total([Allocation(4, 0), Allocation(1, 0)]) == 5;
  }
}
