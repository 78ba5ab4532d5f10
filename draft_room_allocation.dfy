/** The earlier RoomAllocation draft: the same allocation list and bounds,
    one QuantitySelector per room and category, and an effect that passes a
    copy of the list to `onChange` whenever the list changes, but only while
    no more guests are placed than exist. */
module DraftRoomAllocation {
  import opened Engine
  import opened Stepper
  import QuantitySelector

  /** The effect's guard: the list is reported only when
      `totalGuests <= guest`. */
  function Emitted(guest: int, rooms: seq<Allocation>): (r: seq<seq<Allocation>>)
    ensures r == [] || r == [rooms]
    ensures r == [rooms] <==> Total(rooms) <= guest
  {
    if Total(rooms) <= guest then [rooms] else []
  }

  /** A consistent list is always reported, and reports what the display
      shows: `guest − totalGuests` is never negative. */
  lemma ConsistentIsEmitted(guest: int, rooms: seq<Allocation>)
    requires ValidState(guest, rooms)
    ensures Emitted(guest, rooms) == [rooms]
    ensures Unallocated(guest, rooms) >= 0
  {
  }

  /** With more rooms than guests the initial list is over-allocated, so the
      effect on the first render reports nothing. */
  lemma {:induction false} TooFewGuestsNotEmitted(guest: int, room: nat)
    requires guest < room
    ensures Emitted(guest, InitialRooms(room)) == []
  {
    InitialTotal(room);
  }

  class DraftRoomAllocation {
    const guest: int
    const room: nat
    var roomAllocations: array<Allocation>
    /** Every list passed to `onChange`, oldest first. */
    var notifications: seq<seq<Allocation>>

    ghost predicate Valid()
      reads this
    {
      roomAllocations.Length == room
    }

    /** The current allocation list. */
    function Allocations(): seq<Allocation>
      reads this, roomAllocations
    {
      roomAllocations[..]
    }

    /** totalGuests: guests placed in some room. While the list is
      consistent it lies between room and guest. */
    function TotalGuests(): (r: int)
      reads this, roomAllocations
      ensures Valid() && Consistent() ==> room <= r <= guest
    {
      ValidTotalBounds(guest, roomAllocations[..]);
      Total(roomAllocations[..])
    }

    /** The engine's invariant holds of the current list. */
    ghost predicate Consistent()
      reads this, roomAllocations
    {
      ValidState(guest, roomAllocations[..])
    }

    /** The props this component renders into room `index`'s selector for
        category `c`: min 1 for adults and 0 for children, max the engine's
        bound for `guest − totalGuests` unallocated guests. */
    ghost predicate Wired(index: int, c: Category, sel: QuantitySelector.QuantitySelector)
      requires Valid() && 0 <= index < room
      reads this, roomAllocations, sel
      ensures Wired(index, c, sel) && Consistent() ==> sel.min <= sel.value <= sel.max
    {
      sel.min == MinValue(c) && sel.max == MaxValue(guest - TotalGuests(), Allocations()[index], c) &&
      sel.value == Get(Allocations()[index], c)
    }

    /** The first render: `room` rooms of one adult each, followed by the
        effect, which reports the list when it is not over-allocated. */
    constructor (guest: int, room: nat)
      ensures this.guest == guest && this.room == room
      ensures Valid() && fresh(roomAllocations)
      ensures Allocations() == InitialRooms(room)
      ensures notifications == Emitted(guest, InitialRooms(room))
      ensures guest >= room ==> Consistent() && notifications == [InitialRooms(room)]
    {
      this.guest, this.room := guest, room;
      roomAllocations := new Allocation[room](_ => DefaultRoom);
      new;
      assert Allocations() == InitialRooms(room);
      notifications := if TotalGuests() <= guest then [roomAllocations[..]] else [];
      if guest >= room {
        InitialValid(guest, room);
      }
    }

    /** handleAllocationChange and the effect it triggers: copy the list,
        overwrite one field of one room, make the copy the state, then report
        a copy of it if `totalGuests <= guest`. */
    method HandleAllocationChange(index: int, c: Category, inputNumber: int)
      requires Valid() && 0 <= index < room
      modifies this
      ensures Valid() && fresh(roomAllocations)
      ensures Allocations() == Update(old(Allocations()), index, c, inputNumber)
      ensures notifications == old(notifications) + Emitted(guest, Allocations())
    {
      var newAllocations := new Allocation[roomAllocations.Length]
        (j requires 0 <= j < roomAllocations.Length reads this, roomAllocations => roomAllocations[j]);
      newAllocations[index] := With(newAllocations[index], c, inputNumber);
      roomAllocations := newAllocations;
      // the effect on [roomAllocations]
      if TotalGuests() <= guest {
        notifications := notifications + [roomAllocations[..]];
      }
    }

    /** The parent's side of a selector event: a value the selector passed
        on goes through handleAllocationChange, and a value within the
        selector's [min, max] keeps a consistent list consistent. */
    method Accept(index: int, c: Category, forwarded: Option<int>)
      requires Valid() && 0 <= index < room
      requires forwarded.Some? ==> MinValue(c) <= forwarded.value <= Bound(guest, Allocations(), index, c)
      modifies this
      ensures Valid()
      ensures Allocations() ==
        if forwarded.Some? then Update(old(Allocations()), index, c, forwarded.value) else old(Allocations())
      ensures notifications == old(notifications) + if forwarded.Some? then Emitted(guest, Allocations()) else []
      ensures old(Consistent()) ==> Consistent()
      ensures old(Consistent()) ==>
        notifications == old(notifications) + if forwarded.Some? then [Allocations()] else []
    {
      if forwarded.Some? {
        ghost var before := Allocations();
        if ValidState(guest, before) {
          EditPreservesValid(guest, before, index, c, forwarded.value);
        }
        HandleAllocationChange(index, c, forwarded.value);
        if ValidState(guest, before) {
          ConsistentIsEmitted(guest, Allocations());
        }
      }
    }

    /** The re-render of room `index`'s selector for `c` with this
        component's props; its local state is left alone. */
    method Rewire(index: int, c: Category, sel: QuantitySelector.QuantitySelector)
      requires Valid() && 0 <= index < room
      modifies sel`value, sel`min, sel`max
      ensures Wired(index, c, sel)
    {
      sel.ReceiveProps(Get(Allocations()[index], c), MinValue(c), MaxValue(guest - TotalGuests(), Allocations()[index], c));
    }

    /** One event on room `index`'s selector for `c`, rendered with this
        component's props: whatever the selector passes on goes through
        handleAllocationChange, and the selector is re-rendered with the new
        props. From a consistent list every accepted value keeps the list
        consistent and is reported. */
    method Dispatch(index: int, c: Category, sel: QuantitySelector.QuantitySelector, e: QuantitySelector.Event)
      returns (forwarded: Option<int>)
      requires Valid() && 0 <= index < room && Wired(index, c, sel)
      modifies this, sel
      ensures Valid() && Wired(index, c, sel)
      ensures forwarded.Some? ==> MinValue(c) <= forwarded.value <= old(Bound(guest, Allocations(), index, c))
      // the value the event passes on
      ensures e.Click? ==>
        forwarded ==
          var count, max := old(Get(Allocations()[index], c)), old(Bound(guest, Allocations(), index, c));
          if ButtonDisabled(e.direction == QuantitySelector.Increment, count, MinValue(c), max) then None
          else StepTo(count, QuantitySelector.Delta(e.direction), MinValue(c), max)
      ensures e.Type? ==> forwarded == None
      ensures e.Blur? ==> forwarded == BlurValue(e.text, MinValue(c), old(Bound(guest, Allocations(), index, c)))
      // the new list and what onChange receives
      ensures Allocations() ==
        if forwarded.Some? then Update(old(Allocations()), index, c, forwarded.value) else old(Allocations())
      ensures notifications == old(notifications) + if forwarded.Some? then Emitted(guest, Allocations()) else []
      ensures old(Consistent()) ==> Consistent()
      ensures old(Consistent()) ==>
        notifications == old(notifications) + if forwarded.Some? then [Allocations()] else []
      // the selector's local state: re-rendering never re-syncs it
      ensures sel.initialValue ==
        match e
        case Click(_) => if forwarded.Some? then Num(forwarded.value) else old(sel.initialValue)
        case Type(text) => Typed(old(sel.initialValue), text)
        case Blur(_) => if forwarded.Some? then old(sel.initialValue) else Num(old(sel.value))
    {
      ghost var field, count, max := sel.initialValue, Get(Allocations()[index], c), Bound(guest, Allocations(), index, c);
      forwarded := sel.Fire(e);
      assert e.Click? ==>
        forwarded ==
          if ButtonDisabled(e.direction == QuantitySelector.Increment, count, MinValue(c), max) then None
          else StepTo(count, QuantitySelector.Delta(e.direction), MinValue(c), max);
      assert e.Blur? ==> forwarded == BlurValue(e.text, MinValue(c), max);
      assert sel.initialValue ==
        match e
        case Click(_) => if forwarded.Some? then Num(forwarded.value) else field
        case Type(text) => Typed(field, text)
        case Blur(_) => if forwarded.Some? then field else Num(sel.value);
      Accept(index, c, forwarded);
      Rewire(index, c, sel);
    }
  }
}
