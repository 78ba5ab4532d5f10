/** RoomAllocation (the component the application renders): the allocation
    list as state, one CustomInputNumber per room and category wired to the
    engine's bounds, and `onChange` called with every new list. */
module RoomAllocation {
  import opened Engine
  import opened Stepper
  import CustomInputNumber

  /** `const STEP = 1`: the step every selector is given. */
  const STEP: int := 1

  /** When no guest is unallocated, no selector can step up: a step of 1
      from the current count exceeds the wired max. */
  lemma IncrementRejectedWhenFull(guest: int, rooms: seq<Allocation>, i: int, c: Category)
    requires ValidState(guest, rooms) && 0 <= i < |rooms|
    requires Unallocated(guest, rooms) == 0
    ensures StepTo(Get(rooms[i], c), STEP, MinValue(c), Bound(guest, rooms, i, c)) == None
    ensures IncrementDisabled(Get(rooms[i], c), Bound(guest, rooms, i, c))
  {
  }

  /** A room's last adult cannot be removed: its decrement button is disabled
      and a step down from 1 is below the adult minimum. */
  lemma LastAdultStays(guest: int, rooms: seq<Allocation>, i: int)
    requires ValidState(guest, rooms) && 0 <= i < |rooms|
    requires rooms[i].adult == 1
    ensures DecrementDisabled(rooms[i].adult, MinValue(Adult))
    ensures StepTo(rooms[i].adult, -STEP, MinValue(Adult), Bound(guest, rooms, i, Adult)) == None
  {
  }

  class RoomAllocation {
    const guest: int
    const room: nat
    var roomAllocations: array<Allocation>
    /** Every list passed to `onChange`, oldest first. */
    var notifications: seq<seq<Allocation>>

    ghost predicate Valid()
      reads this
    {
      roomAllocations.Length == room
    }

    /** The current allocation list. */
    function Allocations(): seq<Allocation>
      reads this, roomAllocations
    {
      roomAllocations[..]
    }

    /** unAllocatedGuests, the count shown above the rooms: never negative
      while the list is consistent, and at most guest − room. */
    function UnAllocatedGuests(): (r: int)
      reads this, roomAllocations
      ensures Valid() && Consistent() ==> 0 <= r <= guest - room
    {
      Unallocated(guest, roomAllocations[..])
    }

    /** The engine's invariant holds of the current list. */
    ghost predicate Consistent()
      reads this, roomAllocations
    {
      ValidState(guest, roomAllocations[..])
    }

    /** The props this component renders into room `index`'s selector for
        category `c`. A wired selector of a consistent list shows a value
        within its own [min, max]. */
    ghost predicate Wired(index: int, c: Category, ctl: CustomInputNumber.CustomInputNumber)
      requires Valid() && 0 <= index < room
      reads this, roomAllocations, ctl
      ensures Wired(index, c, ctl) && Consistent() ==> ctl.min <= ctl.value <= ctl.max
    {
      ctl.min == MinValue(c) && ctl.max == Bound(guest, Allocations(), index, c) &&
      ctl.step == STEP && ctl.value == Get(Allocations()[index], c) &&
      ctl.disabled == (UnAllocatedGuests() == 0)
    }

    /** The first render: `room` rooms of one adult each; with at least as
        many guests as rooms the list is consistent and guest − room guests
        are unallocated. `onChange` has not been called. */
    constructor (guest: int, room: nat)
      ensures this.guest == guest && this.room == room
      ensures Valid() && fresh(roomAllocations)
      ensures Allocations() == InitialRooms(room) && notifications == []
      ensures guest >= room ==> Consistent() && UnAllocatedGuests() == guest - room
    {
      this.guest, this.room := guest, room;
      roomAllocations := new Allocation[room](_ => DefaultRoom);
      notifications := [];
      new;
      assert Allocations() == InitialRooms(room);
      if guest >= room {
        InitialValid(guest, room);
      }
    }

    /** handleAllocationChange: copy the list, overwrite one field of one
        room, make the copy the state and pass it to `onChange`. */
    method HandleAllocationChange(index: int, c: Category, inputNumber: int)
      requires Valid() && 0 <= index < room
      modifies this
      ensures Valid() && fresh(roomAllocations)
      ensures Allocations() == Update(old(Allocations()), index, c, inputNumber)
      ensures notifications == old(notifications) + [Allocations()]
    {
      var newAllocations := new Allocation[roomAllocations.Length]
        (j requires 0 <= j < roomAllocations.Length reads this, roomAllocations => roomAllocations[j]);
      newAllocations[index] := With(newAllocations[index], c, inputNumber);
      roomAllocations := newAllocations;
      notifications := notifications + [newAllocations[..]];
    }

    /** The parent's side of a selector event: a value the selector passed
        on goes through handleAllocationChange, and a value within the
        selector's [min, max] keeps a consistent list consistent. */
    method Accept(index: int, c: Category, forwarded: Option<int>)
      requires Valid() && 0 <= index < room
      requires forwarded.Some? ==> MinValue(c) <= forwarded.value <= Bound(guest, Allocations(), index, c)
      modifies this
      ensures Valid()
      ensures Allocations() ==
        if forwarded.Some? then Update(old(Allocations()), index, c, forwarded.value) else old(Allocations())
      ensures notifications == old(notifications) + if forwarded.Some? then [Allocations()] else []
      ensures old(Consistent()) ==> Consistent()
    {
      if forwarded.Some? {
        ghost var before := Allocations();
        if ValidState(guest, before) {
          EditPreservesValid(guest, before, index, c, forwarded.value);
        }
        HandleAllocationChange(index, c, forwarded.value);
      }
    }

    /** One event on room `index`'s selector for `c`, rendered with this
        component's props: whatever the selector passes on goes through
        handleAllocationChange, and the selector is re-rendered with the new
        props. The input is disabled while no guest is unallocated. Every
        accepted value lies in [MinValue(c), Bound], so a consistent list
        stays consistent. */
    method Dispatch(index: int, c: Category, ctl: CustomInputNumber.CustomInputNumber, e: CustomInputNumber.Event)
      returns (forwarded: Option<int>)
      requires Valid() && 0 <= index < room && Wired(index, c, ctl)
      modifies this, ctl
      ensures Valid() && Wired(index, c, ctl)
      ensures forwarded.Some? ==> MinValue(c) <= forwarded.value <= old(Bound(guest, Allocations(), index, c))
      // the value the event passes on
      ensures e.Press? && ButtonDisabled(e.up, old(Get(Allocations()[index], c)), MinValue(c), old(Bound(guest, Allocations(), index, c))) ==>
        forwarded == None
      ensures (e.Press? && !ButtonDisabled(e.up, old(Get(Allocations()[index], c)), MinValue(c), old(Bound(guest, Allocations(), index, c)))) || e.Repeat? ==>
        forwarded == StepTo(FieldNumber(old(ctl.inputValue)), if e.up then STEP else -STEP, MinValue(c), old(Bound(guest, Allocations(), index, c)))
      ensures e.Type? ==> forwarded == None
      ensures e.Blur? ==>
        forwarded == if old(UnAllocatedGuests()) == 0 then None else BlurValue(e.text, MinValue(c), old(Bound(guest, Allocations(), index, c)))
      // the new list and what onChange receives
      ensures Allocations() ==
        if forwarded.Some? then Update(old(Allocations()), index, c, forwarded.value) else old(Allocations())
      ensures notifications == old(notifications) + if forwarded.Some? then [Allocations()] else []
      ensures old(Consistent()) ==> Consistent()
      // the selector's field: what the handler left, then the value-sync effect
      ensures forwarded.Some? && forwarded.value != old(ctl.value) && forwarded.value != 0 ==>
        ctl.inputValue == Num(forwarded.value)
      ensures (e.Press? || e.Repeat?) ==>
        ctl.inputValue == if forwarded.Some? then Num(forwarded.value) else old(ctl.inputValue)
      ensures e.Type? ==>
        ctl.inputValue == if old(ctl.disabled) then old(ctl.inputValue) else Typed(old(ctl.inputValue), e.text)
      ensures e.Blur? && forwarded.None? ==>
        ctl.inputValue == if old(ctl.disabled) then old(ctl.inputValue) else Num(old(ctl.value))
      ensures e.Blur? && forwarded.Some? && (forwarded.value == old(ctl.value) || forwarded.value == 0) ==>
        ctl.inputValue == old(ctl.inputValue)
    {
      ghost var field := ctl.inputValue;
      forwarded := ctl.Fire(e);
      assert (e.Press? && !ButtonDisabled(e.up, ctl.value, ctl.min, ctl.max)) || e.Repeat? ==>
        forwarded == StepTo(FieldNumber(field), if e.up then STEP else -STEP, ctl.min, ctl.max);
      Accept(index, c, forwarded);
      ctl.ReceiveProps(Get(Allocations()[index], c), MinValue(c), Bound(guest, Allocations(), index, c), UnAllocatedGuests() == 0);
    }
  }
  /** The component's test with 6 guests in 2 rooms: typing 2 into room 1's
      adult input shows 2 and passes nothing on. */
  method ScenarioTypeAdult() returns (typed: Field, forwarded: Option<int>)
    ensures typed == Num(2) && forwarded == None
  {
    var ra := new RoomAllocation(6, 2);
    InitialTotal(2);
    assert ra.Allocations() == [DefaultRoom, DefaultRoom];
    assert ra.UnAllocatedGuests() == 4 && Bound(6, ra.Allocations(), 0, Adult) == 4;
    var ctl := new CustomInputNumber.CustomInputNumber(1, 4, STEP, 1, false);
    forwarded := ra.Dispatch(0, Adult, ctl, CustomInputNumber.Type(Numeric(2)));
    typed := ctl.inputValue;
  }

  /** The same render: pressing room 1's adult increment passes on 2, and
      onChange receives [{2, 0}, {1, 0}] with 3 guests left unallocated. */
  method ScenarioPressAdult() returns (forwarded: Option<int>, reported: seq<seq<Allocation>>, left: int)
    ensures forwarded == Some(2)
    ensures reported == [[Allocation(2, 0), Allocation(1, 0)]] && left == 3
  {
    var ra := new RoomAllocation(6, 2);
    InitialTotal(2);
    assert ra.Allocations() == [DefaultRoom, DefaultRoom];
    assert ra.UnAllocatedGuests() == 4 && Bound(6, ra.Allocations(), 0, Adult) == 4;
    var ctl := new CustomInputNumber.CustomInputNumber(1, 4, STEP, 1, false);
    forwarded := ra.Dispatch(0, Adult, ctl, CustomInputNumber.Press(true));
    assert forwarded == Some(2);
    assert Update([DefaultRoom, DefaultRoom], 0, Adult, 2) == [Allocation(2, 0), Allocation(1, 0)];
    TotalUpdate([DefaultRoom, DefaultRoom], 0, Adult, 2);
    reported := ra.notifications;
    left := ra.UnAllocatedGuests();
  }
}
