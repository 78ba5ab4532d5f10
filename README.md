# Room allocation widget: a Dafny model

This project models the logic of a small form widget. The widget spreads a
fixed number of guests over a fixed number of hotel rooms. Each room holds
`{adult, child}` counts and starts at `{1, 0}`. The widget shows how many
guests are still unallocated. Every count is edited through a number selector
whose `min` and `max` come from the allocation engine:

- `min` is 1 for adults and 0 for children;
- `max` is `calculateMaxValue`, i.e. `min(unallocated + current, 4 − other)`,
  where 4 is the room capacity.

The model has six modules, one per source file plus the shared engine:

- `Engine` (engine.dfy) is the allocation logic both RoomAllocation versions
  share. It defines the record, the `reduce` that sums occupants,
  `unAllocatedGuests`, `calculateMaxValue`, the copy-and-overwrite edit, the
  initial list, and the invariant: every room has at least one adult, no
  negative child count and at most 4 occupants, and no more guests are
  placed than exist. The draft's `calculateMaxValue` is the same function
  as the component's (it writes the literal 4 where the component names
  `CAPACITY_PRE_ROOM`), so both versions use `Engine.MaxValue`.
- `Stepper` (stepper.dfy) holds what the two selectors share. It covers raw
  input text (empty, a number, or text that parses to NaN), the local
  `'' | number` state, the range check on a step, the blur check, typing,
  and the conditions that disable the buttons.
- `CustomInputNumber` (custom_input_number.dfy) is a class. Its props are
  fields, and so is its `inputValue` state. It has the value-sync effect,
  increment, decrement, blur, typing, the event bindings of its buttons and
  input (`Fire`, with the `disabled` prop), and a held button as a run of
  handler firings.
- `QuantitySelector` (quantity_selector.dfy) is a class. Its buttons step
  by the constant 1 from the `value` prop, its blur and typing work on
  `initialValue`, and `Fire` runs the handler an event reaches.
- `RoomAllocation` (room_allocation.dfy) is the component the application
  renders. It is a class holding the allocation list as an array. It also
  keeps a log of every list passed to `onChange`, which it calls on every
  edit. `Dispatch` runs one user event on one wired `CustomInputNumber` and
  feeds any accepted value back through `handleAllocationChange`.
- `DraftRoomAllocation` (draft_room_allocation.dfy) is the earlier draft
  wired to `QuantitySelector`. Its effect reports a copy of the list only
  while `totalGuests <= guest`, including on the first render.

The main results:

- `Engine.EditValidIff`: from a valid list, an edit keeps the list valid
  if and only if the new value lies between the category's minimum and the
  bound. So the selector's `[min, max]` is exactly the set of legal values.
- `Dispatch` in both components: every value a wired selector accepts lies
  in `[min, max]`, so every event keeps a valid list valid.
- Once no guest is left unallocated, every bound equals the current count
  and no increment is accepted.

Three facts about the code shape the model:

- The code's `handleAllocationChange` applies any value it is given. The
  range check that rejects an edit lives in the selectors, not in the
  engine.
- The component version calls `onChange` on every edit. Only the draft
  guards the report with `totalGuests <= guest`.
- Neither version checks that there are at least as many guests as rooms.
  The model proves the invariant from `guest >= room` and shows, in
  `Engine.ValidNeedsEnoughGuests`, that no valid list exists without it.

Other behaviour of the code that the model keeps:

- `Number('')` is 0. Blurring an empty field therefore passes 0 on when 0
  is in range (the child selector), and stepping from an empty field starts
  at 0.
- The value-sync effect of `CustomInputNumber` skips a `value` of 0.

## Model

| member | source | states |
|---|---|---|
| Engine.MinValue | src/components/RoomAllocation.tsx:76-96 | the `min` prop (1 adult, 0 children) is no more than the count any valid room holds, and a room with that count is valid |
| Engine.Total | src/components/RoomAllocation.tsx:28-30 | the reduce over rooms with no negative count is never negative |
| Engine.Unallocated | src/components/RoomAllocation.tsx:25-32 | in a valid list the unallocated count is between 0 and guest − room |
| Engine.Bound | src/components/RoomAllocation.tsx:79-97 | in a valid list the wired `max` is never below the room's current count, which is never below `min` |
| Engine.MaxValue | src/components/RoomAllocation.tsx:34-44 | the result lies under both ceilings (room capacity minus the other category, unallocated plus this category's count) and is at least every value that does |
| Engine.MaxValueMonotonic | src/components/RoomAllocation.tsx:39-43 | the bound never grows as fewer guests remain unallocated |
| Engine.With | src/components/RoomAllocation.tsx:52-55 | the overwritten category holds the new value and the other category is unchanged |
| Engine.Update | src/components/RoomAllocation.tsx:51-55 | the edited list has the same length; only the chosen field of the chosen room changes |
| Engine.UpdateToCurrentIsIdentity | src/components/RoomAllocation.tsx:51-55 | setting a room's category to its current count leaves the list unchanged |
| Engine.InitialRooms | src/components/RoomAllocation.tsx:19-21 | the initial list has `room` entries, each one adult and no child |
| Engine.InitialTotal | src/components/RoomAllocation.tsx:19-21 | the initial list places exactly `room` guests |
| Engine.InitialValid | src/components/RoomAllocation.tsx:19-32 | with guest >= room the initial list is valid and guest − room guests are unallocated |
| Engine.ValidTotalBounds | src/components/RoomAllocation.tsx:25-32 | in a valid list the reduce lies between the number of rooms and the number of guests |
| Engine.ValidNeedsEnoughGuests | src/components/RoomAllocation.tsx:19-21 | no valid list has more rooms than guests |
| Engine.TotalAppend | src/components/RoomAllocation.tsx:28-30 | the reduce over two joined lists is the sum of the two reduces |
| Engine.TotalFromFront | src/components/RoomAllocation.tsx:28-30 | the reduce is the first room's occupants plus the reduce of the rest |
| Engine.TotalOfValidRooms | src/components/RoomAllocation.tsx:25-32 | valid rooms place between one and four guests each |
| Engine.TotalUpdate | src/components/RoomAllocation.tsx:25-32 | after an edit the total changes by exactly the new value minus the old |
| Engine.EditValidIff | src/components/RoomAllocation.tsx:34-58 | from a valid list, an edit keeps the list valid if and only if the new value lies in [min, max] as the selector is wired |
| Engine.EditPreservesValid | src/components/RoomAllocation.tsx:76-108 | an edit to a value in [min, max] as wired keeps the list valid and the unallocated count non-negative |
| Engine.CurrentWithinBounds | src/components/RoomAllocation.tsx:76-106 | in a valid list every current count lies within its selector's [min, max] |
| Engine.NoIncrementWhenFull | src/components/RoomAllocation.tsx:39-43 | with no guest unallocated every bound equals the current count |
| Engine.ScenarioSixGuestsTwoRooms | src/components/RoomAllocation.test.tsx:12-15 | six guests in two rooms leave four unallocated; one more adult in room one leaves three |
| Engine.ScenarioFullRoomRejectsChild | src/components/RoomAllocation.tsx:94-97 | a room of four adults gets a child bound of 0 |
| RoomAllocation.IncrementRejectedWhenFull | src/components/RoomAllocation.tsx:76-108 | with no guest unallocated a step up is refused and the increment button is disabled, for both categories |
| RoomAllocation.LastAdultStays | src/components/RoomAllocation.tsx:76-84 | a room's only adult cannot be stepped down: the button is disabled and the step is below min |
| RoomAllocation.ScenarioTypeAdult | src/components/RoomAllocation.test.tsx:38-47 | with 6 guests in 2 rooms, typing 2 into room 1's adult input shows 2 and passes nothing on |
| RoomAllocation.ScenarioPressAdult | src/components/RoomAllocation.tsx:76-90 | with 6 guests in 2 rooms, pressing room 1's adult increment passes on 2, onChange receives [{2, 0}, {1, 0}] and 3 guests stay unallocated |
| RoomAllocation.RoomAllocation.constructor | src/components/RoomAllocation.tsx:19-21 | initial state is `room` rooms of {1, 0}, consistent when guest >= room, and nothing reported yet |
| RoomAllocation.RoomAllocation.HandleAllocationChange | src/components/RoomAllocation.tsx:46-58 | the state becomes a fresh copy with one field overwritten, and onChange receives exactly that list |
| RoomAllocation.RoomAllocation.UnAllocatedGuests | src/components/RoomAllocation.tsx:25-32 | while the list is consistent the displayed count is between 0 and guest − room |
| RoomAllocation.RoomAllocation.Wired | src/components/RoomAllocation.tsx:76-107 | the selector props as rendered (min, max, step, value, and `disabled` while no guest is unallocated); a wired selector of a consistent list shows a value within its [min, max] |
| RoomAllocation.RoomAllocation.Accept | src/components/RoomAllocation.tsx:81-83 | a value the selector passes on goes through handleAllocationChange and is reported; a value within the wired [min, max] keeps a consistent list consistent |
| RoomAllocation.RoomAllocation.Dispatch | src/components/RoomAllocation.tsx:76-108 | the value an event passes on is determined: nothing for a press on a disabled button or for typing, the step from the field for an enabled press or a timer firing, and the blur check against [min, max] unless the input is disabled; the list changes by exactly that value, onChange receives the new list, a valid list stays valid, the selector is wired to the new state, and its field after the handler and the value-sync effect is given |
| Stepper.TextNumber | src/components/CustomInputNumber.tsx:53-55 | `Number(text)`: NaN exactly for non-numeric text, and 0 exactly for '' and '0' |
| Stepper.FieldNumber | src/components/CustomInputNumber.tsx:66 | `Number(prev)` of the local state: 0 exactly for '' and 0 |
| Stepper.StepTo | src/components/CustomInputNumber.tsx:64-74 | a step is accepted exactly when its result lies in [min, max], and the accepted value is that result |
| Stepper.BlurValue | src/components/CustomInputNumber.tsx:49-62 | a blurred value is passed on exactly when its text is a number in [min, max] |
| Stepper.Typed | src/components/CustomInputNumber.tsx:100-113 | empty text clears the field, numeric text stores its number, other text changes nothing |
| Stepper.TypedThenBlurAgree | src/components/CustomInputNumber.tsx:100-113 | after typing non-NaN text the field reads back as the number a blur of that text passes on |
| Stepper.DecrementDisabled | src/components/CustomInputNumber.tsx:128 | the decrement button is disabled exactly when a step of 1 down would go below min |
| Stepper.IncrementDisabled | src/components/CustomInputNumber.tsx:157 | the increment button is disabled exactly when a step of 1 up would exceed max |
| Stepper.ButtonsEnabledIffStepAccepted | src/components/QuantitySelector.tsx:38-44 | with value in [min, max] each button is enabled exactly when its one-step click is accepted |
| CustomInputNumber.Held | src/components/CustomInputNumber.tsx:88-98 | a held button fires at most once per tick, and a run that passes nothing on leaves the field where it was |
| CustomInputNumber.HeldStaysInRange | src/components/CustomInputNumber.tsx:64-98 | however long a button is held, every value passed on lies in [min, max] and the field ends on the last one |
| CustomInputNumber.HeldIncrementStopsAtMax | src/components/CustomInputNumber.tsx:64-74 | holding increment from v passes on v+1, v+2, … and stops at max |
| CustomInputNumber.HeldDecrementStopsAtMin | src/components/CustomInputNumber.tsx:76-86 | holding decrement from v passes on v−1, v−2, … and stops at min |
| CustomInputNumber.HeldScenarios | src/components/CustomInputNumber.test.tsx:106-155 | from 2 in [0, 4] a held increment passes on 3, 4 and a held decrement 1, 0 |
| CustomInputNumber.CustomInputNumber.constructor | src/components/CustomInputNumber.tsx:22-33 | the props are stored and the local state starts at the value prop |
| CustomInputNumber.CustomInputNumber.ReceiveProps | src/components/CustomInputNumber.tsx:37-41 | the new props (value, min, max, disabled) replace the old; a changed non-zero value prop overwrites the field, a change to 0 does not |
| CustomInputNumber.CustomInputNumber.HandleIncrement | src/components/CustomInputNumber.tsx:64-74 | steps up from the field; only a result in [min, max] is passed on and stored, otherwise nothing changes |
| CustomInputNumber.CustomInputNumber.HandleDecrement | src/components/CustomInputNumber.tsx:76-86 | steps down from the field; only a result in [min, max] is passed on and stored, otherwise nothing changes |
| CustomInputNumber.CustomInputNumber.HandleBlur | src/components/CustomInputNumber.tsx:49-62 | a number in [min, max] is passed on; anything else reverts the field to the value prop |
| CustomInputNumber.CustomInputNumber.HandleInputChange | src/components/CustomInputNumber.tsx:100-113 | the field becomes Typed(old field, text) and nothing is passed on |
| CustomInputNumber.CustomInputNumber.Fire | src/components/CustomInputNumber.tsx:122-161 | a press on a disabled button does nothing; an enabled press or a timer firing passes on and stores the step exactly when it is in range; typing stores Typed(field, text) and passes nothing on; leaving the input passes on an in-range number or reverts the field to the value prop; the `disabled` prop makes the input ignore typing and leaving; any value passed on lies in [min, max] |
| CustomInputNumber.CustomInputNumber.Hold | src/components/CustomInputNumber.tsx:88-98 | a held press on an enabled button gives exactly the held run's values, all in [min, max]; a disabled button gives none |
| QuantitySelector.Delta | src/components/QuantitySelector.tsx:38-39 | a click moves by the constant step 1, up for increment and down for decrement |
| QuantitySelector.Scenarios | src/components/QuantitySelector.test.tsx:22-114 | from 5 in [1, 10]: clicks pass on 6 and 4, blurring 'abc' or 11 reverts, the buttons are disabled at 1 and 10 |
| QuantitySelector.QuantitySelector.constructor | src/components/QuantitySelector.tsx:20 | the local state starts at the value prop |
| QuantitySelector.QuantitySelector.ReceiveProps | src/components/QuantitySelector.tsx:13-19 | a re-render replaces the props and never re-syncs the local state |
| QuantitySelector.QuantitySelector.HandleButtonClick | src/components/QuantitySelector.tsx:38-44 | steps from the value prop; only a result in [min, max] is passed on and stored, otherwise nothing changes |
| QuantitySelector.QuantitySelector.Fire | src/components/QuantitySelector.tsx:64-93 | a click on a disabled button passes nothing on and leaves the state; an enabled click passes on and stores the step exactly when it is in range; typing stores Typed(state, text) and passes nothing on; leaving the input passes on an in-range number or reverts the state to the value prop; any value passed on lies in [min, max] |
| QuantitySelector.QuantitySelector.Click | src/components/QuantitySelector.tsx:66-93 | a disabled button does nothing; an enabled one runs handleButtonClick |
| QuantitySelector.QuantitySelector.HandleBlur | src/components/QuantitySelector.tsx:50-62 | a number in [min, max] is passed on; anything else reverts the state to the value prop |
| QuantitySelector.QuantitySelector.HandleInputChange | src/components/QuantitySelector.tsx:23-36 | the state becomes Typed(old state, text) and nothing is passed on |
| DraftRoomAllocation.Emitted | src/RoomAllocation.tsx:48-52 | the list is reported, once, exactly when totalGuests <= guest |
| DraftRoomAllocation.ConsistentIsEmitted | src/RoomAllocation.tsx:48-59 | a valid list is always reported, and the displayed guest − totalGuests is non-negative |
| DraftRoomAllocation.TooFewGuestsNotEmitted | src/RoomAllocation.tsx:16-18 | with fewer guests than rooms the initial list is never reported |
| DraftRoomAllocation.DraftRoomAllocation.constructor | src/RoomAllocation.tsx:16-18 | initial state is `room` rooms of {1, 0}, reported on the first render when guest >= room |
| DraftRoomAllocation.DraftRoomAllocation.HandleAllocationChange | src/RoomAllocation.tsx:38-52 | the state becomes a fresh copy with one field overwritten, reported only when totalGuests <= guest |
| DraftRoomAllocation.DraftRoomAllocation.TotalGuests | src/RoomAllocation.tsx:32-36 | while the list is consistent totalGuests lies between room and guest |
| DraftRoomAllocation.DraftRoomAllocation.Wired | src/RoomAllocation.tsx:70-90 | the selector props as rendered; a wired selector of a consistent list shows a value within its [min, max] |
| DraftRoomAllocation.DraftRoomAllocation.Accept | src/RoomAllocation.tsx:74-76 | a value the selector passes on goes through handleAllocationChange and the effect reports it when totalGuests <= guest; from a consistent list a value within the wired [min, max] keeps it consistent and is always reported |
| DraftRoomAllocation.DraftRoomAllocation.Rewire | src/RoomAllocation.tsx:70-90 | the selector re-rendered with this component's props is wired to the current list, and its local state is left alone |
| DraftRoomAllocation.DraftRoomAllocation.Dispatch | src/RoomAllocation.tsx:70-90 | the value an event passes on is determined: nothing for a click on a disabled button or for typing, the one-step move from the value prop for an enabled click, and the blur check against [min, max]; the list changes by exactly that value, a valid list stays valid and is then always reported, and the selector's new local state is given |

## Left out

- Rendering is not modelled: JSX, CSS class strings, the labels, icons and
  the `hr` divider. The displayed counts appear only as `UnAllocatedGuests`
  and `guest − TotalGuests`.
- The repeat timer (`setInterval`/`clearInterval`, 200 ms) and its cleanup on
  unmount are scheduling. A held button is a number of handler firings:
  `Hold`, `Held`, and the `Repeat` event of `RoomAllocation.Dispatch`.
- A repeating handler keeps the props and parent callback from the render
  where the press began. That stale closure is not modelled; each `Repeat`
  event uses the current props.
- React's hook scheduling is reduced to the state it holds. Each state is a
  field and each handler a method. An effect runs once after each state
  change it depends on. A parent that passes a new callback on every
  render (as App does for the component version) re-runs the draft's
  effect without a list change; that re-run is not modelled. React may call a state updater twice
  in development mode; that is not modelled either.
- `Number(...)` and `isNaN` are abstracted to empty text, an integer, or NaN.
  Fractions, whitespace, exponents and other float cases are left out, and
  JavaScript numbers are unbounded integers.
- The `onBlur`/`onChange` props of `CustomInputNumber` only log to the
  console and are left out.
- The application's wiring (src/App.tsx), webpack/webpack.common.js and
  tailwind.config.js are configuration.
- `QuantitySelector` also renders an inner `CustomInputNumber` with `min` 0
  and no `handelInputChange`. That composition is not modelled; only
  `QuantitySelector`'s own handlers and buttons are.
- `Dispatch` re-renders only the selector it drives. The other selectors'
  props also change after an edit; each is modelled as re-rendered before
  its own next event (the `Wired` requirement).
- `guest` and `room` are fixed when the component mounts (`const` fields).
  In the code both are props: a later, smaller `guest` can make the
  unallocated count negative without any edit, and it re-runs the draft's
  effect; a later `room` changes only the heading and which rooms get a
  divider; the list keeps its length, since only the initial state reads
  `room` to build it.
  The application never changes either.
- `Array(room).fill(...)` puts one shared object in every slot. Edits always
  replace a room with a new object, so the sharing is never observable, and
  rooms are value records here.
- `handleAllocationChange` is only called with the index of an existing
  room, so the model requires one. JavaScript would grow the array for a
  larger index. A negative `room` makes `Array` throw, so `room` is a `nat`.
