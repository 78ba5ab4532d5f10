/** QuantitySelector: the draft selector. Its buttons step from the `value`
    prop by a fixed step of 1; its local state `initialValue` starts at
    `value` and is updated by clicks, blurs and typing; accepted values are
    passed to the parent through `handleChange`. */
module QuantitySelector {
  import opened Stepper

  /** `const step = 1`. */
  const Step: int := 1

  datatype Direction = Increment | Decrement

  /** One user event on the selector: a click on a button, typing into the
      input, or leaving it. */
  datatype Event = Click(direction: Direction) | Type(text: RawText) | Blur(text: RawText)

  /** The signed step a button applies. */
  function Delta(direction: Direction): (d: int)
    ensures d == Step || d == -Step
    ensures d > 0 <==> direction == Increment
  {
    if direction == Increment then Step else -Step
  }

  /** The selector's example: value 5 in [1, 10]. Increment passes on 6 and
      decrement 4; blurring 'abc' or 11 passes nothing on (the field reverts
      to 5), blurring 1 passes on 1. The buttons are disabled at 1 (decrement)
      and at 10 (increment) and at no value in between. */
  lemma Scenarios()
    ensures StepTo(5, Delta(Increment), 1, 10) == Some(6)
    ensures StepTo(5, Delta(Decrement), 1, 10) == Some(4)
    ensures BlurValue(NonNumeric, 1, 10) == None && BlurValue(Numeric(11), 1, 10) == None
    ensures BlurValue(Numeric(1), 1, 10) == Some(1)
    ensures ButtonDisabled(false, 1, 1, 10) && ButtonDisabled(true, 10, 1, 10)
    ensures forall v :: 1 < v < 10 ==> !ButtonDisabled(false, v, 1, 10) && !ButtonDisabled(true, v, 1, 10)
  {
  }

  class QuantitySelector {
    // props, set by the parent on each render
    var min: int
    var max: int
    var value: int
    // local state
    var initialValue: Field

    /** The first render: the local state starts at the `value` prop. */
    constructor (min: int, max: int, value: int)
      ensures this.min == min && this.max == max && this.value == value
      ensures initialValue == Num(value)
    {
      this.min, this.max, this.value := min, max, value;
      initialValue := Num(value);
    }

    /** A re-render with new props; nothing re-syncs the local state. */
    method ReceiveProps(value': int, min': int, max': int)
      modifies this`value, this`min, this`max
      ensures value == value' && min == min' && max == max'
    {
      value, min, max := value', min', max';
    }

    /** handleButtonClick: step from the `value` prop; only a result in
        [min, max] is passed on and stored. */
    method HandleButtonClick(direction: Direction) returns (forwarded: Option<int>)
      modifies this`initialValue
      ensures forwarded == StepTo(value, Delta(direction), min, max)
      ensures initialValue == if forwarded.Some? then Num(forwarded.value) else old(initialValue)
    {
      var newValue := if direction == Increment then value + Step else value - Step;
      if newValue >= min && newValue <= max {
        forwarded := Some(newValue);
        initialValue := Num(newValue);
      } else {
        forwarded := None;
      }
    }

    /** A click on a button: a disabled button does not fire its handler. */
    method Click(direction: Direction) returns (forwarded: Option<int>)
      modifies this`initialValue
      ensures ButtonDisabled(direction == Increment, value, min, max) ==> forwarded == None && initialValue == old(initialValue)
      ensures !ButtonDisabled(direction == Increment, value, min, max) ==>
        forwarded == StepTo(value, Delta(direction), min, max) &&
        initialValue == if forwarded.Some? then Num(forwarded.value) else old(initialValue)
    {
      if ButtonDisabled(direction == Increment, value, min, max) {
        forwarded := None;
      } else {
        forwarded := HandleButtonClick(direction);
      }
    }

    /** The handler one event fires. Whatever is passed on lies in
        [min, max]. */
    method Fire(e: Event) returns (forwarded: Option<int>)
      modifies this`initialValue
      ensures forwarded.Some? ==> min <= forwarded.value <= max
      ensures e.Click? && ButtonDisabled(e.direction == Increment, value, min, max) ==>
        forwarded == None && initialValue == old(initialValue)
      ensures e.Click? && !ButtonDisabled(e.direction == Increment, value, min, max) ==>
        forwarded == StepTo(value, Delta(e.direction), min, max) &&
        initialValue == if forwarded.Some? then Num(forwarded.value) else old(initialValue)
      ensures e.Type? ==> forwarded == None && initialValue == Typed(old(initialValue), e.text)
      ensures e.Blur? ==>
        forwarded == BlurValue(e.text, min, max) &&
        initialValue == if forwarded.Some? then old(initialValue) else Num(value)
    {
      match e {
      case Click(direction) =>
        forwarded := Click(direction);
      case Type(text) =>
        HandleInputChange(text);
        forwarded := None;
      case Blur(text) =>
        forwarded := HandleBlur(text);
      }
    }

    /** handleBlur: a number in [min, max] is passed on; anything else
        reverts the local state to the `value` prop. */
    method HandleBlur(text: RawText) returns (forwarded: Option<int>)
      modifies this`initialValue
      ensures forwarded == BlurValue(text, min, max)
      ensures initialValue == if forwarded.Some? then old(initialValue) else Num(value)
    {
      var number := TextNumber(text);
      if number.Some? && number.value >= min && number.value <= max {
        forwarded := number;
      } else {
        forwarded := None;
        initialValue := Num(value);
      }
    }

    /** handleInputChange: typing updates the local state only. */
    method HandleInputChange(text: RawText)
      modifies this`initialValue
      ensures initialValue == Typed(old(initialValue), text)
    {
      match text
      case EmptyText => initialValue := Blank;
      case Numeric(n) => initialValue := Num(n);
      case NonNumeric =>
    }
  }
}
