/** CustomInputNumber: a number input between a decrement and an increment
    button. Its local state `inputValue` follows the `value` prop; steps,
    blurs and typing update it, and accepted values are passed to the
    parent through `handelInputChange`. */
module CustomInputNumber {
  import opened Stepper

  /** One user event on the selector: a press on a button (a disabled button
      receives none), one further firing of the repeat timer while a button
      is held, typing into the input, or leaving it. */
  datatype Event = Press(up: bool) | Repeat(up: bool) | Type(text: RawText) | Blur(text: RawText)

  /** The outcome of a held button: the final field and the values passed
      to `handelInputChange`, in order. */
  datatype Run = Run(field: Field, calls: seq<int>)

  /** A button held down for `ticks` firings of its handler (the first on
      press, the rest from the repeat timer), each a step of `delta` from the
      current field: the final field and, in order, the values passed to
      `handelInputChange`. */
  function Held(prev: Field, delta: int, min: int, max: int, ticks: nat): (r: Run)
    ensures |r.calls| <= ticks
    ensures r.calls == [] ==> r.field == prev
    decreases ticks
  {
    if ticks == 0 then Run(prev, [])
    else
      match StepTo(FieldNumber(prev), delta, min, max)
      case None => Held(prev, delta, min, max, ticks - 1)
      case Some(v) =>
        var rest := Held(Num(v), delta, min, max, ticks - 1);
        Run(rest.field, [v] + rest.calls)
  }

  /** However long a button is held, every value passed on lies in
      [min, max], and the field ends on the last value passed on, or where
      it started when nothing was. */
  lemma {:induction false} HeldStaysInRange(prev: Field, delta: int, min: int, max: int, ticks: nat)
    ensures var run := Held(prev, delta, min, max, ticks);
      forall j :: 0 <= j < |run.calls| ==> min <= run.calls[j] <= max
    ensures var run := Held(prev, delta, min, max, ticks);
      if run.calls == [] then run.field == prev else run.field == Num(run.calls[|run.calls| - 1])
    decreases ticks
  {
    if ticks > 0 {
      match StepTo(FieldNumber(prev), delta, min, max)
      case None => HeldStaysInRange(prev, delta, min, max, ticks - 1);
      case Some(v) => HeldStaysInRange(Num(v), delta, min, max, ticks - 1);
    }
  }

  /** One firing of a held button: if `whole` is what is passed on so far
      followed by the run of the remaining `n` firings, it is also what is
      passed on after this firing followed by the run of the other n − 1. */
  lemma HeldTick(prev: Field, delta: int, min: int, max: int, n: nat, calls: seq<int>, whole: Run)
    requires n > 0
    requires var rest := Held(prev, delta, min, max, n); whole == Run(rest.field, calls + rest.calls)
    ensures var f := StepTo(FieldNumber(prev), delta, min, max);
      var rest := Held(if f.Some? then Num(f.value) else prev, delta, min, max, n - 1);
      whole == Run(rest.field, (if f.Some? then calls + [f.value] else calls) + rest.calls)
  {
    var f := StepTo(FieldNumber(prev), delta, min, max);
    if f.Some? {
      var rest := Held(Num(f.value), delta, min, max, n - 1);
      assert (calls + [f.value]) + rest.calls == calls + ([f.value] + rest.calls);
    }
  }

  /** Holding increment (step 1) from a value in [min, max] passes on
      v+1, v+2, ... and stops at max. */
  lemma {:induction false} HeldIncrementStopsAtMax(v: int, min: int, max: int, ticks: nat)
    requires min <= v <= max
    ensures Held(Num(v), 1, min, max, ticks) ==
      Run(Num(if v + ticks <= max then v + ticks else max),
       seq(if ticks <= max - v then ticks else max - v, j => v + 1 + j))
    decreases ticks
  {
    if ticks > 0 {
      if v < max {
        HeldIncrementStopsAtMax(v + 1, min, max, ticks - 1);
        var n := if ticks <= max - v then ticks else max - v;
        assert [v + 1] + seq(n - 1, j => v + 2 + j) == seq(n, j => v + 1 + j);
      } else {
        HeldIncrementStopsAtMax(v, min, max, ticks - 1);
      }
    }
  }

  /** Holding decrement (step 1) from a value in [min, max] passes on
      v−1, v−2, ... and stops at min. */
  lemma {:induction false} HeldDecrementStopsAtMin(v: int, min: int, max: int, ticks: nat)
    requires min <= v <= max
    ensures Held(Num(v), -1, min, max, ticks) ==
      Run(Num(if v - ticks >= min then v - ticks else min),
       seq(if ticks <= v - min then ticks else v - min, j => v - 1 - j))
    decreases ticks
  {
    if ticks > 0 {
      if v > min {
        HeldDecrementStopsAtMin(v - 1, min, max, ticks - 1);
        var n := if ticks <= v - min then ticks else v - min;
        assert [v - 1] + seq(n - 1, j => v - 2 - j) == seq(n, j => v - 1 - j);
      } else {
        HeldDecrementStopsAtMin(v, min, max, ticks - 1);
      }
    }
  }

  /** From 2 in [0, 4]: holding increment passes on 3 and 4 and stays at 4;
      holding decrement passes on 1 and 0 and stays at 0. */
  lemma HeldScenarios()
    ensures Held(Num(2), 1, 0, 4, 5) == Run(Num(4), [3, 4])
    ensures Held(Num(2), -1, 0, 4, 2) == Run(Num(0), [1, 0])
    ensures Held(Num(2), -1, 0, 4, 4) == Run(Num(0), [1, 0])
  {
  }

  class CustomInputNumber {
    // props, set by the parent on each render
    var min: int
    var max: int
    var step: int
    var value: int
    var disabled: bool
    // local state
    var inputValue: Field

    /** The first render: the local state starts at the `value` prop. */
    constructor (min: int, max: int, step: int, value: int, disabled: bool)
      ensures this.min == min && this.max == max && this.step == step && this.value == value
      ensures this.disabled == disabled
      ensures inputValue == Num(value)
    {
      this.min, this.max, this.step, this.value, this.disabled := min, max, step, value, disabled;
      inputValue := Num(value);
    }

    /** A re-render with new props, followed by the effect on `value`: when
        `value` changed to a non-zero number the field takes it; a change to
        0 leaves the field alone. */
    method ReceiveProps(value': int, min': int, max': int, disabled': bool)
      modifies this`value, this`min, this`max, this`disabled, this`inputValue
      ensures value == value' && min == min' && max == max' && disabled == disabled'
      ensures inputValue == if value' != old(value) && value' != 0 then Num(value') else old(inputValue)
    {
      var changed := value' != value;
      value, min, max, disabled := value', min', max', disabled';
      if changed && value != 0 {
        inputValue := Num(value);
      }
    }

    /** handleIncrement: step up from the field; pass on and store the new
        value only when it lies in [min, max]. */
    method HandleIncrement() returns (forwarded: Option<int>)
      modifies this`inputValue
      ensures forwarded == StepTo(FieldNumber(old(inputValue)), step, min, max)
      ensures inputValue == if forwarded.Some? then Num(forwarded.value) else old(inputValue)
    {
      var newValue := FieldNumber(inputValue) + step;
      if newValue >= min && newValue <= max {
        forwarded := Some(newValue);
        inputValue := Num(newValue);
      } else {
        forwarded := None;
      }
    }

    /** handleDecrement: the same, stepping down. */
    method HandleDecrement() returns (forwarded: Option<int>)
      modifies this`inputValue
      ensures forwarded == StepTo(FieldNumber(old(inputValue)), -step, min, max)
      ensures inputValue == if forwarded.Some? then Num(forwarded.value) else old(inputValue)
    {
      var newValue := FieldNumber(inputValue) - step;
      if newValue >= min && newValue <= max {
        forwarded := Some(newValue);
        inputValue := Num(newValue);
      } else {
        forwarded := None;
      }
    }

    /** handleBlur: a number in [min, max] is passed on (the field keeps what
        was typed); anything else reverts the field to the `value` prop. */
    method HandleBlur(text: RawText) returns (forwarded: Option<int>)
      modifies this`inputValue
      ensures forwarded == BlurValue(text, min, max)
      ensures inputValue == if forwarded.Some? then old(inputValue) else Num(value)
    {
      var number := TextNumber(text);
      if number.Some? && number.value >= min && number.value <= max {
        forwarded := number;
      } else {
        forwarded := None;
        inputValue := Num(value);
      }
    }

    /** handleInputChange: typing updates the field only, never the parent. */
    method HandleInputChange(text: RawText)
      modifies this`inputValue
      ensures inputValue == Typed(old(inputValue), text)
    {
      match text
      case EmptyText => inputValue := Blank;
      case Numeric(n) => inputValue := Num(n);
      case NonNumeric =>
    }

    /** The handler one event fires: a press reaches only an enabled button,
        and typing or leaving the input does nothing while the `disabled`
        prop is set. Whatever is passed on lies in [min, max]. */
    method Fire(e: Event) returns (forwarded: Option<int>)
      modifies this`inputValue
      ensures forwarded.Some? ==> min <= forwarded.value <= max
      ensures e.Press? && ButtonDisabled(e.up, value, min, max) ==> forwarded == None && inputValue == old(inputValue)
      ensures (e.Press? && !ButtonDisabled(e.up, value, min, max)) || e.Repeat? ==>
        forwarded == StepTo(FieldNumber(old(inputValue)), if e.up then step else -step, min, max) &&
        inputValue == if forwarded.Some? then Num(forwarded.value) else old(inputValue)
      ensures e.Type? ==> forwarded == None
      ensures !disabled && e.Type? ==> inputValue == Typed(old(inputValue), e.text)
      ensures disabled && (e.Type? || e.Blur?) ==> forwarded == None && inputValue == old(inputValue)
      ensures !disabled && e.Blur? ==>
        forwarded == BlurValue(e.text, min, max) &&
        inputValue == if forwarded.Some? then old(inputValue) else Num(value)
    {
      match e {
      case Press(up) =>
        if ButtonDisabled(up, value, min, max) {
          forwarded := None;
        } else if up {
          forwarded := HandleIncrement();
        } else {
          forwarded := HandleDecrement();
        }
      case Repeat(up) =>
        if up {
          forwarded := HandleIncrement();
        } else {
          forwarded := HandleDecrement();
        }
      case Type(text) =>
        if !disabled {
          HandleInputChange(text);
        }
        forwarded := None;
      case Blur(text) =>
        if !disabled {
          forwarded := HandleBlur(text);
        } else {
          forwarded := None;
        }
      }
    }

    /** A press held for `ticks` firings of the handler, as a run of
        HandleIncrement (or HandleDecrement) calls; a disabled button
        receives no press at all. */
    method Hold(up: bool, ticks: nat) returns (calls: seq<int>)
      modifies this`inputValue
      ensures ButtonDisabled(up, value, min, max) ==> calls == [] && inputValue == old(inputValue)
      ensures !ButtonDisabled(up, value, min, max) ==>
        Run(inputValue, calls) == Held(old(inputValue), if up then step else -step, min, max, ticks)
      ensures forall j :: 0 <= j < |calls| ==> min <= calls[j] <= max
    {
      calls := [];
      if ButtonDisabled(up, value, min, max) {
        return;
      }
      ghost var delta := if up then step else -step;
      ghost var start := inputValue;
      var i := 0;
      while i < ticks
        invariant 0 <= i <= ticks
        invariant var rest := Held(inputValue, delta, min, max, ticks - i);
          Held(start, delta, min, max, ticks) == Run(rest.field, calls + rest.calls)
      {
        HeldTick(inputValue, delta, min, max, ticks - i, calls, Held(start, delta, min, max, ticks));
        var forwarded;
        if up {
          forwarded := HandleIncrement();
        } else {
          forwarded := HandleDecrement();
        }
        if forwarded.Some? {
          calls := calls + [forwarded.value];
        }
        i := i + 1;
      }
      HeldStaysInRange(start, delta, min, max, ticks);
    }
  }
}
