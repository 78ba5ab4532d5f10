/** What the two number selectors (CustomInputNumber and QuantitySelector)
    share: the raw text of the input, the value they hold, and the three
    decisions they make: accept a step, accept a blurred value, store typed
    text. */
module Stepper {

  datatype Option<T> = None | Some(value: T)

  /** The text of the number input as a handler reads it: empty, a number,
      or text that `Number(...)` turns into NaN. */
  datatype RawText = EmptyText | Numeric(n: int) | NonNumeric

  /** The selector's local state, `number | string`: either '' or a number. */
  datatype Field = Blank | Num(n: int)

  /** `Number(text)` with NaN as None; `Number('')` is 0, the same number
      as the text '0'. */
  function TextNumber(t: RawText): (r: Option<int>)
    ensures r.None? <==> t.NonNumeric?
    ensures r == Some(0) <==> t == EmptyText || t == Numeric(0)
  {
    match t
    case EmptyText => Some(0)
    case Numeric(n) => Some(n)
    case NonNumeric => None
  }

  /** `Number(prev)` of the local state; `Number('')` is 0, so a cleared
      field reads as the number 0. */
  function FieldNumber(f: Field): (r: int)
    ensures r == 0 <==> f == Blank || f == Num(0)
  {
    match f
    case Blank => 0
    case Num(n) => n
  }

  /** A step from `prev` by `delta`: the new value is accepted, and passed
      to the parent, exactly when it lies in [min, max]. */
  function StepTo(prev: int, delta: int, min: int, max: int): (r: Option<int>)
    ensures r.Some? <==> min <= prev + delta <= max
    ensures r.Some? ==> r.value == prev + delta && min <= r.value <= max
  {
    var newValue := prev + delta;
    if newValue >= min && newValue <= max then Some(newValue) else None
  }

  /** handleBlur's test: the blurred text is passed on when it is a number in
      [min, max]; otherwise (None) the selector reverts to its `value` prop. */
  function BlurValue(t: RawText, min: int, max: int): (r: Option<int>)
    ensures r.Some? <==> TextNumber(t).Some? && min <= TextNumber(t).value <= max
    ensures r.Some? ==> r == TextNumber(t) && min <= r.value <= max
  {
    match TextNumber(t)
    case Some(n) => if n >= min && n <= max then Some(n) else None
    case None => None
  }

  /** handleInputChange: empty text clears the field, numeric text is
      stored as its number, anything else leaves the field as it was. */
  function Typed(prev: Field, t: RawText): (r: Field)
    ensures t.NonNumeric? ==> r == prev
    ensures t.EmptyText? ==> r == Blank
    ensures t.Numeric? ==> r == Num(t.n)
  {
    match t
    case EmptyText => Blank
    case Numeric(n) => Num(n)
    case NonNumeric => prev
  }

  /** After typing text that is not NaN, the field reads back as the same
      number a blur of that text would pass on. */
  lemma TypedThenBlurAgree(prev: Field, t: RawText, min: int, max: int)
    requires !t.NonNumeric?
    ensures FieldNumber(Typed(prev, t)) == TextNumber(t).value
    ensures BlurValue(t, min, max).Some? ==> BlurValue(t, min, max).value == FieldNumber(Typed(prev, t))
  {
  }

  /** The decrement button is disabled exactly when `value <= min`; with a
      step of 1 that is exactly when a decrement from `value` would be
      refused by the lower limit. */
  function DecrementDisabled(value: int, min: int): (r: bool)
    ensures r <==> value - 1 < min
  {
    value <= min
  }

  /** The increment button is disabled exactly when `value >= max`; with a
      step of 1 that is exactly when an increment from `value` would be
      refused by the upper limit. */
  function IncrementDisabled(value: int, max: int): (r: bool)
    ensures r <==> value + 1 > max
  {
    value >= max
  }

  /** The increment (`up`) or decrement button is disabled. */
  predicate ButtonDisabled(up: bool, value: int, min: int, max: int) {
    if up then IncrementDisabled(value, max) else DecrementDisabled(value, min)
  }

  /** With `value` in [min, max], a button is enabled exactly when a one-step
      move from `value` in its direction is accepted. */
  lemma ButtonsEnabledIffStepAccepted(value: int, min: int, max: int)
    requires min <= value <= max
    ensures !IncrementDisabled(value, max) <==> StepTo(value, 1, min, max).Some?
    ensures !DecrementDisabled(value, min) <==> StepTo(value, -1, min, max).Some?
  {
  }
}
