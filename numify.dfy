/** The numeric helpers of src/helpers/numify.ts, over mathematical integers
    (the source works on JavaScript numbers). */
module Numify {

  /** Exchanges two numbers by the add/subtract trick of the source. */
  function Swap(num1: int, num2: int): (r: (int, int))
    ensures r == (num2, num1)
  {
    var a := num1 + num2;
    var b := a - num2;
    var c := a - b;
    (c, b)
  }

  /** Strict equality. */
  function Is(value: int, compare: int): (r: bool)
    ensures r <==> value == compare
  {
    value == compare
  }

  /** Strictly between the two bounds, which are first put in order. */
  function InRange(value: int, min: int, max: int): (r: bool)
    ensures r <==> (min < value < max || max < value < min)
  {
    var (lo, hi) := if min > max then Swap(min, max) else (min, max);
    value > lo && value < hi
  }

  /** The left bound (as given) is included. */
  function InRangeLeft(value: int, min: int, max: int): (r: bool)
    ensures r <==> (value == min || InRange(value, min, max))
    ensures min < max ==> (r <==> min <= value < max)
  {
    Is(value, min) || InRange(value, min, max)
  }

  /** The right bound (as given) is included. */
  function InRangeRight(value: int, min: int, max: int): (r: bool)
    ensures r <==> (value == max || InRange(value, min, max))
    ensures min < max ==> (r <==> min < value <= max)
  {
    Is(value, max) || InRange(value, min, max)
  }

  /** Both bounds are included, whatever their order. */
  function InRanges(value: int, min: int, max: int): (r: bool)
    ensures r <==> (min <= value <= max || max <= value <= min)
  {
    Is(value, min) || Is(value, max) || InRange(value, min, max)
  }

  /** Giving the bounds in the other order does not change the answer. */
  lemma InRangeSymmetric(value: int, a: int, b: int)
    ensures InRange(value, a, b) == InRange(value, b, a)
    ensures InRanges(value, a, b) == InRanges(value, b, a)
  {
  }
}
