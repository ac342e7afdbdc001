/**
 * Integers as the request carries them: IEEE 754 doubles, printed by Number::toString of ECMA-262 (section 6.1.6.1.20)
 * as a decimal that reads back as the same double.
 */
module Numbers {
  const TWO_TO_THE_53: nat := 0x20_0000_0000_0000

  /** The distance between neighbouring doubles at a positive integer, or 1 where all integers are doubles. */
  function Spacing(number: nat): nat
  {
    if number < TWO_TO_THE_53 then 1 else 2 * Spacing(number / 2)
  }

  /** The decimal integer `text` is within half the spacing of `number`, as every text that reads back as it is. */
  predicate ReadsBack(text: int, number: nat)
  {
    2 * (if text < number then number - text else text - number) <= Spacing(number)
  }

  /** Safe integers have only one integer that reads back as them, so they print exactly. */
  lemma SafeIntegersPrintExactly(number: nat, text: int)
    requires number < TWO_TO_THE_53
    ensures ReadsBack(text, number) <==> text == number
  {
  }
}
