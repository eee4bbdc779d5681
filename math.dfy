/**
  `add_two_numbers` of the business-logic layer, the function behind the `math`
  tool.  Python integers are unbounded, so the model uses `int`.
 */
module LogicMath {

  /** `add_two_numbers(a, b)`: the sum, with no overflow. */
  function AddTwoNumbers(a: int, b: int): (sum: int)
    ensures sum - a == b && sum - b == a
  {
    a + b
  }

  /** Adding zero on either side gives the other operand back. */
  lemma AddZeroIdentity(a: int)
    ensures AddTwoNumbers(a, 0) == a && AddTwoNumbers(0, a) == a
  {
  }

  /** The result does not depend on the order of the operands. */
  lemma AddSymmetric(a: int, b: int)
    ensures AddTwoNumbers(a, b) == AddTwoNumbers(b, a)
  {
  }
}
