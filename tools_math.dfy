/**
  `add_two_numbers` of the tools layer: a second copy of the same addition,
  with the values its unit tests check.
 */
module ToolsMath {
  import LogicMath

  /** `add_two_numbers(a, b)`: the sum, with no overflow. */
  function AddTwoNumbers(a: int, b: int): (sum: int)
    ensures sum - a == b && sum - b == a
  {
    a + b
  }

  /** The two copies compute the same function. */
  lemma SameAsLogicLayer(a: int, b: int)
    ensures AddTwoNumbers(a, b) == LogicMath.AddTwoNumbers(a, b)
  {
  }

  /** Negative operands, mixed signs, zero on either side, and operands beyond 16 bits. */
  lemma TestedValues()
    ensures AddTwoNumbers(2, 3) == 5
    ensures AddTwoNumbers(-2, -3) == -5
    ensures AddTwoNumbers(-2, 3) == 1 && AddTwoNumbers(2, -3) == -1
    ensures AddTwoNumbers(0, 0) == 0 && AddTwoNumbers(0, 5) == 5 && AddTwoNumbers(5, 0) == 5
    ensures AddTwoNumbers(1000000, 1000000) == 2000000
  {
  }
}
