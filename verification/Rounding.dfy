/** Python's `round` to a whole number: the nearest one, halves to the even neighbour. */
module Rounding {

  function Round(x: real): (n: int)
    ensures -0.5 <= n as real - x <= 0.5
  {
    var below := x.Floor;
    var part := x - below as real;
    if part < 0.5 || (part == 0.5 && below % 2 == 0) then below else below + 1
  }

  /** Rounding keeps the order, and keeps whole numbers. */
  lemma RoundKeepsOrder(x: real, y: real)
    requires x <= y
    ensures Round(x) <= Round(y)
  {
    assert x.Floor <= y.Floor;
  }

  lemma RoundWhole(n: int)
    ensures Round(n as real) == n
  {
  }

  /** Halfway between two whole numbers the even one is taken. */
  lemma RoundTies(n: int)
    ensures var r := Round(n as real + 0.5); r % 2 == 0 && (r == n || r == n + 1)
  {
  }
}
