/** Attempt budgets: a count, or no limit. */
module Amounts {

  const TWO_64: nat := 0x1_0000_0000_0000_0000

  /** An unsigned 64-bit integer. */
  type U64 = n: int | 0 <= n < TWO_64

  datatype Amount = Val(v: U64) | Infinite {

    /** `self <= other` for an integer `other`: an infinite amount exceeds every integer. */
    predicate AtMost(other: nat) {
      match this
      case Val(v) => v <= other
      case Infinite => false
    }

    predicate IsZero() {
      this == Val(0)
    }

    /** One less, saturating at zero; infinity stays. */
    function Decrement(): (r: Amount) {
      match this
      case Val(v) => if v > 0 then Val(v - 1) else this
      case Infinite => this
    }
  }
}
