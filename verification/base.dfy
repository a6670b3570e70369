/**
 * Shared vocabulary of the digital-key shop model: identifiers, money,
 * optional values and results.
 */
module Base {

  /** A present-or-absent value: a nullable column or a missing request field. */
  datatype Option<+T> = None | Some(value: T)

  /** The value an operation produces, or the error the source raises for it. */
  datatype Result<+T, +E> = Ok(value: T) | Err(error: E)

  /** Money is held as integer cents: a two-decimal-place amount d is the int 100 * d. */
  type Cents = int

  type UserId = nat

  /** Product ids arrive in requests as plain integers, so a negative (unknown) one is possible. */
  type ProductId = int

  /** Orders are keyed by UUIDs; the model only needs them to be comparable. */
  type OrderId = nat

  /** An abstract clock reading standing for `timezone.now()`. */
  type Timestamp = nat

  /**
   * Which reading of the shop a member follows: the code as it is written, or
   * the code with the defects listed under "Findings" in README.md repaired.
   */
  datatype Build = AsWritten | Corrected

  function Min(a: int, b: int): int { if a <= b then a else b }
}
