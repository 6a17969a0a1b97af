/** Identifiers, result types and machine integers shared by every module. */
module Base {

  // Ids are UUIDs in the source; only equality (and, for messages, order) is ever used.
  type UserId = nat
  type MarketId = nat
  type OutcomeId = nat
  type BetId = nat
  type MessageId = nat
  type EventId = nat
  type Time = int

  datatype Option<+T> = None | Some(value: T) {
    function GetOr(default: T): T {
      match this
      case Some(v) => v
      case None => default
    }
  }

  datatype Result<+T, +E> = Ok(value: T) | Err(error: E)

  const I64_MAX: int := 0x7FFF_FFFF_FFFF_FFFF

  // Arithmetic on these types is checked for overflow by the verifier.
  newtype i64 = x: int | -0x8000_0000_0000_0000 <= x <= 0x7FFF_FFFF_FFFF_FFFF
  newtype i32 = x: int | -0x8000_0000 <= x <= 0x7FFF_FFFF

  function Min(a: int, b: int): int {
    if a <= b then a else b
  }

  function Max(a: int, b: int): int {
    if a >= b then a else b
  }
}
