/** Names shared by all modules: primary keys, optional values, integer minimum and maximum. */
module Basics {

  type Id = nat

  datatype Option<+T> = None | Some(value: T)

  function Min(a: int, b: int): int { if a < b then a else b }

  function Max(a: int, b: int): int { if a < b then b else a }
}
