/** What every other module builds on. */
module Basics {

  datatype Option<T> = None | Some(value: T)

  function Min(a: nat, b: nat): nat { if a < b then a else b }

  /** A truth value as a number. */
  function B(b: bool): nat { if b then 1 else 0 }
}
