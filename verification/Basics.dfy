/** What every module shares. */
module Basics {

  datatype Option<+T> = None | Some(value: T)

  /** An identifier minted by the platform. */
  type Uuid = nat
}
