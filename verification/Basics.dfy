/** Names shared by the modules of the project. */
module Basics {
  datatype Option<+T> = None | Some(value: T)

  type Byte = b: nat | b < 256 witness 0

  /** An account address. Its tail is what the owner index keeps of it. */
  datatype Pubkey = Pubkey(head: nat, tail: nat)

  type Signature = nat
  type Hash = nat
  type Slot = nat

  const MB: nat := 1024 * 1024
}
