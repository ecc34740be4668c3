/** Task handles, the priority range and bytes, which every component shares. */
module Tasks {

  type Task = nat

  const PRIORITIES: nat := 32

  type Byte = b: nat | b < 256

  datatype Option<T> = None | Some(value: T)
}
