/** Values shared by the platform layer, the FMCDAQ2 bring-up and the IIO adapter. */
module Common {

  /** A value that may be absent. */
  datatype Option<+T> = None | Some(value: T)

  /** A C pointer as the model sees it: null, or some address it does not interpret. */
  datatype Ptr = Null | Address(addr: nat)

  /** The return codes of the no-OS drivers (error.h and errno.h). */
  const SUCCESS: int := 0
  const FAILURE: int := -1
  const ENOMEM: int := 12
}
