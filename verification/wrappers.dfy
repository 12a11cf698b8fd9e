/** Failure values and a counting helper shared by the model. */
module Wrappers {

  datatype Option<+T> = None | Some(value: T)

  /** The error numbers the modelled functions return; `Ok` is the source's 0. */
  datatype Errno = Ok | ENOMEM | ENOSPC | ERANGE | ENOENT | EINVAL | EBUSY | ENXIO | EIO | EINTR

  /** A condition as a number, for counting. */
  function Bit(p: bool): nat { if p then 1 else 0 }
}
