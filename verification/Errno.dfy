/** The error codes that the modelled calls return. */
module Errno {
  const EPERM := -1
  const EAGAIN := -11
  const EBUSY := -16
  const ENODEV := -19
  const EINVAL := -22
  const EDEADLK := -33
  const ENOMSG := -80
}
