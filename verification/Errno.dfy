/** Error numbers, as the kernel returns them. */
module Errno {

  const EINTR := -4
  const EIO := -5
  const E2BIG := -7
  const EAGAIN := -11
  const EINVAL := -22
  const ENOSYS := -38
  const ECONNABORTED := -103
}
