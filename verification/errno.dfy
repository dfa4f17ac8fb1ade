/** The magnitudes of the kernel error codes the modelled routines return, negated, on failure. */
module Errno {
  /** A copy from user memory faulted. */
  const EFAULT := 14
  /** An argument was rejected. */
  const EINVAL := 22
}
