/** Values shared by every part of the model: the optional value used for
    nullable pointers and optional arguments, and the Linux errno codes the
    scheduler backends return (negated) to their callers. */
module Common {

  datatype Option<+T> = None | Some(value: T)

  /** Linux errno numbers (asm-generic/errno-base.h, asm-generic/errno.h). */
  const ENOENT: int := 2
  const ENOMEM: int := 12
  const EINVAL: int := 22
  const EMFILE: int := 24
  const ENOSYS: int := 38

  /** The first `n` characters of `s`: what a bounded string copy into a
      buffer keeps. */
  function Truncate(s: string, n: nat): (r: string)
    ensures |r| <= n && |r| <= |s|
    ensures r == s[..|r|]
    ensures |s| <= n ==> r == s
    ensures |s| > n ==> |r| == n
  {
    if |s| <= n then s else s[..n]
  }
}
