/** Python's `os.path.join` on a POSIX system, for two components. */
module PosixPath {
  import opened Text

  predicate IsAbsolute(p: string)
  {
    p != [] && p[0] == '/'
  }

  /**
   * `os.path.join(a, b)`: an absolute `b` discards `a`; otherwise `b` is
   * appended to `a`, with one `/` between them unless `a` is empty or
   * already ends in `/`. Nothing is normalised, so `..` is kept as written.
   */
  function Join(a: string, b: string): (r: string)
    ensures IsAbsolute(b) ==> r == b
    ensures !IsAbsolute(b) ==> |r| == |a| + |b| + (if a == [] || a[|a| - 1] == '/' then 0 else 1)
    ensures !IsAbsolute(b) ==> IsPrefix(a, r) && r[|r| - |b|..] == b
    ensures !IsAbsolute(b) && a != [] && a[|a| - 1] != '/' ==> r[|a|] == '/'
  {
    if IsAbsolute(b) then b
    else if a == [] || a[|a| - 1] == '/' then a + b
    else a + "/" + b
  }
}
