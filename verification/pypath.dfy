/** POSIX `os.path.join` of two components. */
module PyPath {

  /**
   * `os.path.join(a, b)`: an absolute `b` replaces `a`; otherwise `b` is appended,
   * with a `/` in between unless `a` is empty or already ends in `/`.
   */
  function Join(a: string, b: string): string {
    if |b| > 0 && b[0] == '/' then b
    else if a == [] || a[|a| - 1] == '/' then a + b
    else a + "/" + b
  }

  /** The joined path ends in `b`, starts with `a` when `b` is relative, and is `b` when `b` is absolute. */
  lemma JoinKeepsParts(a: string, b: string)
    ensures var r := Join(a, b); |b| <= |r| && r[|r| - |b|..] == b
    ensures var r := Join(a, b); (b == [] || b[0] != '/') ==> |a| <= |r| && r[..|a|] == a
    ensures |b| > 0 && b[0] == '/' ==> Join(a, b) == b
  {
    var r := Join(a, b);
    if !(|b| > 0 && b[0] == '/') && !(a == [] || a[|a| - 1] == '/') {
      assert r == a + ("/" + b);
    }
  }

  /** Joining a relative part onto a base without a trailing `/` inserts exactly one `/`. */
  lemma JoinRelative(a: string, b: string)
    requires a != [] && a[|a| - 1] != '/'
    requires b == [] || b[0] != '/'
    ensures Join(a, b) == a + "/" + b
  {
  }
}
