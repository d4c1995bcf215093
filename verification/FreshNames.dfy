/** A name and an inode that are not in use always exist. */
module FreshNames {
  import opened Filesystem

  ghost function AFreeInode(used: set<Inode>): (i: Inode)
    ensures i !in used
  {
    AFreeInodeUpTo(used, |used|)
  }

  ghost function AFreeInodeUpTo(used: set<Inode>, n: nat): (i: Inode)
    requires |used| <= n
    ensures i !in used && i <= n
    decreases n
  {
    if n !in used then n else AFreeInodeUpTo(used - {n}, n - 1)
  }

  ghost function AFreeName(used: set<Path>, dir: Path, prefix: string): (name: Name)
    ensures dir + [prefix + name] !in used
  {
    AFreeNameUpTo(used, dir, prefix, |used|)
  }

  /** Among the suffixes of at most n zeros one is free, when no more than n paths are in use. */
  ghost function AFreeNameUpTo(used: set<Path>, dir: Path, prefix: string, n: nat): (name: Name)
    requires |used| <= n
    ensures dir + [prefix + name] !in used && |name| <= n
    decreases n
  {
    var name := seq(n, _ => '0');
    var p := dir + [prefix + name];
    if p !in used then name
    else
      var other := AFreeNameUpTo(used - {p}, dir, prefix, n - 1);
      assert (dir + [prefix + other])[|dir|] != p[|dir|];
      other
  }
}
