/**
 * Path matching against the read and write allow lists and block lists.
 * Paths arrive already resolved against the working directory and are
 * modelled as their sequences of components, so `Path::starts_with` is a
 * sequence-prefix test.
 */
module PathLists {

  /** A resolved path: its components, the root included. */
  type Path = seq<string>

  /** `path.starts_with(base)`: `base` is a component-wise prefix of `path` (or equal to it). */
  predicate StartsWith(path: Path, base: Path) {
    base <= path
  }

  /** Some entry of the allow list is `path` or one of its ancestors. */
  predicate AllowlistMatches(path: Path, allowlist: set<Path>) {
    exists entry :: entry in allowlist && StartsWith(path, entry)
  }

  /** `path` is some entry of the block list or one of its ancestors. */
  predicate BlocklistMatches(path: Path, blocklist: set<Path>) {
    exists entry :: entry in blocklist && StartsWith(entry, path)
  }

  /** Two ancestors of the same path are themselves ordered by ancestry. */
  lemma AncestorsComparable(a: Path, b: Path, path: Path)
    requires StartsWith(path, a) && StartsWith(path, b)
    ensures StartsWith(b, a) || StartsWith(a, b)
  {
    if |a| <= |b| {
      assert a == path[..|a|] == b[..|a|];
    } else {
      assert b == path[..|b|] == a[..|b|];
    }
  }

  /** `check_path_allowlist`: scans the allow list for an entry that `path` starts with. */
  method CheckPathAllowlist(path: Path, allowlist: set<Path>) returns (found: bool)
    ensures found == AllowlistMatches(path, allowlist)
  {
    var rest := allowlist;
    while rest != {}
      invariant rest <= allowlist
      invariant forall entry :: entry in allowlist - rest ==> !StartsWith(path, entry)
      decreases |rest|
    {
      var entry :| entry in rest;
      if StartsWith(path, entry) {
        return true;
      }
      rest := rest - {entry};
    }
    return false;
  }

  /** `check_path_blocklist`: scans the block list for an entry that starts with `path`. */
  method CheckPathBlocklist(path: Path, blocklist: set<Path>) returns (found: bool)
    ensures found == BlocklistMatches(path, blocklist)
  {
    var rest := blocklist;
    while rest != {}
      invariant rest <= blocklist
      invariant forall entry :: entry in blocklist - rest ==> !StartsWith(entry, path)
      decreases |rest|
    {
      var entry :| entry in rest;
      if StartsWith(entry, path) {
        return true;
      }
      rest := rest - {entry};
    }
    return false;
  }

  /**
   * The allow list of the `check_paths` unit test: inside `/a/specific` and
   * `/b/c` is allowed, `/b/e` and `/a/b` are not.
   */
  lemma CheckPathsExample()
    ensures var allowlist := {["/", "a", "specific", "dir", "name"], ["/", "a", "specific"], ["/", "b", "c"]};
      && AllowlistMatches(["/", "a", "specific", "dir", "name"], allowlist)
      && AllowlistMatches(["/", "a", "specific", "dir"], allowlist)
      && AllowlistMatches(["/", "a", "specific", "dir", "name", "inner"], allowlist)
      && AllowlistMatches(["/", "a", "specific", "other", "dir"], allowlist)
      && AllowlistMatches(["/", "b", "c"], allowlist)
      && AllowlistMatches(["/", "b", "c", "sub", "path"], allowlist)
      && !AllowlistMatches(["/", "b", "e"], allowlist)
      && !AllowlistMatches(["/", "a", "b"], allowlist)
  {
    var specific: Path := ["/", "a", "specific"];
    var bc: Path := ["/", "b", "c"];
    assert StartsWith(["/", "a", "specific", "dir"], specific);
    assert StartsWith(["/", "a", "specific", "dir", "name"], specific);
    assert StartsWith(["/", "a", "specific", "dir", "name", "inner"], specific);
    assert StartsWith(["/", "a", "specific", "other", "dir"], specific);
    assert StartsWith(["/", "b", "c"], bc);
    assert StartsWith(["/", "b", "c", "sub", "path"], bc);
    var allowlist := {["/", "a", "specific", "dir", "name"], specific, bc};
    forall entry | entry in allowlist
      ensures !StartsWith(["/", "b", "e"], entry) && !StartsWith(["/", "a", "b"], entry)
    {
      assert entry[2] != "e" && (|entry| < 3 || entry[2] != "b");
    }
  }
}
