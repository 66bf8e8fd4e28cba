/**
 Relative paths under the generated project's root directory.

 A path is a `/`-separated string relative to the target root; the empty
 path "" stands for the target root itself. Resolution against the current
 working directory is not part of this model.
 */
module Paths {

  type Path = string

  /** The directory part of `p`: everything before its last `/`, or the root
      when `p` has no `/` (a top-level file such as `vite.config.ts`). */
  function Parent(p: Path): (r: Path)
    ensures '/' !in p ==> r == ""
    ensures '/' in p ==> |r| < |p| && p[|r|] == '/' && r == p[..|r|] && '/' !in p[|r| + 1..]
  {
    if p == [] then []
    else if p[|p| - 1] == '/' then p[..|p| - 1]
    else
      var q := p[..|p| - 1];
      assert p == q + [p[|p| - 1]];
      Parent(q)
  }

  /** Every directory that `mkdir -p p` leaves in place: the root, each
      prefix of `p` that ends just before a `/`, and `p` itself. */
  function Ancestors(p: Path): (r: set<Path>)
    ensures "" in r && p in r
    ensures forall a | a in r :: a <= p
  {
    assert p == p[..|p|];
    {""} + set i | 0 <= i <= |p| && (i == |p| || p[i] == '/') :: p[..i]
  }

  /** `mkdir -p p` leaves exactly the root and the prefixes of `p` that end
      at a `/` or at the end of `p`: every intermediate directory, and no
      prefix that stops inside a segment. */
  lemma AncestorsExactly(p: Path, a: Path)
    ensures a in Ancestors(p) <==> a == "" || (a <= p && (|a| == |p| || p[|a|] == '/'))
  {
    if a != "" && a <= p && (|a| == |p| || p[|a|] == '/') {
      assert a == p[..|a|];
    }
  }

  lemma PathIsOwnAncestor(p: Path)
    ensures p in Ancestors(p) && "" in Ancestors(p)
  {
    assert p == p[..|p|];
  }

  /** The parent of a path is among the directories `mkdir -p` creates for it. */
  lemma ParentIsAncestor(p: Path)
    ensures Parent(p) in Ancestors(p)
  {
    var r := Parent(p);
    if '/' in p {
      assert p[|r|] == '/';
    }
  }

  /** The ancestors of an ancestor are ancestors: `mkdir -p` of a prefix
      creates nothing new. */
  lemma AncestorsTransitive(a: Path, p: Path)
    requires a in Ancestors(p)
    ensures Ancestors(a) <= Ancestors(p)
  {
    if a != "" {
      var i :| 0 <= i <= |p| && (i == |p| || p[i] == '/') && a == p[..i];
      forall b | b in Ancestors(a)
        ensures b in Ancestors(p)
      {
        if b != "" {
          var j :| 0 <= j <= |a| && (j == |a| || a[j] == '/') && b == a[..j];
          assert b == p[..j];
          assert j == |p| || p[j] == '/';
        }
      }
    }
  }

  /** A directory set is closed when each directory's ancestors are present:
      what a tree of real directories always satisfies. */
  ghost predicate AncestorClosed(dirs: set<Path>)
  {
    forall d | d in dirs :: Ancestors(d) <= dirs
  }
}
