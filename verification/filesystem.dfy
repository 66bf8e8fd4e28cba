/**
 An abstract view of the target directory tree: the set of directories that
 exist and the contents of the files that exist, both keyed by path relative
 to the target root.
 */
module FileSystems {
  import opened Paths
  import opened PackageJson

  /** `package.json` is written as a JSON record; every other file is text. */
  datatype FileContent = Text(text: string) | Json(json: Package)

  datatype FileSystem = FileSystem(dirs: set<Path>, files: map<Path, FileContent>)

  /** A target directory that does not exist yet. */
  function Fresh(): (fs: FileSystem)
    ensures fs.dirs == {} && fs.files == map[]
  {
    FileSystem({}, map[])
  }

  /** `fs.ensureDir(p)`: create `p` and every missing ancestor; nothing
      happens to what already exists. */
  function EnsureDir(fs: FileSystem, p: Path): (r: FileSystem)
    ensures Ancestors(p) <= r.dirs && p in r.dirs && "" in r.dirs && Parent(p) in r.dirs
    ensures fs.dirs <= r.dirs && r.files == fs.files
    ensures forall d | d in r.dirs && d !in fs.dirs :: d in Ancestors(p)
    ensures AncestorClosed(fs.dirs) ==> AncestorClosed(r.dirs)
  {
    PathIsOwnAncestor(p);
    ParentIsAncestor(p);
    var r := FileSystem(fs.dirs + Ancestors(p), fs.files);
    assert AncestorClosed(fs.dirs) ==> AncestorClosed(r.dirs) by {
      if AncestorClosed(fs.dirs) {
        forall d | d in r.dirs
          ensures Ancestors(d) <= r.dirs
        {
          if d in Ancestors(p) {
            AncestorsTransitive(d, p);
          }
        }
      }
    }
    r
  }

  /** `fs.writeFile` / `fs.copy` onto a path: the file gets `c` whatever it
      held before. Writing needs the containing directory to exist. */
  function WriteFile(fs: FileSystem, p: Path, c: FileContent): (r: FileSystem)
    requires Parent(p) in fs.dirs
    ensures p in r.files && r.files[p] == c
    ensures r.dirs == fs.dirs
    ensures forall q | q != p :: (q in r.files <==> q in fs.files)
    ensures forall q | q != p && q in fs.files :: r.files[q] == fs.files[q]
  {
    FileSystem(fs.dirs, fs.files[p := c])
  }

  /** Every file's directory exists and the directory set is closed under
      ancestors. */
  ghost predicate WellFormed(fs: FileSystem)
  {
    && AncestorClosed(fs.dirs)
    && forall p | p in fs.files :: Parent(p) in fs.dirs
  }

  /** Ensuring a directory twice is the same as ensuring it once. */
  lemma EnsureDirIdempotent(fs: FileSystem, p: Path)
    ensures EnsureDir(EnsureDir(fs, p), p) == EnsureDir(fs, p)
  {
  }

  /** Ensuring a directory and then writing into it keeps a tree well-formed. */
  lemma EnsureThenWriteWellFormed(fs: FileSystem, p: Path, c: FileContent)
    requires WellFormed(fs)
    ensures WellFormed(EnsureDir(fs, Parent(p)))
    ensures WellFormed(WriteFile(EnsureDir(fs, Parent(p)), p, c))
  {
    var fs1 := EnsureDir(fs, Parent(p));
    var fs2 := WriteFile(fs1, p, c);
    forall q | q in fs2.files
      ensures Parent(q) in fs2.dirs
    {
      if q != p {
        assert q in fs.files;
      }
    }
  }
}
