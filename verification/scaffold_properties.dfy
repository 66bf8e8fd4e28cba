/**
 What one run of the generator leaves in the target directory. Most facts
 are stated for any folder skeleton and any manifest; the last ones are
 about the fixed lists.
 */
module ScaffoldProperties {
  import opened Optional
  import opened Paths
  import opened PackageJson
  import opened FileSystems
  import opened Generator
  import opened Manifest
  import opened Materializer

  /** Each listed path has all of its ancestors among `AncestorsOfAll`. */
  lemma AncestorsOfAllCovers(paths: seq<Path>, p: Path)
    requires p in paths
    ensures Ancestors(p) <= AncestorsOfAll(paths)
  {
  }

  /** The folder loop run twice leaves the same tree as running it once. */
  lemma EnsureAllIdempotent(fs: FileSystem, folders: seq<Path>)
    ensures EnsureAll(EnsureAll(fs, folders), folders) == EnsureAll(fs, folders)
  {
  }

  /** Every folder of the skeleton, with all its ancestors, and every
      manifest entry's directory, with all its ancestors, exists after a run. */
  lemma {:induction false} DirectoriesExist(before: FileSystem, folders: seq<Path>, entries: seq<Path>, bundle: Bundle,
                                            projectName: string)
    ensures var r := Generate(before, folders, entries, bundle, projectName);
      && "" in r.dirs
      && (forall f | f in folders :: Ancestors(f) <= r.dirs)
      && (forall e | e in entries :: Ancestors(Parent(e)) <= r.dirs)
  {
    forall f | f in folders
      ensures Ancestors(f) <= AncestorsOfAll(folders)
    {
      AncestorsOfAllCovers(folders, f);
    }
    forall e | e in entries
      ensures Ancestors(Parent(e)) <= AncestorsOfAll(Parents(entries))
    {
      var i :| 0 <= i < |entries| && entries[i] == e;
      AncestorsOfAllCovers(Parents(entries), Parents(entries)[i]);
    }
  }

  /** The only directories a run adds are the target root, the skeleton's
      folders with their ancestors and the ancestors of entries' parents. */
  lemma {:induction false} OnlyRequiredDirectories(before: FileSystem, folders: seq<Path>, entries: seq<Path>,
                                                   package: Package, content: Path -> Option<string>, d: Path)
    requires d in Materialize(before, folders, entries, package, content).dirs && d !in before.dirs
    ensures || d == ""
            || (exists f | f in folders :: d in Ancestors(f))
            || (exists e | e in entries :: d in Ancestors(Parent(e)))
  {
    if d != "" && d !in AncestorsOfAll(folders) {
      var q :| q in Parents(entries) && d in Ancestors(q);
      var i :| 0 <= i < |entries| && Parents(entries)[i] == q;
      assert entries[i] in entries && d in Ancestors(Parent(entries[i]));
    }
  }

  /** Adding a closed directory set to a closed one keeps it closed. */
  lemma ClosedUnion(a: set<Path>, b: set<Path>)
    requires AncestorClosed(a) && AncestorClosed(b)
    ensures AncestorClosed(a + b)
  {
  }

  /** A directory set made of whole `mkdir -p` results is closed under
      ancestors. */
  lemma AncestorsOfAllClosed(paths: seq<Path>)
    ensures AncestorClosed(AncestorsOfAll(paths))
  {
    forall d | d in AncestorsOfAll(paths)
      ensures Ancestors(d) <= AncestorsOfAll(paths)
    {
      var p :| p in paths && d in Ancestors(p);
      AncestorsTransitive(d, p);
    }
  }

  /** Everything a run adds to the directory set is closed under ancestors. */
  lemma RequiredDirsClosed(folders: seq<Path>, entries: seq<Path>)
    ensures AncestorClosed(RequiredDirs(folders, entries))
  {
    assert AncestorClosed({""}) by {
      assert Ancestors("") == {""} by {
        PathIsOwnAncestor("");
      }
    }
    AncestorsOfAllClosed(folders);
    AncestorsOfAllClosed(Parents(entries));
    ClosedUnion({""}, AncestorsOfAll(folders));
    ClosedUnion({""} + AncestorsOfAll(folders), AncestorsOfAll(Parents(entries)));
  }

  /** The directory of each manifest entry is among the directories a run
      adds. */
  lemma EntryParentRequired(folders: seq<Path>, entries: seq<Path>, p: Path)
    requires p in entries
    ensures Parent(p) in RequiredDirs(folders, entries)
  {
    var i :| 0 <= i < |entries| && entries[i] == p;
    PathIsOwnAncestor(Parent(p));
    AncestorsOfAllCovers(Parents(entries), Parents(entries)[i]);
  }

  /** Overlaying files whose directories all exist keeps every file in an
      existing directory. */
  lemma OverlayInDirs(dirs: set<Path>, files: map<Path, FileContent>, content: Path -> Option<string>,
                      entries: seq<Path>)
    requires forall p | p in files :: Parent(p) in dirs
    requires forall e | e in entries :: Parent(e) in dirs
    ensures forall p | p in Overlay(files, content, entries) :: Parent(p) in dirs
  {
  }

  /** Writing one more file into an existing directory keeps every file in
      an existing directory. */
  lemma UpdateInDirs(dirs: set<Path>, files: map<Path, FileContent>, k: Path, v: FileContent)
    requires forall p | p in files :: Parent(p) in dirs
    requires Parent(k) in dirs
    ensures forall p | p in files[k := v] :: Parent(p) in dirs
  {
  }

  /** A run started on a well-formed directory tree leaves a well-formed
      tree: no file is ever left in a directory that does not exist. */
  lemma MaterializeWellFormed(before: FileSystem, folders: seq<Path>, entries: seq<Path>, package: Package,
                              content: Path -> Option<string>)
    requires WellFormed(before)
    ensures WellFormed(Materialize(before, folders, entries, package, content))
  {
    var r := Materialize(before, folders, entries, package, content);
    var dirs := before.dirs + RequiredDirs(folders, entries);
    var files := before.files[PackageJsonPath := Json(package)];
    RequiredDirsClosed(folders, entries);
    ClosedUnion(before.dirs, RequiredDirs(folders, entries));
    PackageJsonAtRoot();
    UpdateInDirs(dirs, before.files, PackageJsonPath, Json(package));
    forall e | e in entries
      ensures Parent(e) in dirs
    {
      EntryParentRequired(folders, entries, e);
    }
    OverlayInDirs(dirs, files, content, entries);
    assert r == FileSystem(dirs, Overlay(files, content, entries));
  }

  /** Overlaying the same entries again, after re-writing one key with the
      value it was given first, changes nothing. */
  lemma OverlayAgain(files: map<Path, FileContent>, k: Path, v: FileContent, content: Path -> Option<string>,
                     entries: seq<Path>)
    ensures var once := Overlay(files[k := v], content, entries);
      Overlay(once[k := v], content, entries) == once
  {
    var once := Overlay(files[k := v], content, entries);
    var twice := Overlay(once[k := v], content, entries);
    assert twice.Keys == once.Keys;
    forall p | p in once
      ensures twice[p] == once[p]
    {
    }
  }

  /** Running the same materialization over its own output changes nothing:
      directories are only ever added and every write is the same again. */
  lemma MaterializeIdempotent(before: FileSystem, folders: seq<Path>, entries: seq<Path>, package: Package,
                              content: Path -> Option<string>)
    ensures var once := Materialize(before, folders, entries, package, content);
      Materialize(once, folders, entries, package, content) == once
  {
    var once := Materialize(before, folders, entries, package, content);
    var twice := Materialize(once, folders, entries, package, content);
    OverlayAgain(before.files, PackageJsonPath, Json(package), content, entries);
    assert twice.files == once.files;
    assert twice.dirs == once.dirs;
  }

  /** A bundled template is copied byte for byte, whatever the target held
      and whatever the generator would have produced. */
  lemma BundledWins(before: FileSystem, folders: seq<Path>, entries: seq<Path>, bundle: Bundle,
                    projectName: string, entry: Path)
    requires entry in entries && entry in bundle
    ensures var r := Generate(before, folders, entries, bundle, projectName);
      entry in r.files && r.files[entry] == Text(bundle[entry])
  {
    assert Resolver(bundle, projectName)(entry) == Some(bundle[entry]);
    assert entry in Produced(Resolver(bundle, projectName), entries);
  }

  /** Without a bundled template, an entry the generator knows gets the
      generator's text, overwriting whatever was there. */
  lemma GeneratedFallback(before: FileSystem, folders: seq<Path>, entries: seq<Path>, bundle: Bundle,
                          projectName: string, entry: Path)
    requires entry in entries && entry !in bundle && entry in GeneratedNames
    ensures var r := Generate(before, folders, entries, bundle, projectName);
      && entry in r.files
      && r.files[entry].Text?
      && TemplateContent(entry, projectName) == Some(r.files[entry].text)
  {
    var c := TemplateContent(entry, projectName).value;
    assert Resolver(bundle, projectName)(entry) == Some(c);
    assert entry in Produced(Resolver(bundle, projectName), entries);
  }

  /** A manifest entry that has a bundled template or a generator exists
      after a run. */
  lemma EntryWritten(before: FileSystem, folders: seq<Path>, entries: seq<Path>, bundle: Bundle,
                     projectName: string, entry: Path)
    requires entry in entries && (entry in bundle || entry in GeneratedNames)
    ensures entry in Generate(before, folders, entries, bundle, projectName).files
  {
    if entry in bundle {
      BundledWins(before, folders, entries, bundle, projectName, entry);
    } else {
      GeneratedFallback(before, folders, entries, bundle, projectName, entry);
    }
  }

  /** An entry with neither a bundled template nor a generator is skipped:
      its path keeps exactly what it held before (unless it is
      `package.json`), so it stays absent in a fresh target. */
  lemma NoSourceSkipped(before: FileSystem, folders: seq<Path>, entries: seq<Path>, bundle: Bundle,
                        projectName: string, entry: Path)
    requires entry !in bundle && entry !in GeneratedNames && entry != PackageJsonPath
    ensures var r := Generate(before, folders, entries, bundle, projectName);
      && (entry in r.files <==> entry in before.files)
      && (entry in before.files ==> r.files[entry] == before.files[entry])
  {
    assert Resolver(bundle, projectName)(entry) == None;
    assert entry !in Produced(Resolver(bundle, projectName), entries);
  }

  /** Apart from `package.json` and the manifest entries, no file is created
      or changed. */
  lemma WriteScope(before: FileSystem, folders: seq<Path>, entries: seq<Path>, bundle: Bundle, projectName: string)
    ensures var r := Generate(before, folders, entries, bundle, projectName);
      && (forall p | p in r.files :: p in before.files || p == PackageJsonPath || p in entries)
      && (forall p | p in before.files && p != PackageJsonPath && p !in entries ::
            p in r.files && r.files[p] == before.files[p])
  {
  }

  /** On an empty target, the files a run leaves are `package.json` and the
      entries that have content. */
  lemma FreshKeys(folders: seq<Path>, entries: seq<Path>, package: Package, content: Path -> Option<string>)
    ensures Materialize(Fresh(), folders, entries, package, content).files.Keys
         == {PackageJsonPath} + Produced(content, entries)
  {
  }

  /** Without bundled templates, the entries with content are exactly those
      the generator knows. */
  lemma ProducedWithoutBundle(entries: seq<Path>, projectName: string)
    requires forall g | g in GeneratedNames :: g in entries
    ensures Produced(Resolver(map[], projectName), entries) == GeneratedNames
  {
    var content := Resolver(map[], projectName);
    forall p
      ensures p in Produced(content, entries) <==> p in GeneratedNames
    {
      assert content(p).Some? <==> p in GeneratedNames;
    }
  }

  /** With no bundled templates and an empty target, the files a run writes
      are exactly `package.json` and the generator's eleven files, provided
      the manifest lists all of them. */
  lemma FreshWithoutBundleAny(folders: seq<Path>, entries: seq<Path>, projectName: string)
    requires forall g | g in GeneratedNames :: g in entries
    ensures Generate(Fresh(), folders, entries, map[], projectName).files.Keys == {PackageJsonPath} + GeneratedNames
  {
    FreshKeys(folders, entries, ForProject(projectName), Resolver(map[], projectName));
    ProducedWithoutBundle(entries, projectName);
  }

  /** After a run of the fixed lists, the target root and each of the
      thirteen skeleton folders, with its ancestors, exist. */
  lemma SkeletonExists(before: FileSystem, bundle: Bundle, projectName: string)
    ensures var r := Generate(before, Folders, Files, bundle, projectName);
      && "" in r.dirs
      && forall f | f in Folders :: Ancestors(f) <= r.dirs
  {
    DirectoriesExist(before, Folders, Files, bundle, projectName);
  }

  /** After a run of the fixed lists, `package.json` is the descriptor for
      the project name: no manifest entry overwrites it. */
  lemma ManifestPackageJson(before: FileSystem, bundle: Bundle, projectName: string)
    ensures var r := Generate(before, Folders, Files, bundle, projectName);
      && PackageJsonPath in r.files
      && r.files[PackageJsonPath] == Json(ForProject(projectName))
  {
    PackageJsonNotInManifest();
  }

  /** With no bundled templates and an empty target, a run of the fixed lists
      writes exactly `package.json` and the eleven generated files; entries
      such as `src/main.tsx` appear only when a bundled template supplies
      them. */
  lemma FreshWithoutBundle(projectName: string)
    ensures Generate(Fresh(), Folders, Files, map[], projectName).files.Keys == {PackageJsonPath} + GeneratedNames
  {
    GeneratedNamesInManifest();
    FreshWithoutBundleAny(Folders, Files, projectName);
  }

  /** Each name the generator knows is a manifest entry. */
  lemma GeneratedNamesInManifest()
    ensures forall g | g in GeneratedNames :: g in Files
  {
  }
}
