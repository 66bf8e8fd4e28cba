/**
 The materialization engine of src/index.js: the folder loop of
 `createWebAppTemplate`, and `copyTemplateFiles` with its bundled-first
 resolution through `createTemplateFile` and the generator table.
 */
module Materializer {
  import opened Optional
  import opened Paths
  import opened PackageJson
  import opened FileSystems
  import opened Generator
  import opened Manifest

  /** The bundled `templates/` tree, keyed by path relative to the template
      root: which assets ship with the generator and what they hold. */
  type Bundle = map<Path, string>

  /** Where a manifest entry's content comes from. */
  datatype Source = Bundled(text: string) | Synthetic(text: string) | NoSource

  /** Bundled assets win; otherwise the generator is asked, and its answer is
      used only when it is truthy (neither `null` nor the empty string). */
  function Resolve(bundle: Bundle, entry: Path, projectName: string): (s: Source)
    ensures s.Bundled? <==> entry in bundle
    ensures s.Bundled? ==> s.text == bundle[entry]
    ensures s.Synthetic? <==> entry !in bundle && entry in GeneratedNames
    ensures s.Synthetic? ==> TemplateContent(entry, projectName) == Some(s.text)
  {
    if entry in bundle then Bundled(bundle[entry])
    else match TemplateContent(entry, projectName)
      case Some(c) => if c != "" then Synthetic(c) else NoSource
      case None => NoSource
  }

  /** The text an entry ends up with, or `None` when nothing is written. */
  function Written(bundle: Bundle, projectName: string, entry: Path): Option<string>
  {
    match Resolve(bundle, entry, projectName)
    case Bundled(t) => Some(t)
    case Synthetic(t) => Some(t)
    case NoSource => None
  }

  /** The resolver the manifest loop consults for one project. */
  function Resolver(bundle: Bundle, projectName: string): Path -> Option<string>
  {
    e => Written(bundle, projectName, e)
  }

  /** One iteration of the manifest loop: ensure the entry's directory, then
      write the entry's text, or skip it when `content` has none. */
  function CopyEntry(fs: FileSystem, content: Path -> Option<string>, entry: Path): (r: FileSystem)
    ensures r.dirs == fs.dirs + Ancestors(Parent(entry)) && Parent(entry) in r.dirs
    ensures content(entry).Some? ==> r.files == fs.files[entry := Text(content(entry).value)]
    ensures content(entry).None? ==> r.files == fs.files
  {
    var fs1 := EnsureDir(fs, Parent(entry));
    match content(entry)
    case Some(t) => WriteFile(fs1, entry, Text(t))
    case None => fs1
  }

  /** The directories `mkdir -p` creates for each of `paths`. */
  ghost function AncestorsOfAll(paths: seq<Path>): set<Path>
  {
    set p, d | p in paths && d in Ancestors(p) :: d
  }

  /** The paths the manifest loop writes: entries that have content. */
  ghost function Produced(content: Path -> Option<string>, entries: seq<Path>): set<Path>
  {
    set e | e in entries && content(e).Some?
  }

  /** The order-independent result of writing every produced entry over
      `files`: produced entries hold their text, everything else is kept. */
  ghost function Overlay(files: map<Path, FileContent>, content: Path -> Option<string>, entries: seq<Path>)
    : map<Path, FileContent>
  {
    map p | p in files.Keys + Produced(content, entries) ::
      if p in Produced(content, entries) then Text(content(p).value) else files[p]
  }

  /** The manifest loop over `entries`, in order, with `content` deciding
      each entry's text. Processing in order yields the order-independent
      overlay, and the only directories added are those of the entries'
      parents. */
  function CopyAll(fs: FileSystem, content: Path -> Option<string>, entries: seq<Path>): (r: FileSystem)
    ensures r.dirs == fs.dirs + AncestorsOfAll(Parents(entries))
    ensures r.files == Overlay(fs.files, content, entries)
    decreases |entries|
  {
    if entries == [] then
      assert Overlay(fs.files, content, entries) == fs.files;
      fs
    else
      var fs1 := CopyEntry(fs, content, entries[0]);
      ParentsCons(entries);
      OverlayCons(fs.files, fs1.files, content, entries);
      CopyAll(fs1, content, entries[1..])
  }

  /** The parent directory of each path. */
  function Parents(paths: seq<Path>): (r: seq<Path>)
    ensures |r| == |paths| && forall i | 0 <= i < |paths| :: r[i] == Parent(paths[i])
  {
    seq(|paths|, i requires 0 <= i < |paths| => Parent(paths[i]))
  }

  lemma AncestorsOfAllCons(p: Path, rest: seq<Path>)
    ensures AncestorsOfAll([p] + rest) == Ancestors(p) + AncestorsOfAll(rest)
  {
    var ps := [p] + rest;
    forall d | d in AncestorsOfAll(ps)
      ensures d in Ancestors(p) + AncestorsOfAll(rest)
    {
      var q :| q in ps && d in Ancestors(q);
      if q != p {
        assert q in rest;
      }
    }
    assert ps[0] == p;
  }

  lemma ParentsCons(entries: seq<Path>)
    requires entries != []
    ensures AncestorsOfAll(Parents(entries))
         == Ancestors(Parent(entries[0])) + AncestorsOfAll(Parents(entries[1..]))
  {
    assert Parents(entries) == [Parent(entries[0])] + Parents(entries[1..]);
    AncestorsOfAllCons(Parent(entries[0]), Parents(entries[1..]));
  }

  lemma OverlayCons(files: map<Path, FileContent>, files1: map<Path, FileContent>, content: Path -> Option<string>,
                    entries: seq<Path>)
    requires entries != []
    requires content(entries[0]).Some? ==> files1 == files[entries[0] := Text(content(entries[0]).value)]
    requires content(entries[0]).None? ==> files1 == files
    ensures Overlay(files1, content, entries[1..]) == Overlay(files, content, entries)
  {
    var e, rest := entries[0], entries[1..];
    assert Produced(content, entries) == Produced(content, rest) + (if content(e).Some? then {e} else {}) by {
      forall x | x in Produced(content, entries)
        ensures x in Produced(content, rest) || x == e
      {
        var i :| 0 <= i < |entries| && entries[i] == x;
        if i > 0 {
          assert rest[i - 1] == x;
        }
      }
      forall x | x in Produced(content, rest)
        ensures x in Produced(content, entries)
      {
        var i :| 0 <= i < |rest| && rest[i] == x;
        assert entries[i + 1] == x;
      }
    }
  }

  /** The folder loop: `fs.ensureDir` on each folder in turn. */
  function EnsureAll(fs: FileSystem, folders: seq<Path>): (r: FileSystem)
    ensures r.dirs == fs.dirs + AncestorsOfAll(folders) && r.files == fs.files
    decreases |folders|
  {
    if folders == [] then fs
    else
      var r := EnsureAll(EnsureDir(fs, folders[0]), folders[1..]);
      assert folders == [folders[0]] + folders[1..];
      AncestorsOfAllCons(folders[0], folders[1..]);
      r
  }

  /** Every directory the run creates: the target root, the folder skeleton
      with its ancestors, and the ancestors of every manifest entry's parent. */
  ghost function RequiredDirs(folders: seq<Path>, entries: seq<Path>): set<Path>
  {
    {""} + AncestorsOfAll(folders) + AncestorsOfAll(Parents(entries))
  }

  /** The steps of one run before any external command: ensure the target
      root, build the folder skeleton, write `package.json`, then walk the
      manifest. */
  function Materialize(before: FileSystem, folders: seq<Path>, entries: seq<Path>, package: Package,
                       content: Path -> Option<string>): (r: FileSystem)
    ensures r.dirs == before.dirs + RequiredDirs(folders, entries)
    ensures r.files == Overlay(before.files[PackageJsonPath := Json(package)], content, entries)
  {
    var fs1 := EnsureDir(before, "");
    var fs2 := EnsureAll(fs1, folders);
    PackageJsonAtRoot();
    var fs3 := WriteFile(fs2, PackageJsonPath, Json(package));
    assert fs1.dirs == before.dirs + {""} by {
      PathIsOwnAncestor("");
    }
    CopyAll(fs3, content, entries)
  }

  /** One run of the generator for `projectName` over the given folder
      skeleton and manifest, with the given bundled templates: the descriptor
      is the project's `package.json`, and entries are resolved bundled-first.
      Unless a manifest entry shares its path, `package.json` survives the
      manifest loop. */
  function Generate(before: FileSystem, folders: seq<Path>, entries: seq<Path>, bundle: Bundle,
                    projectName: string): (r: FileSystem)
    ensures r.dirs == before.dirs + RequiredDirs(folders, entries)
    ensures PackageJsonPath !in entries ==>
              PackageJsonPath in r.files && r.files[PackageJsonPath] == Json(ForProject(projectName))
  {
    assert PackageJsonPath !in entries ==> PackageJsonPath !in Produced(Resolver(bundle, projectName), entries);
    Materialize(before, folders, entries, ForProject(projectName), Resolver(bundle, projectName))
  }
}
