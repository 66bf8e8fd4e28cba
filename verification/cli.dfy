/**
 One invocation of `create-webapp-template <project-name> [-d <directory>]`:
 choose the target directory, materialize the project there, then run the
 two provisioning commands. The commands are external; only whether each
 one succeeded enters the model.
 */
module Cli {
  import opened Optional
  import opened Paths
  import opened PackageJson
  import opened FileSystems
  import opened Generator
  import opened Manifest
  import opened Materializer
  import opened ScaffoldProperties

  /** `options.directory || projectName`: an absent or empty `--directory`
      falls back to the project name. */
  function TargetDir(projectName: string, directory: Option<string>): (d: string)
    ensures d == projectName || (directory.Some? && d == directory.value)
    ensures d == "" ==> projectName == ""
  {
    match directory
    case Some(dir) => if dir != "" then dir else projectName
    case None => projectName
  }

  /** Whether an external command (`npm install`, `npx tailwindcss init -p`)
      exited normally. */
  datatype CommandResult = Succeeded | Failed

  /** How a spinner step ended: succeeded, failed, warned, or never started. */
  datatype StepStatus = Done | Fatal | Warned | NotRun

  datatype Outcome = Outcome(install: StepStatus, tailwind: StepStatus, exitCode: int)

  /** The provisioning steps: an install failure is rethrown, so the Tailwind
      step never runs and the top-level handler exits with 1; a Tailwind
      failure only warns. */
  function Provision(install: CommandResult, tailwind: CommandResult): (o: Outcome)
    ensures o.exitCode == 0 || o.exitCode == 1
    ensures o.exitCode == 0 <==> install == Succeeded
    ensures o.install == Fatal <==> install == Failed
    ensures install == Succeeded ==> o.install == Done
    ensures o.tailwind == NotRun <==> install == Failed
    ensures o.tailwind == Warned <==> install == Succeeded && tailwind == Failed
    ensures o.tailwind == Done <==> install == Succeeded && tailwind == Succeeded
  {
    if install.Failed? then Outcome(Fatal, NotRun, 1)
    else if tailwind.Failed? then Outcome(Done, Warned, 0)
    else Outcome(Done, Done, 0)
  }

  /** What one invocation leaves behind: the directory it chose, the project
      tree before provisioning, and how provisioning ended. */
  datatype Invocation = Invocation(targetDir: string, tree: FileSystem, outcome: Outcome)

  /** One invocation over a folder skeleton and a file manifest. `before` is
      what the target directory held, `bundle` the shipped templates, and
      `install`/`tailwind` the commands' results. The tree is complete before
      any command runs. */
  function Invoke(folders: seq<Path>, entries: seq<Path>, projectName: string, directory: Option<string>,
                  before: FileSystem, bundle: Bundle, install: CommandResult, tailwind: CommandResult): (r: Invocation)
    ensures r.targetDir == TargetDir(projectName, directory)
    ensures r.outcome == Provision(install, tailwind)
    ensures r.tree.dirs == before.dirs + RequiredDirs(folders, entries)
    ensures PackageJsonPath !in entries ==>
              PackageJsonPath in r.tree.files && r.tree.files[PackageJsonPath] == Json(ForProject(projectName))
  {
    Invocation(TargetDir(projectName, directory), Generate(before, folders, entries, bundle, projectName),
               Provision(install, tailwind))
  }

  /** `create-webapp-template <projectName> [-d <directory>]`: the invocation
      over the fixed folder skeleton and file manifest. */
  function CreateWebApp(projectName: string, directory: Option<string>, before: FileSystem, bundle: Bundle,
                        install: CommandResult, tailwind: CommandResult): Invocation
  {
    Invoke(Folders, Files, projectName, directory, before, bundle, install, tailwind)
  }

  /** The exit status depends on the install result alone: 0 exactly when
      `npm install` succeeded, whatever the Tailwind step did. */
  lemma ExitStatus(folders: seq<Path>, entries: seq<Path>, projectName: string, directory: Option<string>,
                   before: FileSystem, bundle: Bundle, install: CommandResult, t1: CommandResult, t2: CommandResult)
    ensures var a := Invoke(folders, entries, projectName, directory, before, bundle, install, t1);
      var b := Invoke(folders, entries, projectName, directory, before, bundle, install, t2);
      && (a.outcome.exitCode == 0 <==> install == Succeeded)
      && a.outcome.exitCode == b.outcome.exitCode
  {
  }

  /** The directory option decides only where the project goes: the tree
      written, the names embedded in it and the outcome are the same. */
  lemma DirectoryOnlyPlacement(folders: seq<Path>, entries: seq<Path>, projectName: string, d1: Option<string>,
                               d2: Option<string>, before: FileSystem, bundle: Bundle, install: CommandResult,
                               tailwind: CommandResult)
    ensures var a := Invoke(folders, entries, projectName, d1, before, bundle, install, tailwind);
      var b := Invoke(folders, entries, projectName, d2, before, bundle, install, tailwind);
      a.tree == b.tree && a.outcome == b.outcome
  {
  }

  /** The tree is written before any command runs, so a failed install still
      leaves the complete project behind and exits with 1. */
  lemma TreeSurvivesFailedInstall(folders: seq<Path>, entries: seq<Path>, projectName: string,
                                  directory: Option<string>, before: FileSystem, bundle: Bundle,
                                  tailwind: CommandResult)
    ensures var ok := Invoke(folders, entries, projectName, directory, before, bundle, Succeeded, tailwind);
      var failed := Invoke(folders, entries, projectName, directory, before, bundle, Failed, tailwind);
      failed.tree == ok.tree && failed.outcome.exitCode == 1 && failed.outcome.tailwind == NotRun
  {
  }

  /** An absent or empty `--directory` makes the target directory the project
      name; a non-empty one is used as given. */
  lemma TargetDirChoice(projectName: string, directory: Option<string>)
    ensures directory.None? || directory == Some("") ==> TargetDir(projectName, directory) == projectName
    ensures directory.Some? && directory.value != "" ==> TargetDir(projectName, directory) == directory.value
  {
  }

  /** A run of the real command: `package.json` names the project given on
      the command line, whatever directory it is placed in, and the exit
      status is 0 exactly when `npm install` succeeded. */
  lemma CreateWebAppNamesProject(projectName: string, directory: Option<string>, before: FileSystem, bundle: Bundle,
                                 install: CommandResult, tailwind: CommandResult)
    ensures var r := CreateWebApp(projectName, directory, before, bundle, install, tailwind);
      && PackageJsonPath in r.tree.files
      && r.tree.files[PackageJsonPath] == Json(ForProject(projectName))
      && r.targetDir == TargetDir(projectName, directory)
  {
    PackageJsonNotInManifest();
  }

  /** A run over any manifest writes every listed entry that has a bundled
      template or a generator. */
  lemma InvokeWrites(folders: seq<Path>, entries: seq<Path>, projectName: string, directory: Option<string>,
                     before: FileSystem, bundle: Bundle, install: CommandResult, tailwind: CommandResult,
                     wanted: set<Path>)
    requires forall w | w in wanted :: w in entries && (w in bundle || w in GeneratedNames)
    ensures forall w | w in wanted :: w in Invoke(folders, entries, projectName, directory, before, bundle, install,
                                                  tailwind).tree.files
  {
    forall w | w in wanted
      ensures w in Generate(before, folders, entries, bundle, projectName).files
    {
      EntryWritten(before, folders, entries, bundle, projectName, w);
    }
  }

  /** The files the end-to-end scenario looks for; all are manifest entries. */
  const DemoFiles: set<Path> := {".env", "README.md", "src/App.tsx", "src/stores/appStore.ts"}

  lemma DemoFilesListed()
    ensures forall w | w in DemoFiles :: w in Files
  {
  }

  /** `create-webapp-template demo` with no `--directory`, on an empty
      target, with bundled sources for the application entry point and the
      store, over a manifest that lists the scenario's files (as the fixed
      manifest does, by `DemoFilesListed`): the project lands in `demo`,
      holds `package.json`, `.env`, `README.md`, `src/App.tsx` and
      `src/stores/appStore.ts`, and exits with 0 exactly when `npm install`
      succeeded. The project name is a parameter fixed by the precondition
      rather than the literal, so that the verifier reasons about the
      generated texts symbolically instead of evaluating them for "demo". */
  lemma DemoRun(folders: seq<Path>, entries: seq<Path>, projectName: string, bundle: Bundle, install: CommandResult,
                tailwind: CommandResult)
    requires projectName == "demo"
    requires forall w | w in DemoFiles :: w in entries
    requires PackageJsonPath !in entries
    requires "src/App.tsx" in bundle && "src/stores/appStore.ts" in bundle
    ensures var r := Invoke(folders, entries, projectName, None, Fresh(), bundle, install, tailwind);
      && r.targetDir == "demo"
      && (r.outcome.exitCode == 0 <==> install == Succeeded)
      && PackageJsonPath in r.tree.files
      && forall w | w in DemoFiles :: w in r.tree.files
  {
    InvokeWrites(folders, entries, projectName, None, Fresh(), bundle, install, tailwind, DemoFiles);
  }
}
