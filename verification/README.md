# webapp-cli scaffold generator and app store, modelled in Dafny

`create-webapp-template <project-name> [-d <directory>]` scaffolds a React
TypeScript project. It chooses a target directory (`--directory` when given
and non-empty, the project name otherwise). It then ensures the target root
and a fixed skeleton of thirteen folders. Next it writes `package.json` as a
record whose only variable field is the project name. Finally it walks a
fixed 30-entry file manifest. For each entry it ensures the entry's directory
and takes the content from the first source that has one:

1. the bundled `templates/` asset, copied verbatim;
2. the synthetic table `getTemplateContent(fileName, projectName)`, which
   knows eleven names;
3. nothing: when the table yields `null` or an empty string, nothing is
   written.

It then runs `npm install`, whose failure is rethrown and ends the process
with exit code 1. After that it runs `npx tailwindcss init -p`, whose
failure only warns.

The project also models the zustand store the scaffold ships. It is a record
`{user, isLoading, theme}` with four transitions, and `partialize`, the
projection the persistence layer saves.

Modules, following the program's structure:

- `Optional`: the `Option` type (`None` is JavaScript's `null`).
- `Paths`: relative paths under the target root. `""` is the root.
  On normalized paths (no `.` or `..` segments, no empty segments, no
  trailing `/`), `Parent` is `path.dirname`. `Ancestors` is what `mkdir -p`
  creates.
- `FileSystems`: the target tree as a set of directories and a map from
  file path to content. It holds `ensureDir`, the write primitive and
  tree well-formedness.
- `PackageJson`: the `package.json` record with its exact scripts and
  dependency maps.
- `Generator`: the `getTemplateContent` table, plus the lemmas that locate
  and recover the project name in its outputs.
- `Manifest`: the fixed folder skeleton and file manifest.
- `Materializer`: the folder loop, the bundled-first resolver, the manifest
  loop and one whole run. Each is stated for any folder list and manifest,
  with closed-form contracts.
- `ScaffoldProperties`: what a run leaves behind. This covers directories,
  precedence, skipping, write scope, idempotence and well-formedness.
- `Cli`: target-directory choice, the provisioning outcome rule and the
  whole invocation.
- `AppStore`: the store's state, transitions and persisted slice.

The bundled template tree is a parameter `bundle: map<Path, string>`: an
entry is bundled exactly when it is a key. The external commands are
parameters of type `CommandResult`. The tree before the run is a parameter
`before`, which is `Fresh()` for a new directory.

## Model

| member | source | states |
|---|---|---|
| Paths.Parent | src/index.js:173 | the directory of a path is its prefix before the last `/`, or the root when it has no `/` |
| Paths.Ancestors | src/index.js:24-47 | the directories `fs.ensureDir` leaves in place for a path contain the root and the path itself, and are prefixes of the path |
| Paths.AncestorsExactly | src/index.js:47 | `fs.ensureDir` leaves exactly the root and the prefixes of the path ending at a `/` or at the end of the path: every intermediate directory, and no prefix that stops inside a segment |
| Paths.AncestorsTransitive | src/index.js:47 | `mkdir -p` of a directory it already created creates nothing new |
| FileSystems.EnsureDir | src/index.js:47 | `ensureDir` creates the path and every ancestor, keeps existing directories and files, adds only ancestors of the path, and keeps a closed tree closed |
| FileSystems.WriteFile | src/index.js:187 | a write needs the parent directory; it sets that one file (overwriting) and changes no other path |
| FileSystems.EnsureDirIdempotent | src/index.js:47 | ensuring a directory twice equals ensuring it once |
| FileSystems.EnsureThenWriteWellFormed | src/index.js:172-179 | ensuring the parent and then writing keeps a well-formed tree well-formed |
| PackageJson.ForProject | src/index.js:88-130 | the descriptor's name is the project name; it has the six scripts and includes react and vite |
| PackageJson.ForProjectDiffersOnlyInName | src/index.js:88-130 | two projects' descriptors differ only in `name`, so they are equal exactly when the names are |
| Generator.TemplateContent | src/index.js:191-483 | the table answers for exactly the eleven known names, never with an empty text, and `null` otherwise |
| Generator.NameIndependent | src/index.js:191-483 | every answer except `index.html`, `.env` and `README.md` is the same for all project names |
| Generator.TitleEmbedded | src/index.js:193-206 | the generated page contains `<title>projectName</title>` |
| Generator.TitleRoundTrip | src/index.js:193-206 | stripping the page's fixed text around the title gives the project name back |
| Generator.EnvExact | src/index.js:393-396 | `.env` is exactly the app-name line and the default API-URL line |
| Generator.EnvRoundTrip | src/index.js:393-396 | stripping `.env`'s fixed prefix and suffix gives the project name back |
| Generator.ReadmeEmbedsName | src/index.js:398-478 | the README starts with `# projectName` and contains the generated `.env` text |
| Generator.NameDependentInjective | src/index.js:193-478 | different project names give different `index.html`, `.env` and README texts |
| Manifest.ManifestShape | src/index.js:135-166 | thirteen distinct folders and thirty distinct manifest entries, with `package.json` not among them |
| Manifest.FoldersDistinct | src/index.js:30-44 | the thirteen skeleton folders are pairwise distinct |
| Manifest.FilesDistinct | src/index.js:135-166 | the thirty manifest entries are pairwise distinct |
| Manifest.PackageJsonAtRoot | src/index.js:132 | `package.json` is written directly into the target root |
| Materializer.Resolve | src/index.js:175-179 | a bundled asset wins and is used verbatim; otherwise exactly the eleven known names get the table's text; all else gets nothing |
| Materializer.CopyEntry | src/index.js:168-180 | one manifest iteration creates the entry's directory with its ancestors, then writes the entry exactly when it has content |
| Materializer.CopyAll | src/index.js:168-180 | the in-order manifest loop adds the ancestors of every entry's directory and leaves the files as the order-independent overlay of the produced entries |
| Materializer.EnsureAll | src/index.js:46-48 | the folder loop adds every folder with its ancestors and touches no file |
| Materializer.Generate | src/index.js:84-181 | one `copyTemplateFiles` run for a project: the directories are the old ones plus the root, the skeleton and every entry's directory; `package.json` holds the project's descriptor unless a manifest entry shares its path |
| Materializer.Materialize | src/index.js:17-55 | a run's directories are the old ones plus the root, the skeleton and the entries' directories; its files are the old ones with `package.json` and the produced entries overlaid |
| ScaffoldProperties.DirectoriesExist | src/index.js:46-48 | after a run the root, every folder and every entry's directory exist, with all their ancestors |
| ScaffoldProperties.SkeletonExists | src/index.js:30-48 | after a run of the fixed lists the root and each of the thirteen folders, with their ancestors, exist |
| ScaffoldProperties.EnsureAllIdempotent | src/index.js:46-48 | running the folder loop twice leaves the same tree as running it once |
| ScaffoldProperties.OnlyRequiredDirectories | src/index.js:25-48 | every directory a run adds is the root, an ancestor of a skeleton folder, or an ancestor of an entry's directory |
| ScaffoldProperties.MaterializeWellFormed | src/index.js:168-180 | a run leaves a well-formed tree: each entry's directory is ensured before it is written |
| ScaffoldProperties.MaterializeIdempotent | src/index.js:132-180 | a second run of the same materialization over the first run's output changes nothing |
| ScaffoldProperties.BundledWins | src/index.js:175-176 | a bundled entry ends up byte-for-byte equal to its asset, whatever the target or the table held |
| ScaffoldProperties.GeneratedFallback | src/index.js:177-189 | an unbundled known entry ends up holding the table's text, overwriting what was there |
| ScaffoldProperties.EntryWritten | src/index.js:168-189 | an entry with a bundled asset or a table entry exists after a run |
| ScaffoldProperties.NoSourceSkipped | src/index.js:184-189 | an entry with no source keeps exactly its prior state, so it stays absent from a fresh target |
| ScaffoldProperties.WriteScope | src/index.js:132-180 | only `package.json` and manifest entries are created or changed; every other file keeps its content |
| ScaffoldProperties.ProducedWithoutBundle | src/index.js:175-189 | without bundled assets, the entries written are exactly the eleven known names |
| ScaffoldProperties.FreshWithoutBundleAny | src/index.js:168-189 | with no bundled assets on an empty target, the files are exactly `package.json` and the eleven generated ones |
| ScaffoldProperties.FreshWithoutBundle | src/index.js:135-189 | the same holds for the fixed manifest, so `src/main.tsx` and the other source stubs exist only when bundled |
| ScaffoldProperties.ManifestPackageJson | src/index.js:132-166 | with the fixed manifest, no entry overwrites `package.json` |
| ScaffoldProperties.GeneratedNamesInManifest | src/index.js:135-166 | every name the table knows is a manifest entry |
| Cli.TargetDir | src/index.js:18 | the target directory is the `--directory` value or the project name, and is empty only when the name is |
| Cli.TargetDirChoice | src/index.js:18 | an absent or empty `--directory` gives the project name; a non-empty one is used as given |
| Cli.Provision | src/index.js:58-75 | exit 0 exactly when install succeeds; a failed install is fatal and the Tailwind step never runs; a successful install is done; a failed Tailwind step only warns, and the Tailwind step is done exactly when both commands succeed |
| Cli.Invoke | src/index.js:17-75 | an invocation uses the chosen directory, the provisioning outcome and the full tree; `package.json` names the project |
| Cli.ExitStatus | src/index.js:492-498 | the process exit code is 0 exactly when install succeeded and does not depend on the Tailwind result |
| Cli.DirectoryOnlyPlacement | src/index.js:18-53 | the directory option changes neither the tree written nor the outcome |
| Cli.TreeSurvivesFailedInstall | src/index.js:52-66 | a failed install still leaves the full tree, exits with 1 and never runs Tailwind |
| Cli.CreateWebAppNamesProject | src/index.js:495 | the real command's `package.json` names the project from the command line, whatever the directory |
| Cli.InvokeWrites | src/index.js:168-189 | every listed entry with a bundled asset or a table entry exists after an invocation |
| Cli.DemoFilesListed | src/index.js:135-166 | `.env`, `README.md`, `src/App.tsx` and `src/stores/appStore.ts` are manifest entries |
| Cli.DemoRun | src/index.js:17-75 | with bundled `src/App.tsx` and `src/stores/appStore.ts`, on an empty target, `demo` with no directory lands in `demo`, holds `package.json` and the scenario's files and exits 0 exactly when install succeeded |
| AppStore.SetUser | templates/src/stores/appStore.ts:19 | `setUser` sets the user, `null` included, and leaves loading and theme alone |
| AppStore.SetLoading | templates/src/stores/appStore.ts:20 | `setLoading` sets only the loading flag |
| AppStore.SetTheme | templates/src/stores/appStore.ts:21 | `setTheme` sets only the theme |
| AppStore.ToggleTheme | templates/src/stores/appStore.ts:22-25 | `toggleTheme` always changes the theme and nothing else |
| AppStore.ToggleInvolution | templates/src/stores/appStore.ts:22-25 | toggling twice restores the state |
| AppStore.ToggleIsSetOpposite | templates/src/stores/appStore.ts:22-25 | toggling maps light to dark and dark to light |
| AppStore.SettersIdempotent | templates/src/stores/appStore.ts:19-21 | each setter applied twice equals applying it once; setting the current value changes nothing |
| AppStore.Partialize | templates/src/stores/appStore.ts:29-32 | the persisted slice holds the user and the theme |
| AppStore.PersistedIgnoresLoading | templates/src/stores/appStore.ts:29-32 | two states persist identically exactly when they differ at most in `isLoading` |
| AppStore.PartializeRoundTrip | templates/src/stores/appStore.ts:29-32 | a state is recovered from its persisted slice plus its loading flag |
| AppStore.PersistedCommutes | templates/src/stores/appStore.ts:15-32 | after any sequence of actions, the persisted slice is determined by the previous slice; loading actions are invisible to it |
| AppStore.LoadingNeverPersists | templates/src/stores/appStore.ts:29-32 | states differing only in loading persist identically after any common action sequence |
| AppStore.InitialPersisted | templates/src/stores/appStore.ts:16-18 | the initial state is not loading, and persists as no user with the light theme |

## Left out

- Path resolution against the working directory, `__dirname` and `path.join`
  are not modelled. Paths are relative to the target root.
- Filesystem failures are not modelled: permission errors, a file where a
  directory should be, full disks and unreadable bundled assets. Every
  primitive succeeds. So the exit-1 path for a thrown filesystem error is not
  modelled; only a failed install leads to exit 1.
- The exact text of the eight fixed configuration files is not modelled:
  vite, both tsconfigs, tailwind, postcss, eslint, prettier and gitignore.
  Each is a short distinct marker constant.
- The README's middle section is not modelled: features, commands, folder
  diagram and script table. It is a marker. The heading line and the closing
  `.env` block are exact.
- The `index.html` and `.env` texts are exact.
- `package.json` is written as a record. Its pretty-printed JSON text
  (`spaces: 2`) is not modelled.
- Only the success or failure of `npm install` and `npx tailwindcss init -p`
  is modelled. What the commands add to the tree (`node_modules`, the
  config files Tailwind writes) is not. Neither is the `process.chdir`
  before them.
- Commander parsing, chalk and ora console output and the "next steps"
  messages are left out as user interface.
- Cli.CreateWebApp carries no contract of its own. It is the invocation over
  the fixed folder skeleton and manifest; its properties are stated on
  `Invoke` for any lists, and on the fixed lists where they are cheap to
  state (`CreateWebAppNamesProject`, `DemoFilesListed`).
- Cli.DemoRun is stated for any manifest listing the scenario's files;
  `DemoFilesListed` shows the fixed manifest does.
- The zustand `devtools` and `persist` middleware, localStorage,
  rehydration and the store name `app-store` are left out. Only the
  transitions and the `partialize` projection are modelled.
- The React components, router, context, hooks, the `api.ts` network
  client and `test.js` are left out. They are user interface, framework
  glue, network I/O and an end-to-end shell test.
- An entry with neither a bundled asset nor a table entry is silently
  skipped (src/index.js:184-189), and the model does the same. The project
  therefore contains every manifest file only when every entry has a
  source; `FreshWithoutBundle` shows which files remain on an empty target
  with no bundled assets.
