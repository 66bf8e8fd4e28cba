/**
 The two fixed lists compiled into the generator: the folder skeleton built
 before any file is written, and the file manifest walked in order.
 */
module Manifest {
  import opened Paths

  /** Written as a JSON record before the manifest loop starts. */
  const PackageJsonPath: Path := "package.json"

  const Folders: seq<Path> := [
    "src/assets/icons",
    "src/assets/images",
    "src/services",
    "src/components/ui",
    "src/context",
    "src/hooks",
    "src/pages",
    "src/stores",
    "src/utils",
    "src/types",
    "src/router",
    "src/i18n/locales",
    "public"
  ]

  const Files: seq<Path> := [
    "vite.config.ts",
    "tsconfig.json",
    "tsconfig.node.json",
    "tailwind.config.js",
    "postcss.config.js",
    ".eslintrc.js",
    ".prettierrc",
    ".gitignore",
    ".env",
    "README.md",
    "index.html",
    "src/main.tsx",
    "src/App.tsx",
    "src/index.css",
    "src/vite-env.d.ts",
    "src/utils/cn.ts",
    "src/stores/appStore.ts",
    "src/types/index.ts",
    "src/hooks/useAppStore.ts",
    "src/context/AppContext.tsx",
    "src/services/api.ts",
    "src/components/ui/Button.tsx",
    "src/components/Layout.tsx",
    "src/pages/Home.tsx",
    "src/pages/About.tsx",
    "src/router/index.tsx",
    "src/i18n/index.ts",
    "src/i18n/locales/en.json",
    "src/i18n/locales/es.json",
    "public/vite.svg"
  ]

  predicate Distinct(s: seq<Path>)
  {
    forall i, j | 0 <= i < j < |s| :: s[i] != s[j]
  }

  /** Thirteen folders and thirty distinct manifest entries, none of which is
      `package.json`. */
  lemma ManifestShape()
    ensures |Folders| == 13 && |Files| == 30
    ensures Distinct(Folders) && Distinct(Files)
    ensures PackageJsonPath !in Files
  {
    FoldersDistinct();
    FilesDistinct();
    PackageJsonNotInManifest();
  }

  /** `package.json` sits directly in the target root. */
  lemma PackageJsonAtRoot()
    ensures Parent(PackageJsonPath) == ""
  {
  }

  lemma PackageJsonNotInManifest()
    ensures PackageJsonPath !in Files
  {
  }

  lemma FoldersDistinct()
    ensures Distinct(Folders)
  {
    forall i, j | 0 <= i < j < |Folders|
      ensures Folders[i] != Folders[j]
    {
    }
  }

  lemma FilesDistinct()
    ensures Distinct(Files)
  {
    forall i, j | 0 <= i < j < |Files|
      ensures Files[i] != Files[j]
    {
    }
  }
}
