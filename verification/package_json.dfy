/**
 The `package.json` descriptor the generator writes: a record whose only
 run-time input is the project name. Its pretty-printed JSON text is not
 modelled; the record is what gets written.
 */
module PackageJson {

  datatype Package = Package(
    name: string,
    isPrivate: bool,
    version: string,
    moduleType: string,
    scripts: map<string, string>,
    dependencies: map<string, string>,
    devDependencies: map<string, string>)

  const Scripts: map<string, string> := map[
    "dev" := "vite",
    "build" := "tsc && vite build",
    "lint" := "eslint . --ext ts,tsx --report-unused-disable-directives --max-warnings 0",
    "preview" := "vite preview",
    "lint:fix" := "eslint . --ext ts,tsx --fix",
    "format" := "prettier --write \"src/**/*.{ts,tsx,js,jsx,json,css,md}\""
  ]

  const Dependencies: map<string, string> := map[
    "react" := "^18.2.0",
    "react-dom" := "^18.2.0",
    "react-router-dom" := "^6.20.1",
    "zustand" := "^4.4.7",
    "zod" := "^3.22.4",
    "react-i18next" := "^13.5.0",
    "i18next" := "^23.7.6",
    "i18next-browser-languagedetector" := "^7.2.0",
    "lucide-react" := "^0.294.0",
    "clsx" := "^2.0.0",
    "tailwind-merge" := "^2.2.0"
  ]

  const DevDependencies: map<string, string> := map[
    "@types/react" := "^18.2.43",
    "@types/react-dom" := "^18.2.17",
    "@typescript-eslint/eslint-plugin" := "^6.14.0",
    "@typescript-eslint/parser" := "^6.14.0",
    "@vitejs/plugin-react" := "^4.2.1",
    "autoprefixer" := "^10.4.16",
    "eslint" := "^8.55.0",
    "eslint-plugin-react-hooks" := "^4.6.0",
    "eslint-plugin-react-refresh" := "^0.4.5",
    "postcss" := "^8.4.32",
    "prettier" := "^3.1.1",
    "tailwindcss" := "^3.3.6",
    "typescript" := "^5.2.2",
    "vite" := "^5.0.8"
  ]

  /** The descriptor for a project: everything but the name is a constant. */
  function ForProject(projectName: string): (p: Package)
    ensures p.name == projectName
    ensures p.scripts.Keys == {"dev", "build", "lint", "lint:fix", "preview", "format"}
    ensures "react" in p.dependencies && "vite" in p.devDependencies
  {
    Package(projectName, true, "0.0.0", "module", Scripts, Dependencies, DevDependencies)
  }

  /** Two projects' descriptors differ in their name and nowhere else. */
  lemma ForProjectDiffersOnlyInName(a: string, b: string)
    ensures ForProject(a) == ForProject(b).(name := a)
    ensures ForProject(a) == ForProject(b) <==> a == b
  {
  }
}
