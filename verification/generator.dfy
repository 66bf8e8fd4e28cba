/**
 The synthetic content table (`getTemplateContent` in src/index.js): a pure,
 total function of a manifest file name and the project name that yields the
 text of one of eleven known files, or nothing for every other name.
 */
module Generator {
  import opened Optional

  /** The eleven file names the table knows. */
  const GeneratedNames: set<string> := {
    "index.html", "vite.config.ts", "tsconfig.json", "tsconfig.node.json",
    "tailwind.config.js", "postcss.config.js", ".eslintrc.js", ".prettierrc",
    ".gitignore", ".env", "README.md"
  }

  /** The names whose text embeds the project name. */
  const NameDependent: set<string> := {"index.html", ".env", "README.md"}

  // Fixed configuration texts. Their exact characters are not part of this
  // model: each is a marker standing for the constant the generator returns
  // verbatim, and only their being fixed, non-empty and pairwise distinct
  // matters.
  const ViteConfig := "<vite config>"
  const TsConfig := "<tsconfig>"
  const TsConfigNode := "<tsconfig node>"
  const TailwindConfig := "<tailwind config>"
  const PostcssConfig := "<postcss config>"
  const EslintConfig := "<eslint config>"
  const PrettierConfig := "<prettier config>"
  const GitIgnore := "<gitignore>"

  const IndexHtmlHead :=
    "<!doctype html>\n<html lang=\"en\">\n  <head>\n    <meta charset=\"UTF-8\" />\n"
    + "    <link rel=\"icon\" type=\"image/svg+xml\" href=\"/vite.svg\" />\n"
    + "    <meta name=\"viewport\" content=\"width=device-width, initial-scale=1.0\" />\n    "
  const IndexHtmlTail :=
    "\n  </head>\n  <body>\n    <div id=\"root\"></div>\n"
    + "    <script type=\"module\" src=\"/src/main.tsx\"></script>\n  </body>\n</html>"

  const EnvPrefix := "VITE_APP_NAME="
  /** The second line carries the fixed default API URL. */
  const EnvSuffix := "\nVITE_API_URL=http://localhost:3001\n"

  /** The README text between its heading line and its closing `.env` block:
      a marker for the fixed feature list, commands, folder diagram and
      script table, then the opening of the environment section. */
  const ReadmeBody := "\n\n<readme body>\n\n## Environment Variables\n\n```env\n"
  const ReadmeTail := "```\n"

  function IndexHtml(projectName: string): string
  {
    IndexHtmlHead + "<title>" + projectName + "</title>" + IndexHtmlTail
  }

  function EnvFile(projectName: string): string
  {
    EnvPrefix + projectName + EnvSuffix
  }

  function Readme(projectName: string): string
  {
    "# " + projectName + ReadmeBody + EnvFile(projectName) + ReadmeTail
  }

  /** `getTemplateContent(fileName, projectName)`; `None` is the source's `null`. */
  function TemplateContent(fileName: string, projectName: string): (r: Option<string>)
    ensures r.Some? <==> fileName in GeneratedNames
    ensures r.Some? ==> r.value != ""
  {
    if fileName == "index.html" then Some(IndexHtml(projectName))
    else if fileName == "vite.config.ts" then Some(ViteConfig)
    else if fileName == "tsconfig.json" then Some(TsConfig)
    else if fileName == "tsconfig.node.json" then Some(TsConfigNode)
    else if fileName == "tailwind.config.js" then Some(TailwindConfig)
    else if fileName == "postcss.config.js" then Some(PostcssConfig)
    else if fileName == ".eslintrc.js" then Some(EslintConfig)
    else if fileName == ".prettierrc" then Some(PrettierConfig)
    else if fileName == ".gitignore" then Some(GitIgnore)
    else if fileName == ".env" then Some(EnvFile(projectName))
    else if fileName == "README.md" then Some(Readme(projectName))
    else None
  }

  /** `s` occurs in `t` as a contiguous substring. */
  predicate Contains(t: string, s: string)
  {
    exists i | 0 <= i <= |t| :: s <= t[i..]
  }

  /** Strip a known prefix and suffix: the reader's side of embedding a
      value between two fixed texts. */
  function Between(prefix: string, suffix: string, t: string): (r: Option<string>)
    ensures r.Some? <==> |prefix| + |suffix| <= |t| && prefix <= t && t[|t| - |suffix|..] == suffix
    ensures r.Some? ==> t == prefix + r.value + suffix
  {
    if |prefix| + |suffix| <= |t| && prefix <= t && t[|t| - |suffix|..] == suffix then
      var v := t[|prefix|..|t| - |suffix|];
      assert t == t[..|prefix|] + v + t[|t| - |suffix|..];
      Some(v)
    else None
  }

  /** Embedding a value between two fixed texts and stripping them again
      gives the value back. */
  lemma BetweenRoundTrip(prefix: string, v: string, suffix: string)
    ensures Between(prefix, suffix, prefix + v + suffix) == Some(v)
  {
    var t := prefix + v + suffix;
    assert t[|t| - |suffix|..] == suffix;
    assert t[|prefix|..|t| - |suffix|] == v;
  }

  /** Only `index.html`, `.env` and `README.md` depend on the project name;
      every other answer of the table is the same for every project. */
  lemma NameIndependent(fileName: string, a: string, b: string)
    requires fileName !in NameDependent
    ensures TemplateContent(fileName, a) == TemplateContent(fileName, b)
  {
  }

  /** The generated page's title element is exactly the project name. */
  lemma TitleEmbedded(projectName: string)
    ensures TemplateContent("index.html", projectName).Some?
    ensures Contains(TemplateContent("index.html", projectName).value, "<title>" + projectName + "</title>")
  {
    var t := IndexHtml(projectName);
    var s := "<title>" + projectName + "</title>";
    assert t == IndexHtmlHead + s + IndexHtmlTail;
    assert s <= t[|IndexHtmlHead|..];
  }

  /** The project name can be read back from the generated page's title. */
  lemma TitleRoundTrip(projectName: string)
    ensures Between(IndexHtmlHead + "<title>", "</title>" + IndexHtmlTail, TemplateContent("index.html", projectName).value)
         == Some(projectName)
  {
    var t := IndexHtml(projectName);
    assert t == (IndexHtmlHead + "<title>") + projectName + ("</title>" + IndexHtmlTail);
    BetweenRoundTrip(IndexHtmlHead + "<title>", projectName, "</title>" + IndexHtmlTail);
  }

  /** The generated `.env` sets the app name to the project name and the API
      URL to the fixed default, and nothing else. */
  lemma EnvExact(projectName: string)
    ensures TemplateContent(".env", projectName)
         == Some("VITE_APP_NAME=" + projectName + "\nVITE_API_URL=http://localhost:3001\n")
  {
  }

  /** The project name can be read back from the generated `.env`. */
  lemma EnvRoundTrip(projectName: string)
    ensures Between(EnvPrefix, EnvSuffix, TemplateContent(".env", projectName).value) == Some(projectName)
  {
    BetweenRoundTrip(EnvPrefix, projectName, EnvSuffix);
  }

  /** The generated README opens with the project name as its heading and
      repeats the generated `.env` file in its environment section. */
  lemma ReadmeEmbedsName(projectName: string)
    ensures TemplateContent("README.md", projectName).Some?
    ensures "# " + projectName <= TemplateContent("README.md", projectName).value
    ensures Contains(TemplateContent("README.md", projectName).value, TemplateContent(".env", projectName).value)
  {
    var r := Readme(projectName);
    var e := EnvFile(projectName);
    var h := "# " + projectName + ReadmeBody;
    assert r == h + e + ReadmeTail;
    assert r[..|"# " + projectName|] == "# " + projectName;
    assert e <= r[|h|..];
  }

  /** Different project names give different generated pages, environment
      files and READMEs: the name is never lost. */
  lemma NameDependentInjective(fileName: string, a: string, b: string)
    requires fileName in NameDependent
    requires TemplateContent(fileName, a) == TemplateContent(fileName, b)
    ensures a == b
  {
    if fileName == "index.html" {
      TitleRoundTrip(a);
      TitleRoundTrip(b);
    } else if fileName == ".env" {
      EnvRoundTrip(a);
      EnvRoundTrip(b);
    } else {
      var ra, rb := Readme(a), Readme(b);
      assert |EnvFile(a)| == |EnvPrefix| + |a| + |EnvSuffix|;
      assert |EnvFile(b)| == |EnvPrefix| + |b| + |EnvSuffix|;
      assert |ra| == |"# "| + 2 * |a| + |ReadmeBody| + |EnvPrefix| + |EnvSuffix| + |ReadmeTail|;
      assert |rb| == |"# "| + 2 * |b| + |ReadmeBody| + |EnvPrefix| + |EnvSuffix| + |ReadmeTail|;
      assert ra[2..2 + |a|] == a;
      assert rb[2..2 + |b|] == b;
    }
  }
}
