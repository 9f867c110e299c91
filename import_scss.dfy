/**
 * The `importSCSS` plugin: a `.css` or `.scss` module is run through postcss and its
 * whole text is replaced by a JavaScript module that exports the processed CSS, or,
 * for a global style sheet, also appends it to `document.head` as a `<style>` element.
 */
module ImportScss {
  import opened Wrappers
  import opened Strings
  import opened JsValues
  import opened Plugins

  /** The options a caller passes; `None` is a key left out of the object. */
  datatype ImportScssConfig = ImportScssConfig(
    plugins: Option<seq<Value>>, extensions: Option<seq<string>>, globals: Option<seq<string>>)

  /** The options after `{...defaultConfig, ...config}`. */
  datatype Settings = Settings(plugins: seq<Value>, extensions: seq<string>, globals: seq<string>)

  const DefaultExtensions: seq<string> := [".css", ".scss"]

  /** `{...defaultConfig, ...config}`: no postcss plugins, `.css` and `.scss` files, no globals. */
  function Configure(config: ImportScssConfig): (s: Settings)
    ensures s.plugins == if config.plugins.Some? then config.plugins.value else []
    ensures s.extensions == if config.extensions.Some? then config.extensions.value else DefaultExtensions
    ensures s.globals == if config.globals.Some? then config.globals.value else []
  {
    Settings(
      if config.plugins.Some? then config.plugins.value else [],
      if config.extensions.Some? then config.extensions.value else DefaultExtensions,
      if config.globals.Some? then config.globals.value else [])
  }

  /** `suffixes.find(x => id.endsWith(x)) != null`: some suffix ends `id`. */
  function EndsWithAny(id: string, suffixes: seq<string>): (r: bool)
    ensures r <==> exists k :: 0 <= k < |suffixes| && EndsWith(id, suffixes[k])
  {
    if suffixes == [] then false
    else if EndsWith(id, suffixes[0]) then true
    else
      var rest := EndsWithAny(id, suffixes[1..]);
      assert forall k :: 1 <= k < |suffixes| ==> suffixes[k] == suffixes[1..][k - 1];
      rest
  }

  /** `filter(id)`: the plugin handles the files ending with one of the extensions. */
  predicate Handles(s: Settings, id: string) {
    EndsWithAny(id, s.extensions)
  }

  /** `isGlobal(id)`: the file ends with one of the global names. */
  predicate IsGlobal(s: Settings, id: string) {
    EndsWithAny(id, s.globals)
  }

  /** With the defaults the plugin handles exactly the `.css` and `.scss` files, none of them global. */
  lemma DefaultsHandleStyleSheets(id: string)
    ensures var s := Configure(ImportScssConfig(None, None, None));
            (Handles(s, id) <==> EndsWith(id, ".css") || EndsWith(id, ".scss")) && !IsGlobal(s, id)
  {
    var s := Configure(ImportScssConfig(None, None, None));
    assert s.extensions[0] == ".css" && s.extensions[1] == ".scss";
  }

  /** The two module bodies the CSS can be wrapped in. */
  datatype Wrapper = ExportDefault | ExportGlobal

  /** `exportDefaultOverwrite(css)`: the CSS, unescaped, as the default export in a template literal. */
  function ExportDefaultOverwrite(css: string): string {
    "export default `" + css + "`"
  }

  const GlobalPrefix: string := "\n\t\tconst css = `"
  const StyleElement: string :=
    "`;\n\t\tconst $styles = document.createElement(\"style\");\n\t\t$styles.innerText = css;\n\t\tdocument.head.appendChild($styles);\n\t\t"
  const DefaultExport: string := "export default css;\n\t"
  const GlobalSuffix: string := StyleElement + DefaultExport

  /**
   * `exportGlobalOverwrite(css)`: bind the CSS, append it to the head in a style
   * element, export it; the CSS stands verbatim right after the binding.
   */
  function ExportGlobalOverwrite(css: string): (r: string)
    ensures |r| == |GlobalPrefix| + |css| + |GlobalSuffix|
    ensures StartsWith(r, GlobalPrefix) && r[|GlobalPrefix|..|GlobalPrefix| + |css|] == css
    ensures EndsWith(r, DefaultExport)
  {
    var r := GlobalPrefix + css + StyleElement + DefaultExport;
    assert r[..|GlobalPrefix|] == GlobalPrefix;
    assert r[|GlobalPrefix|..|GlobalPrefix| + |css|] == css;
    assert r[|r| - |DefaultExport|..] == DefaultExport;
    r
  }

  function Overwrite(w: Wrapper, css: string): string {
    match w
    case ExportDefault => ExportDefaultOverwrite(css)
    case ExportGlobal => ExportGlobalOverwrite(css)
  }

  /** The text a wrapper puts before and after the CSS. */
  function Prefix(w: Wrapper): string {
    if w == ExportDefault then "export default `" else GlobalPrefix
  }

  function Suffix(w: Wrapper): string {
    if w == ExportDefault then "`" else GlobalSuffix
  }

  /** The CSS that a module body written by `w` embeds, if it is one. */
  function Unwrap(w: Wrapper, code: string): Option<string> {
    var pre, post := Prefix(w), Suffix(w);
    if |pre| + |post| <= |code| && StartsWith(code, pre) && EndsWith(code, post)
    then Some(code[|pre|..|code| - |post|])
    else None
  }

  /** Each wrapper embeds the CSS verbatim: it can be cut back out. */
  lemma UnwrapOverwrite(w: Wrapper, css: string)
    ensures Unwrap(w, Overwrite(w, css)) == Some(css)
  {
    var code := Overwrite(w, css);
    assert code == Prefix(w) + css + Suffix(w);
    assert code[..|Prefix(w)|] == Prefix(w);
    assert code[|code| - |Suffix(w)|..] == Suffix(w);
    assert code[|Prefix(w)|..|code| - |Suffix(w)|] == css;
  }

  /** The two wrappers never write the same module body. */
  lemma WrappersDiffer(css1: string, css2: string)
    ensures ExportDefaultOverwrite(css1) != ExportGlobalOverwrite(css2)
  {
    assert ExportDefaultOverwrite(css1)[0] == 'e';
    assert ExportGlobalOverwrite(css2)[0] == '\n';
  }

  /** `processor.process(css, {from: id, to: id, ...})`: the processed CSS, or the rejection. */
  type Processor = (string, string) -> Result<string>

  /** How the promise of `processFile` ends; a rejected processor leaves it pending for ever. */
  datatype Outcome = Resolved(code: string, withMap: bool) | NeverSettles

  /**
   * `processFile`: code that is only white space becomes the wrapper around the empty
   * string, without a map and without calling the processor; otherwise the whole text
   * is overwritten by the wrapper around the processed CSS.
   */
  function ProcessFile(code: string, id: string, processor: Processor, w: Wrapper): (r: Outcome)
    ensures AllWhitespace(code) ==> r == Resolved(Overwrite(w, ""), false)
    ensures !AllWhitespace(code) && processor(code, id).Ok? ==> r == Resolved(Overwrite(w, processor(code, id).value), true)
    ensures !AllWhitespace(code) && processor(code, id).Err? ==> r == NeverSettles
  {
    TrimEmptyIff(code);
    if Trim(code) == "" then Resolved(Overwrite(w, ""), false)
    else
      match processor(code, id)
      case Ok(css) => Resolved(Overwrite(w, css), true)
      case Err(_) => NeverSettles
  }

  /** Empty input never reaches the processor: any two processors give the same result. */
  lemma EmptyInputSkipsProcessor(code: string, id: string, p1: Processor, p2: Processor, w: Wrapper)
    requires Trim(code) == ""
    ensures ProcessFile(code, id, p1, w) == ProcessFile(code, id, p2, w) == Resolved(Overwrite(w, ""), false)
  {
    TrimEmptyIff(code);
  }

  /**
   * Nothing of the original text is kept: the result depends on the code only through
   * what the processor makes of it.
   */
  lemma ResultDependsOnlyOnProcessedCss(code1: string, code2: string, id: string, processor: Processor, w: Wrapper)
    requires !AllWhitespace(code1) && !AllWhitespace(code2)
    requires processor(code1, id) == processor(code2, id)
    ensures ProcessFile(code1, id, processor, w) == ProcessFile(code2, id, processor, w)
  {
  }

  /** The plugin object: its settings and the postcss processor built from its plugins. */
  datatype Plugin = Plugin(settings: Settings, processor: Processor)

  /** `importSCSS(config)`, with `postcss(plugins)` building the processor. */
  function ImportScssPlugin(config: ImportScssConfig, postcss: seq<Value> -> Processor): (p: Plugin)
    ensures p.settings == Configure(config) && p.processor == postcss(Configure(config).plugins)
  {
    var s := Configure(config);
    Plugin(s, postcss(s.plugins))
  }

  /** `resolveId(id, importer)` of the plugin. */
  function ResolveId(p: Plugin, paths: PathOps, id: string, importer: Option<string>): (r: Option<string>)
    ensures r.Some? <==> importer.Some? && importer.value != "" && Handles(p.settings, id)
    ensures r.Some? ==> r.value == paths.resolve(paths.dirname(importer.value), id)
  {
    ResolveImport((x: string) => Handles(p.settings, x), paths, id, importer)
  }

  /** What `transform` returns, and what it printed. */
  datatype Transformed = Transformed(outcome: Outcome, log: seq<string>)

  /**
   * `transform(code, id)`: nothing for a file the plugin does not handle; a global
   * style sheet is first printed in quotes and then wrapped by the global wrapper;
   * any other one by the default-export wrapper.
   */
  function Transform(p: Plugin, code: string, id: string): (r: Option<Transformed>)
    ensures r.None? <==> !Handles(p.settings, id)
    ensures r.Some? ==> r.value.outcome == ProcessFile(code, id, p.processor, if IsGlobal(p.settings, id) then ExportGlobal else ExportDefault)
    ensures r.Some? ==> r.value.log == if IsGlobal(p.settings, id) then ["\"" + code + "\""] else []
  {
    if !Handles(p.settings, id) then None
    else if IsGlobal(p.settings, id) then
      Some(Transformed(ProcessFile(code, id, p.processor, ExportGlobal), ["\"" + code + "\""]))
    else Some(Transformed(ProcessFile(code, id, p.processor, ExportDefault), []))
  }
}
