/**
 * The project's own Rollup configuration: one entry point, one output, and the plugin
 * list assembled from the base plugins, the serve plugins when serving and the
 * production plugins in production. `path.resolve(__dirname, …)` and `path.join` are
 * parameters.
 */
module RollupConfig {
  import opened Wrappers
  import opened Strings
  import opened JsValues
  import opened CreateRollupConfig

  /** `path.resolve(__dirname, p)` and `path.join(a, b)`. */
  datatype Paths = Paths(resolve: string -> string, join: (string, string) -> string)

  /** `folders`: the four directories, each resolved against the project directory. */
  datatype Folders = Folders(dist: string, src: string, srcAssets: string, distAssets: string)

  function FoldersOf(p: Paths): Folders {
    Folders(p.resolve("dist"), p.resolve("src/demo"), p.resolve("src/demo/assets"), p.resolve("dist/assets"))
  }

  /** `files`: the entry module and the HTML template and its target. */
  datatype EntryFiles = EntryFiles(main: string, srcIndex: string, distIndex: string)

  function EntryFilesOf(p: Paths): EntryFiles {
    var f := FoldersOf(p);
    EntryFiles(p.join(f.src, "main.ts"), p.join(f.src, "index.html"), p.join(f.dist, "index.html"))
  }

  /** `path.join` on the values `defaultProdPlugins` hands it; only strings reach it here. */
  function JoinValue(p: Paths): (Value, string) -> Value {
    (v: Value, segment: string) => if v.Str? then Str(p.join(v.s, segment)) else Undefined
  }

  /** The source of the pattern that picks the entry bundles for the HTML page. */
  const MainEntrySource: string := "main(-.*)?\\.js$"

  /** `replaceConfig`: the environment file pair to swap, in production only. */
  function ReplaceConfig(env: Env, p: Paths): Value {
    var envFiles := if IsProd(env) then [Str(p.resolve("src/demo/env.ts")), Str(p.resolve("src/demo/env.prod.ts"))] else [];
    Obj(map["resources" := Arr([Arr(envFiles)])])
  }

  /** `copyConfig`: the demo assets go to `dist/assets`. */
  function CopyConfig(p: Paths): Value {
    Obj(map["resources" := Arr([Arr([Str(FoldersOf(p).srcAssets), Str(FoldersOf(p).distAssets)])])])
  }

  /** `cleanerConfig`: `dist` is a target only when not serving. */
  function CleanerConfig(env: Env, p: Paths): Value {
    When(!IsServe(env), "targets", Arr([Str(FoldersOf(p).dist)]))
  }

  /** `htmlTemplateConfig`: the demo's page, its place in `dist`, and the entry bundles to inject. */
  function HtmlTemplateConfig(p: Paths): Value {
    Obj(map[
      "template" := Str(EntryFilesOf(p).srcIndex), "target" := Str(EntryFilesOf(p).distIndex),
      "include" := Value.Regex(MainEntrySource)])
  }

  /** `importStylesConfig`: `main.scss` is the global style sheet. */
  const ImportStylesConfig: Value := Obj(map["globals" := Arr([Str("main.scss")])])

  /** The options of `defaultPlugins`. */
  function BaseOptions(env: Env, p: Paths): Value {
    Obj(map[
      "replaceConfig" := ReplaceConfig(env, p), "copyConfig" := CopyConfig(p),
      "cleanerConfig" := CleanerConfig(env, p), "htmlTemplateConfig" := HtmlTemplateConfig(p),
      "importStylesConfig" := ImportStylesConfig])
  }

  lemma BaseOptionsKeys(env: Env, p: Paths)
    ensures Get(BaseOptions(env, p), "cleanerConfig") == CleanerConfig(env, p)
    ensures Get(BaseOptions(env, p), "copyConfig") == CopyConfig(p)
    ensures Get(BaseOptions(env, p), "htmlTemplateConfig") == HtmlTemplateConfig(p)
    ensures Get(BaseOptions(env, p), "importStylesConfig") == ImportStylesConfig
  {
  }

  /** The options of `defaultServePlugins`: port 1338, both serving and watching `dist`. */
  function ServeOptionsOf(p: Paths): Value {
    var dist := Str(FoldersOf(p).dist);
    Obj(map[
      "serveConfig" := Obj(map["contentBase" := dist, "port" := Num(1338)]),
      "livereloadConfig" := Obj(map["watch" := dist])])
  }

  /** The options of `defaultProdPlugins`: `dist` and the two report files inside it. */
  function ProdOptionsOf(p: Paths): Value {
    var dist := FoldersOf(p).dist;
    Obj(map[
      "dist" := Str(dist),
      "visualizerConfig" := Obj(map["filename" := Str(p.join(dist, "stats.html"))]),
      "licenseConfig" := Obj(map["thirdParty" := Obj(map["output" := Str(p.join(dist, "licenses.txt"))])])])
  }

  /** The template and the target are strings, so the base plugins can always be built. */
  lemma BasePluginsBuild(env: Env, p: Paths)
    ensures DefaultPlugins(BaseOptions(env, p), env).Ok?
  {
    BaseOptionsKeys(env, p);
    WithUserGet(Obj(map[]), HtmlTemplateConfig(p), "template");
    WithUserGet(Obj(map[]), HtmlTemplateConfig(p), "target");
  }

  /** The exported configuration object. */
  datatype RollupOptions = RollupOptions(
    input: map<string, string>, output: seq<Value>, plugins: seq<PluginSpec>, external: seq<string>,
    experimentalCodeSplitting: bool, treeshake: bool, context: string)

  /** The base plugins of this configuration. */
  function BasePlugins(env: Env, p: Paths): (r: seq<PluginSpec>)
    ensures r == BasePluginList(BaseOptions(env, p), env)
  {
    BasePluginsBuild(env, p);
    DefaultPlugins(BaseOptions(env, p), env).value
  }

  /** `...(isServe ? [...defaultServePlugins(…)] : [])` */
  function ServePlugins(env: Env, p: Paths): (r: seq<PluginSpec>)
    ensures Names(r) == if IsServe(env) then ServeOrder else []
  {
    if IsServe(env) then DefaultServePlugins(ServeOptionsOf(p)) else []
  }

  /** `...(isProd ? [...defaultProdPlugins(…)] : [])` */
  function ProdPlugins(env: Env, p: Paths): (r: seq<PluginSpec>)
    ensures Names(r) == if IsProd(env) then ProdOrder else []
  {
    if IsProd(env) then DefaultProdPlugins(ProdOptionsOf(p), JoinValue(p)) else []
  }

  /** The output options: `dist`, ES modules, over the output defaults. */
  function OutputOf(p: Paths): Value {
    DefaultOutputConfig(Obj(map["dir" := Str(FoldersOf(p).dist), "format" := Str("esm")]))
  }

  /**
   * `export default {…}`: the plugin list is the base plugins, then the serve plugins
   * exactly when serving, then the production plugins exactly in production, with
   * nothing reordered or dropped; externals only for a library build; tree shaking
   * exactly in production.
   */
  function Config(env: Env, pkg: Package, p: Paths): (r: RollupOptions)
    ensures Names(r.plugins) == BaseOrder + (if IsServe(env) then ServeOrder else []) + (if IsProd(env) then ProdOrder else [])
    ensures r.plugins == BasePlugins(env, p) + ServePlugins(env, p) + ProdPlugins(env, p)
    ensures r.external == if IsLibrary(env) then DefaultExternals(pkg) else []
    ensures r.treeshake == IsProd(env) && r.experimentalCodeSplitting && r.context == "window"
    ensures r.input == map["main" := EntryFilesOf(p).main]
    ensures r.output == [OutputOf(p)]
  {
    var base, serve, prod := BasePlugins(env, p), ServePlugins(env, p), ProdPlugins(env, p);
    NamesAppend(base, serve);
    NamesAppend(base + serve, prod);
    RollupOptions(
      map["main" := EntryFilesOf(p).main], [OutputOf(p)], base + serve + prod,
      if IsLibrary(env) then DefaultExternals(pkg) else [], true, IsProd(env), "window")
  }

  /** Compression is the last plugin exactly in production. */
  lemma CompressIsLastIffProd(env: Env, pkg: Package, p: Paths)
    ensures var names := Names(Config(env, pkg, p).plugins);
            names[|names| - 1] == "compress" <==> IsProd(env)
  {
  }

  /** The cleaner empties `dist` only when not serving; when serving it has no targets. */
  lemma CleanerTargets(env: Env, pkg: Package, p: Paths)
    ensures Get(Config(env, pkg, p).plugins[1].options, "targets")
      == if IsServe(env) then Undefined else Arr([Str(FoldersOf(p).dist)])
  {
    BaseSlot(env, pkg, p, 1);
    BaseCleanerTargets(env, p);
  }

  lemma BaseSlot(env: Env, pkg: Package, p: Paths, i: nat)
    requires i < 10
    ensures Config(env, pkg, p).plugins[i] == BasePlugins(env, p)[i]
  {
  }

  lemma BaseCleanerTargets(env: Env, p: Paths)
    ensures Get(BasePlugins(env, p)[1].options, "targets")
      == if IsServe(env) then Undefined else Arr([Str(FoldersOf(p).dist)])
  {
    BasePluginOptions(BaseOptions(env, p), env);
    BaseOptionsKeys(env, p);
    WithUserGet(Obj(map[]), CleanerConfig(env, p), "targets");
  }

  /**
   * The HTML page gets the bundles matching `main(-.*)?\\.js$` injected into the demo's
   * `index.html`, written to `dist`.
   */
  lemma HtmlTemplateSettings(env: Env, pkg: Package, p: Paths)
    ensures var html := Config(env, pkg, p).plugins[9].options;
            Get(html, "template") == Str(EntryFilesOf(p).srcIndex)
            && Get(html, "target") == Str(EntryFilesOf(p).distIndex)
            && Get(html, "include") == Value.Regex(MainEntrySource)
  {
    BaseSlot(env, pkg, p, 9);
    BasePluginOptions(BaseOptions(env, p), env);
    BaseOptionsKeys(env, p);
    HtmlTemplateConfigKeys(p);
  }

  lemma HtmlTemplateConfigKeys(p: Paths)
    ensures var html := WithUser(Obj(map[]), HtmlTemplateConfig(p));
            Get(html, "template") == Str(EntryFilesOf(p).srcIndex)
            && Get(html, "target") == Str(EntryFilesOf(p).distIndex)
            && Get(html, "include") == Value.Regex(MainEntrySource)
  {
    WithUserGet(Obj(map[]), HtmlTemplateConfig(p), "template");
    WithUserGet(Obj(map[]), HtmlTemplateConfig(p), "target");
    WithUserGet(Obj(map[]), HtmlTemplateConfig(p), "include");
  }

  /** `main.scss` is the one global style sheet. */
  lemma GlobalStyleSettings(env: Env, pkg: Package, p: Paths)
    ensures Get(Config(env, pkg, p).plugins[4].options, "globals") == Arr([Str("main.scss")])
  {
    BaseSlot(env, pkg, p, 4);
    BaseGlobalStyles(env, p);
  }

  lemma BaseGlobalStyles(env: Env, p: Paths)
    ensures Get(BasePlugins(env, p)[4].options, "globals") == Arr([Str("main.scss")])
  {
    var resolveOpts := ResolveOptions(BaseOptions(env, p));
    BaseHoldsResolvePlugins(BaseOptions(env, p), env);
    assert BasePlugins(env, p)[4] == DefaultResolvePlugins(resolveOpts, env)[2];
    BaseOptionsKeys(env, p);
    assert Get(resolveOpts, "importStylesConfig") == ImportStylesConfig;
    StyleGlobals(env, resolveOpts);
  }

  lemma StyleGlobals(env: Env, options: Value)
    requires Get(options, "importStylesConfig") == ImportStylesConfig
    ensures Get(ImportStylesOptions(options, env), "globals") == Arr([Str("main.scss")])
  {
    WithUserGet(Obj(map["plugins" := Arr(PostcssValues(env))]), ImportStylesConfig, "globals");
  }

  /** The copy plugin copies the demo assets into `dist/assets`. */
  lemma CopySettings(env: Env, p: Paths)
    ensures Get(BasePlugins(env, p)[8].options, "resources")
      == Arr([Arr([Str(FoldersOf(p).srcAssets), Str(FoldersOf(p).distAssets)])])
  {
    BasePluginOptions(BaseOptions(env, p), env);
    BaseOptionsKeys(env, p);
    WithUserGet(Obj(map[]), CopyConfig(p), "resources");
  }

  /** When serving, the server runs on port 1338 and both serving and reloading watch `dist`. */
  lemma ServeSettings(env: Env, p: Paths)
    requires IsServe(env)
    ensures var serve := ServePlugins(env, p);
            Get(serve[0].options, "port") == Num(1338)
            && Get(serve[0].options, "contentBase") == Str(FoldersOf(p).dist)
            && Get(serve[1].options, "watch") == Str(FoldersOf(p).dist)
  {
    ServePort(p);
    ServeFolders(p);
  }

  /** The serve plugins follow the ten base plugins in the configuration. */
  lemma ServeSlot(env: Env, pkg: Package, p: Paths, i: nat)
    requires i < |ServePlugins(env, p)|
    ensures Config(env, pkg, p).plugins[10 + i] == ServePlugins(env, p)[i]
  {
    AppendIndex(BasePlugins(env, p), ServePlugins(env, p), ProdPlugins(env, p), i);
  }

  lemma AppendIndex<T>(a: seq<T>, b: seq<T>, c: seq<T>, i: nat)
    requires i < |b|
    ensures (a + b + c)[|a| + i] == b[i]
  {
  }

  lemma ServePort(p: Paths)
    ensures Get(ServeOptions(ServeOptionsOf(p)), "port") == Num(1338)
  {
    var opts := ServeOptionsOf(p);
    assert Get(opts, "dist") == Undefined;
    WithUserGet(Spread(ServeDefaults, When(false, "contentBase", Undefined)), Get(opts, "serveConfig"), "port");
  }

  lemma ServeFolders(p: Paths)
    ensures Get(ServeOptions(ServeOptionsOf(p)), "contentBase") == Str(FoldersOf(p).dist)
    ensures Get(LivereloadOptions(ServeOptionsOf(p)), "watch") == Str(FoldersOf(p).dist)
  {
  }

  /** In production the license and size reports are written into `dist`. */
  lemma ProdSettings(env: Env, pkg: Package, p: Paths)
    requires IsProd(env)
    ensures var plugins := Config(env, pkg, p).plugins;
            var dist := FoldersOf(p).dist;
            var k := |plugins| - 6;
            Get(plugins[k + 1].options, "thirdParty") == Obj(map["output" := Str(p.join(dist, "licenses.txt"))])
            && Get(plugins[k + 4].options, "filename") == Str(p.join(dist, "stats.html"))
  {
    var plugins := Config(env, pkg, p).plugins;
    var k := |plugins| - 6;
    assert plugins[k + 1] == ProdPlugins(env, p)[1] && plugins[k + 4] == ProdPlugins(env, p)[4];
    ProdOptionsKeys(p);
  }

  lemma ProdOptionsKeys(p: Paths)
    ensures var prod := DefaultProdPlugins(ProdOptionsOf(p), JoinValue(p));
            var dist := FoldersOf(p).dist;
            Get(prod[1].options, "thirdParty") == Obj(map["output" := Str(p.join(dist, "licenses.txt"))])
            && Get(prod[4].options, "filename") == Str(p.join(dist, "stats.html"))
  {
  }

  /** The output goes to `dist` as ES modules with the default hashed names and source maps. */
  lemma OutputSettings(p: Paths)
    ensures var out := OutputOf(p);
            Get(out, "dir") == Str(FoldersOf(p).dist) && Get(out, "format") == Str("esm")
            && Get(out, "entryFileNames") == Str("[name]-[hash].js") && Get(out, "sourcemap") == Bool(true)
  {
  }

  /** `.` of a regular expression: any character but a line terminator. */
  predicate IsLineTerminator(c: char) {
    c == '\n' || c == '\r' || c == '\U{2028}' || c == '\U{2029}'
  }

  /**
   * What `/main(-.*)?\.js$/` matches: `main` somewhere, then `.js` at the end, with
   * optionally a dash and any text without line terminators in between.
   */
  ghost predicate MatchesMainEntry(name: string) {
    exists i {:trigger OccursAt(name, "main", i)} :: 0 <= i && OccursAt(name, "main", i) && (
      name[i + 4..] == ".js"
      || (i + 8 <= |name| && name[i + 4] == '-' && EndsWith(name, ".js")
          && forall j :: i + 5 <= j < |name| - 3 ==> !IsLineTerminator(name[j])))
  }

  /** The hashed entry bundles Rollup names `main-[hash].js` are injected. */
  lemma HashedMainEntryMatches(hash: string)
    requires forall j :: 0 <= j < |hash| ==> !IsLineTerminator(hash[j])
    ensures MatchesMainEntry("main-" + hash + ".js")
  {
    var name := "main-" + hash + ".js";
    assert name[..4] == "main";
    assert OccursAt(name, "main", 0);
    assert name[|name| - 3..] == ".js";
    assert forall j :: 5 <= j < |name| - 3 ==> name[j] == hash[j - 5];
  }

  /** A source map next to an entry bundle is not injected. */
  lemma SourceMapDoesNotMatch()
    ensures !MatchesMainEntry("main-1a2b.js.map")
  {
    var name := "main-1a2b.js.map";
    assert name[9] == '.';
    assert name[|name| - 3..] != ".js";
    forall i | 0 <= i && OccursAt(name, "main", i)
      ensures name[i + 4..] != ".js"
    {
      assert name[i..i + 4][0] == 'm';
    }
  }
}
