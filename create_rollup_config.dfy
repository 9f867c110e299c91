/**
 * The building blocks of a Rollup configuration: the environment flags, the output
 * defaults, the external dependencies of a package and the plugin lists, each plugin
 * given by its name and the options object it is called with. Every options object
 * is a set of defaults with the caller's object spread over it.
 */
module CreateRollupConfig {
  import opened Wrappers
  import opened JsValues
  import HtmlTemplate

  /** The two environment variables the configuration reads; `None` is an unset variable. */
  datatype Env = Env(nodeEnv: Option<string>, rollupWatch: Option<string>)

  predicate IsProd(env: Env) {
    env.nodeEnv == Some("prod") || env.nodeEnv == Some("production")
  }

  predicate IsDev(env: Env) {
    env.nodeEnv == Some("dev") || env.nodeEnv == Some("development")
  }

  predicate IsLibrary(env: Env) {
    env.nodeEnv == Some("lib") || env.nodeEnv == Some("library")
  }

  /** `process.env.ROLLUP_WATCH || false`: the variable's text when it is set and not empty, else `false`. */
  function ServeFlag(env: Env): (v: Value)
    ensures Truthy(v) <==> env.rollupWatch.Some? && env.rollupWatch.value != ""
    ensures Truthy(v) ==> v == Str(env.rollupWatch.value)
    ensures !Truthy(v) ==> v == Bool(false)
  {
    if env.rollupWatch.Some? && env.rollupWatch.value != "" then Str(env.rollupWatch.value) else Bool(false)
  }

  /** `isServe` as a condition: any non-empty `ROLLUP_WATCH`, even `"false"`, means serving. */
  predicate IsServe(env: Env) {
    Truthy(ServeFlag(env))
  }

  /** At most one of the three build modes holds. */
  lemma ModesExclude(env: Env)
    ensures !(IsProd(env) && IsDev(env)) && !(IsProd(env) && IsLibrary(env)) && !(IsDev(env) && IsLibrary(env))
  {
  }

  /** `configOrDefault(config)`: the config when truthy, else an empty object. */
  function ConfigOrDefault(config: Value): (r: Value)
    ensures Truthy(config) ==> r == config
    ensures !Truthy(config) ==> r == Obj(map[])
  {
    if Truthy(config) then config else Obj(map[])
  }

  /** `{...defaults, ...configOrDefault(user)}` */
  function WithUser(defaults: Value, user: Value): Value {
    Spread(defaults, ConfigOrDefault(user))
  }

  /** A key of the caller's options wins over the default for it. */
  lemma WithUserGet(defaults: Value, user: Value, k: string)
    ensures Get(WithUser(defaults, user), k)
      == if k in Fields(ConfigOrDefault(user)) then Fields(ConfigOrDefault(user))[k] else Get(defaults, k)
  {
    SpreadGet(defaults, ConfigOrDefault(user), k);
  }

  /** `{...(cond ? {key: value} : {})}` */
  function When(cond: bool, key: string, value: Value): (r: Value)
    ensures cond ==> r == Obj(map[key := value])
    ensures !cond ==> r == Obj(map[])
  {
    if cond then Obj(map[key := value]) else Obj(map[])
  }

  const OutputDefaults: Value := Obj(map[
    "entryFileNames" := Str("[name]-[hash].js"), "chunkFileNames" := Str("[name]-[hash].js"),
    "sourcemap" := Bool(true)])

  /** `defaultOutputConfig(config)`: hashed entry and chunk names and source maps, each overridden by the caller's keys. */
  function DefaultOutputConfig(config: Value): (r: Value)
    ensures forall k :: k in Fields(ConfigOrDefault(config)) ==> Get(r, k) == Fields(ConfigOrDefault(config))[k]
    ensures "entryFileNames" !in Fields(ConfigOrDefault(config)) ==> Get(r, "entryFileNames") == Str("[name]-[hash].js")
    ensures "chunkFileNames" !in Fields(ConfigOrDefault(config)) ==> Get(r, "chunkFileNames") == Str("[name]-[hash].js")
    ensures "sourcemap" !in Fields(ConfigOrDefault(config)) ==> Get(r, "sourcemap") == Bool(true)
  {
    var r := WithUser(OutputDefaults, config);
    forall k | k in Fields(ConfigOrDefault(config))
      ensures Get(r, k) == Fields(ConfigOrDefault(config))[k]
    {
      WithUserGet(OutputDefaults, config, k);
    }
    WithUserGet(OutputDefaults, config, "entryFileNames");
    WithUserGet(OutputDefaults, config, "chunkFileNames");
    WithUserGet(OutputDefaults, config, "sourcemap");
    r
  }

  /**
   * A package manifest as `defaultExternals` reads it: the keys of `dependencies` and
   * of `devDependencies` in their order, `None` for a map that is absent.
   */
  datatype Package = Package(dependencies: Option<seq<string>>, devDependencies: Option<seq<string>>)

  function KeysOf(m: Option<seq<string>>): seq<string> {
    if m.Some? then m.value else []
  }

  /** `defaultExternals(pkg)`: the dependencies, then the development dependencies. */
  function DefaultExternals(pkg: Package): (r: seq<string>)
    ensures |r| == |KeysOf(pkg.dependencies)| + |KeysOf(pkg.devDependencies)|
    ensures r[..|KeysOf(pkg.dependencies)|] == KeysOf(pkg.dependencies)
    ensures r[|KeysOf(pkg.dependencies)|..] == KeysOf(pkg.devDependencies)
    ensures forall x :: x in r <==> x in KeysOf(pkg.dependencies) || x in KeysOf(pkg.devDependencies)
  {
    var r := KeysOf(pkg.dependencies) + KeysOf(pkg.devDependencies);
    assert r[..|KeysOf(pkg.dependencies)|] == KeysOf(pkg.dependencies);
    r
  }

  /** A plugin in a list: the factory it comes from and the options object it is called with. */
  datatype PluginSpec = PluginSpec(name: string, options: Value)

  function Names(plugins: seq<PluginSpec>): (r: seq<string>)
    ensures |r| == |plugins| && forall i :: 0 <= i < |r| ==> r[i] == plugins[i].name
  {
    seq(|plugins|, i requires 0 <= i < |plugins| => plugins[i].name)
  }

  /** Where the parts of `a + b + c` lie. */
  lemma ThreeParts<T>(a: seq<T>, b: seq<T>, c: seq<T>)
    ensures (a + b + c)[|a|..|a| + |b|] == b
    ensures forall i :: 0 <= i < |a| ==> (a + b + c)[i] == a[i]
    ensures forall i :: 0 <= i < |b| ==> (a + b + c)[|a| + i] == b[i]
    ensures forall i :: 0 <= i < |c| ==> (a + b + c)[|a| + |b| + i] == c[i]
  {
  }

  lemma NamesOfPair(a: PluginSpec, b: PluginSpec)
    ensures Names([a, b]) == [a.name, b.name]
  {
  }

  lemma NamesAppend(a: seq<PluginSpec>, b: seq<PluginSpec>)
    ensures Names(a + b) == Names(a) + Names(b)
  {
  }

  /** A plugin object as a value, for the `plugins` array handed to the style importer. */
  function AsValue(p: PluginSpec): Value {
    Obj(map["plugin" := Str(p.name), "options" := p.options])
  }

  const CssnanoOptions: Value := Obj(map["preset" := Arr([Str("default"), Obj(map["calc" := Bool(false)])])])

  /** `postcssPlugins`: precss and autoprefixer, then cssnano in production only. */
  function PostcssPlugins(env: Env): (r: seq<PluginSpec>)
    ensures Names(r) == ["precss", "autoprefixer"] + if IsProd(env) then ["cssnano"] else []
    ensures IsProd(env) ==> r[2].options == CssnanoOptions
  {
    [PluginSpec("precss", Undefined), PluginSpec("autoprefixer", Undefined)]
    + if IsProd(env) then [PluginSpec("cssnano", CssnanoOptions)] else []
  }

  const ResolveOrder: seq<string> := ["replace", "resolve", "importStyles", "json", "ts", "commonjs"]

  const NodeResolveDefaults: Value := Obj(map[
    "module" := Bool(true), "browser" := Bool(true), "jsnext" := Bool(true),
    "main" := Bool(false), "modulesOnly" := Bool(false)])

  /** The postcss plugins as the array value the style importer is given. */
  function PostcssValues(env: Env): (r: seq<Value>)
    ensures |r| == |PostcssPlugins(env)| && forall i :: 0 <= i < |r| ==> r[i] == AsValue(PostcssPlugins(env)[i])
  {
    var postcss := PostcssPlugins(env);
    seq(|postcss|, i requires 0 <= i < |postcss| => AsValue(postcss[i]))
  }

  /** The options of `importStyles`: the postcss plugins unless the caller names its own. */
  function ImportStylesOptions(options: Value, env: Env): (r: Value)
    ensures var user := ConfigOrDefault(Get(options, "importStylesConfig"));
            Get(r, "plugins") == if "plugins" in Fields(user) then Fields(user)["plugins"] else Arr(PostcssValues(env))
  {
    WithUserGet(Obj(map["plugins" := Arr(PostcssValues(env))]), Get(options, "importStylesConfig"), "plugins");
    WithUser(Obj(map["plugins" := Arr(PostcssValues(env))]), Get(options, "importStylesConfig"))
  }

  /** `defaultResolvePlugins(options)`: the plugins that teach Rollup to find and read modules. */
  function DefaultResolvePlugins(options: Value, env: Env): (r: seq<PluginSpec>)
    ensures Names(r) == ResolveOrder
    ensures r[2].options == ImportStylesOptions(options, env)
  {
    [ PluginSpec("replace", WithUser(Obj(map[]), Get(options, "replaceConfig"))),
      PluginSpec("resolve", WithUser(NodeResolveDefaults, Get(options, "resolveConfig"))),
      PluginSpec("importStyles", ImportStylesOptions(options, env)),
      PluginSpec("json", WithUser(Obj(map["preferConst" := Bool(true), "compact" := Bool(true)]), Get(options, "jsonConfig"))),
      PluginSpec("ts", WithUser(Obj(map["transpiler" := Str("babel")]), Get(options, "tsConfig"))),
      PluginSpec("commonjs", WithUser(Obj(map["include" := Str("**/node_modules/**")]), Get(options, "commonjsConfig"))) ]
  }

  const BaseOrder: seq<string> := ["progress", "cleaner"] + ResolveOrder + ["copy", "htmlTemplate"]

  /** The options `defaultPlugins` hands on to `defaultResolvePlugins`. */
  function ResolveOptions(options: Value): Value {
    Obj(map[
      "jsonConfig" := Get(options, "jsonConfig"), "resolveConfig" := Get(options, "resolveConfig"),
      "tsConfig" := Get(options, "tsConfig"), "commonjsConfig" := Get(options, "commonjsConfig"),
      "replaceConfig" := Get(options, "replaceConfig"), "importStylesConfig" := Get(options, "importStylesConfig")])
  }

  /** The options `htmlTemplate` is called with inside `defaultPlugins`. */
  function HtmlTemplateOptions(options: Value): Value {
    WithUser(Obj(map[]), Get(options, "htmlTemplateConfig"))
  }

  /** The list `defaultPlugins` returns: progress, cleaner, the resolve plugins, copy and htmlTemplate, in this order. */
  function BasePluginList(options: Value, env: Env): (r: seq<PluginSpec>)
    ensures |r| == 10 && Names(r) == BaseOrder
  {
    var head := [ PluginSpec("progress", WithUser(Obj(map[]), Get(options, "progressConfig"))),
                  PluginSpec("cleaner", WithUser(Obj(map[]), Get(options, "cleanerConfig"))) ];
    var middle := DefaultResolvePlugins(ResolveOptions(options), env);
    var tail := [ PluginSpec("copy", WithUser(Obj(map[]), Get(options, "copyConfig"))),
                  PluginSpec("htmlTemplate", HtmlTemplateOptions(options)) ];
    NamesOfPair(head[0], head[1]);
    NamesOfPair(tail[0], tail[1]);
    NamesAppend(head, middle);
    NamesAppend(head + middle, tail);
    head + middle + tail
  }

  /** The cleaner, copy and htmlTemplate plugins get the caller's options for them. */
  lemma BasePluginOptions(options: Value, env: Env)
    ensures var r := BasePluginList(options, env);
            r[1].options == WithUser(Obj(map[]), Get(options, "cleanerConfig"))
            && r[8].options == WithUser(Obj(map[]), Get(options, "copyConfig"))
            && r[9].options == HtmlTemplateOptions(options)
  {
  }

  /** The resolve plugins sit between the cleaner and copy, unchanged. */
  lemma BaseHoldsResolvePlugins(options: Value, env: Env)
    ensures BasePluginList(options, env)[2..8] == DefaultResolvePlugins(ResolveOptions(options), env)
  {
  }

  /**
   * `defaultPlugins(options)`: the list cannot be built when the htmlTemplate options
   * lack a template or a target, because that plugin throws when it is created.
   */
  function DefaultPlugins(options: Value, env: Env): (r: Result<seq<PluginSpec>>)
    ensures r.Err? <==> IsNullish(Get(HtmlTemplateOptions(options), "template")) || IsNullish(Get(HtmlTemplateOptions(options), "target"))
    ensures r.Err? ==> r.error == HtmlTemplate.ConfigError
    ensures r.Ok? ==> r.value == BasePluginList(options, env)
  {
    var html := HtmlTemplateOptions(options);
    if IsNullish(Get(html, "template")) || IsNullish(Get(html, "target")) then Err(HtmlTemplate.ConfigError)
    else Ok(BasePluginList(options, env))
  }

  const ServeOrder: seq<string> := ["serve", "livereload"]

  const ServeDefaults: Value := Obj(map[
    "open" := Bool(true), "historyApiFallback" := Bool(true), "host" := Str("localhost"),
    "headers" := Obj(map["Access-Control-Allow-Origin" := Str("*")]), "port" := Num(1337)])

  /**
   * The options of `serve`: the server defaults, `contentBase: dist` when `dist` is
   * given (not null or undefined), and the caller's keys over both.
   */
  function ServeOptions(options: Value): (r: Value)
    ensures var dist := Get(options, "dist");
            var user := ConfigOrDefault(Get(options, "serveConfig"));
            Get(r, "contentBase") == if "contentBase" in Fields(user) then Fields(user)["contentBase"]
                                     else if IsNullish(dist) then Undefined else dist
  {
    var dist := Get(options, "dist");
    var defaults := Spread(ServeDefaults, When(!IsNullish(dist), "contentBase", dist));
    SpreadGet(ServeDefaults, When(!IsNullish(dist), "contentBase", dist), "contentBase");
    WithUserGet(defaults, Get(options, "serveConfig"), "contentBase");
    WithUser(defaults, Get(options, "serveConfig"))
  }

  /** The options of `livereload`: `watch: dist` when `dist` is given, and the caller's keys over it. */
  function LivereloadOptions(options: Value): (r: Value)
    ensures var dist := Get(options, "dist");
            var user := ConfigOrDefault(Get(options, "livereloadConfig"));
            Get(r, "watch") == if "watch" in Fields(user) then Fields(user)["watch"]
                               else if IsNullish(dist) then Undefined else dist
  {
    var dist := Get(options, "dist");
    WithUserGet(When(!IsNullish(dist), "watch", dist), Get(options, "livereloadConfig"), "watch");
    WithUser(When(!IsNullish(dist), "watch", dist), Get(options, "livereloadConfig"))
  }

  /** `defaultServePlugins(options)`: the development server, then live reloading. */
  function DefaultServePlugins(options: Value): (r: seq<PluginSpec>)
    ensures Names(r) == ServeOrder
    ensures r[0].options == ServeOptions(options) && r[1].options == LivereloadOptions(options)
  {
    [PluginSpec("serve", ServeOptions(options)), PluginSpec("livereload", LivereloadOptions(options))]
  }

  const ProdOrder: seq<string> := ["minifyLitHTML", "license", "terser", "budget", "visualizer", "compress"]

  /**
   * The options of `license`: source maps, the third-party output `dist/licenses.txt`
   * when `dist` is given, and the caller's keys over both. `join` is `path.join`.
   */
  function LicenseOptions(options: Value, join: (Value, string) -> Value): (r: Value)
    ensures var dist := Get(options, "dist");
            var user := ConfigOrDefault(Get(options, "licenseConfig"));
            Get(r, "thirdParty") == if "thirdParty" in Fields(user) then Fields(user)["thirdParty"]
                                    else if IsNullish(dist) then Undefined else Obj(map["output" := join(dist, "licenses.txt")])
  {
    var dist := Get(options, "dist");
    var derived := When(!IsNullish(dist), "thirdParty", Obj(map["output" := join(dist, "licenses.txt")]));
    var defaults := Spread(Obj(map["sourcemap" := Bool(true)]), derived);
    SpreadGet(Obj(map["sourcemap" := Bool(true)]), derived, "thirdParty");
    WithUserGet(defaults, Get(options, "licenseConfig"), "thirdParty");
    WithUser(defaults, Get(options, "licenseConfig"))
  }

  /** The options of `visualizer`: source maps, `dist/stats.html` when `dist` is given, and the caller's keys over both. */
  function VisualizerOptions(options: Value, join: (Value, string) -> Value): (r: Value)
    ensures var dist := Get(options, "dist");
            var user := ConfigOrDefault(Get(options, "visualizerConfig"));
            Get(r, "filename") == if "filename" in Fields(user) then Fields(user)["filename"]
                                  else if IsNullish(dist) then Undefined else join(dist, "stats.html")
  {
    var dist := Get(options, "dist");
    var derived := When(!IsNullish(dist), "filename", join(dist, "stats.html"));
    var defaults := Spread(Obj(map["sourcemap" := Bool(true)]), derived);
    SpreadGet(Obj(map["sourcemap" := Bool(true)]), derived, "filename");
    WithUserGet(defaults, Get(options, "visualizerConfig"), "filename");
    WithUser(defaults, Get(options, "visualizerConfig"))
  }

  /**
   * `defaultProdPlugins(options)`: the production plugins, compression last. The
   * options of `compress` come from the `gzipConfig` key.
   */
  function DefaultProdPlugins(options: Value, join: (Value, string) -> Value): (r: seq<PluginSpec>)
    ensures Names(r) == ProdOrder
    ensures r[1].options == LicenseOptions(options, join) && r[4].options == VisualizerOptions(options, join)
    ensures r[5].options == WithUser(Obj(map[]), Get(options, "gzipConfig"))
  {
    [ PluginSpec("minifyLitHTML", WithUser(Obj(map[]), Get(options, "minifyLitHtmlConfig"))),
      PluginSpec("license", LicenseOptions(options, join)),
      PluginSpec("terser", WithUser(Obj(map[]), Get(options, "terserConfig"))),
      PluginSpec("budget", WithUser(Obj(map[]), Get(options, "budgetConfig"))),
      PluginSpec("visualizer", VisualizerOptions(options, join)),
      PluginSpec("compress", WithUser(Obj(map[]), Get(options, "gzipConfig"))) ]
  }
}
