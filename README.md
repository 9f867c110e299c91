# web-config build configuration, modelled in Dafny

This project models the build configuration of `web-config`, a shared Rollup setup for
lit-html web applications. The model covers these parts:

- **`create-rollup-config.js`**: how the environment flags are read, how each plugin's
  defaults are combined with the caller's options (`{...defaults, ...configOrDefault(user)}`),
  and which plugins go into the base, resolve, serve and production lists, in what order.
- **`rollup.config.js`**: the configuration object exported for the demo application.
- **The plugins in the repository**, each modelled from its own source:
  - `copy`: copies resources after the bundle is written.
  - `compress`: writes gzip and brotli versions of the output files.
  - `htmlTemplate`: injects a `<script>` line for each entry bundle just before `</body>`.
  - `importSCSS`: runs style sheets through postcss and wraps the result in a JavaScript module.
  - `minifyLitHTML`: minifies the markup inside `html` tagged template literals.
- **`templates.js`**: the Markdown and HTML snippets the README generator assembles.

How the model represents the system:

- JavaScript values are the datatype `JsValues.Value`. Truthiness, loose null checks and object
  spread are defined on it.
- The file system is the class `Files.FileSystem`. It holds a map from path to bytes. A set of
  faulty paths stands for I/O that fails on those paths, so error handling can be stated.
- The libraries the code calls are parameters, given as functions:
  - parsing, code generation and HTML minification (esprima, escodegen, html-minifier);
  - postcss;
  - `createFilter`, `path.resolve`, `path.dirname` and `path.join`;
  - targz and brotli;
  - the recursive directory listing;
  - the UTF-8 codec;
  - the README `replace` helper and `LINE_BREAK`.
- Third-party plugin factories (progress, cleaner, resolve, json, ts, commonjs, terser, budget,
  visualizer, license, serve, livereload, replace, importStyles) are represented by their name
  and the options object they are called with.

Strings are sequences of UTF-16 code units. `slice`, `lastIndexOf`, `trim` and `endsWith`
follow their JavaScript definitions (`Strings`).

Points where the code behaves in a way a reader might not expect; the model follows the code:

- `ROLLUP_WATCH || false` counts any non-empty value as serving, including the text `"false"`.
- The `htmlTemplate` plugin inserts at index `-1` when the template has no `</body>`. In that
  case `slice(0, -1)` and `slice(-1)` put the scripts before the last character.
- The rewritten `TemplateElement` gets the range `[start, mini.length]`: its end is the length
  of the minified text, not an offset from `start`.
- In the `compress` plugin, `targz.compress` and `fse.appendFile` are asynchronous, while the
  brotli read and compression happen inside the loop. Every brotli read therefore sees the
  disk as it was before the loop. The success message is printed before any gzip or append
  error. An exception in the loop ends the process before any started write completes.
- A postcss rejection in `importSCSS` leaves the promise pending for ever, because the code has
  no `catch` for it.

## Model

| member | source | states |
|---|---|---|
| Strings.LastIndexOf | src/lib/rollup-plugins/rollup-plugin-html-template.js:51 | the result is -1 exactly when the pattern does not occur; otherwise the pattern occurs at the result and at no later index |
| Strings.JsSlice | src/lib/rollup-plugins/rollup-plugin-html-template.js:66-68 | within bounds `slice(start, end)` is the plain slice; `slice(0, -1)` drops the last element and `slice(-1)` keeps only it, a negative index counting from the end |
| Strings.SliceIndex | src/lib/rollup-plugins/rollup-plugin-html-template.js:66-68 | a negative index counts from the end and is clamped at 0; a non-negative one is clamped at the length |
| Strings.TrimEmptyIff | src/lib/rollup-plugins/rollup-plugin-import-scss.js:57 | `code.trim() === ""` holds exactly when every character is JavaScript white space |
| Strings.JoinAppend | src/lib/readme/templates.js:87 | joining `a + b` is joining `a`, the separator, then joining `b` |
| JsValues.SpreadGet | src/lib/create-rollup-config.js:35-37 | after `{...a, ...b}` a key reads as its value in `b`, else its value in `a`, else undefined; the keys are those of both |
| Plugins.ResolveImport | src/lib/rollup-plugins/minify-lit-html/rollup-plugin-minify-lit-html.js:176-179 | an id is resolved exactly when there is a non-empty importer and the filter accepts the id, and then it resolves against the importer's directory |
| Files.ReadFile | src/lib/rollup-plugins/rollup-plugin-html-template.js:40-45 | a read succeeds exactly for a file that is present and not faulty, and gives its contents |
| Files.WriteFile | src/lib/rollup-plugins/rollup-plugin-html-template.js:72-78 | `outputFileSync` succeeds exactly when the path is not faulty, not a directory and has no file among its ancestors (ENOTDIR otherwise); then the path holds the data and every other file is unchanged |
| Files.AppendFile | src/lib/rollup-plugins/rollup-plugin-compress.js:54-58 | succeeds under the same condition as a write; the data is added after the earlier contents, or after nothing when the file is absent; every other file is unchanged |
| Files.CopyTree | src/lib/rollup-plugins/rollup-plugin-copy.js:29-30 | `fse.copy` succeeds exactly when the source exists, neither end is faulty and the destination is not inside the source |
| Files.CopyTreeContents | src/lib/rollup-plugins/rollup-plugin-copy.js:30 | every file keeps existing; each file under the source reappears, rebased, with the same contents; a path that is not a copied destination keeps its contents |
| Files.RebaseInjective | src/lib/rollup-plugins/rollup-plugin-copy.js:30 | two different files under the source never land on the same destination |
| Files.FileSystem.constructor | src/lib/rollup-plugins/rollup-plugin-copy.js:30 | the disk starts with the given files and faulty paths |
| Copy.Configure | src/lib/rollup-plugins/rollup-plugin-copy.js:8-12 | each of `resources`, `verbose` and `overwriteFolder` is the caller's value when given, else no resources, verbose and overwrite |
| Copy.CopyStep | src/lib/rollup-plugins/rollup-plugin-copy.js:28-36 | a pair is skipped exactly when overwriting is off and the destination exists; otherwise the step's outcome is the copy's outcome |
| Copy.GenerateBundle | src/lib/rollup-plugins/rollup-plugin-copy.js:25-39 | a dry run changes nothing and prints nothing; a write leaves the disk and the log that handling the pairs in order gives |
| Copy.CopyAllAppend | src/lib/rollup-plugins/rollup-plugin-copy.js:27 | the pairs are handled one after the other: running `a + b` is running `a` and then `b` on its result, with the logs concatenated |
| Copy.FailedPairIsIsolated | src/lib/rollup-plugins/rollup-plugin-copy.js:32-36 | a pair whose copy throws leaves the disk as if it were absent, and only adds its message when verbose |
| Copy.ExistingDestinationIsKept | src/lib/rollup-plugins/rollup-plugin-copy.js:29 | without overwriting, a pair whose destination exists changes nothing |
| Copy.CopiedDestinationExists | src/lib/rollup-plugins/rollup-plugin-copy.js:29-30 | after a successful copy the destination exists |
| Copy.FirstOfTwoToSameDestinationWins | src/lib/rollup-plugins/rollup-plugin-copy.js:27-31 | without overwriting, of two pairs with the same fresh destination only the first is copied |
| Compress.Configure | src/lib/rollup-plugins/rollup-plugin-compress.js:14-24 | each of `verbose`, `algorithms`, `include` and `exclude` is the caller's value when given, else verbose, both algorithms and empty filters; the caller's `dir` is kept |
| Compress.Target | src/lib/rollup-plugins/rollup-plugin-compress.js:80 | the plugin's own `dir` when it is given and not empty, else the output directory of the bundle |
| Compress.GzipDestination | src/lib/rollup-plugins/rollup-plugin-compress.js:33 | the destination is the source path followed by `.gz` |
| Compress.BrotliDestination | src/lib/rollup-plugins/rollup-plugin-compress.js:52 | the destination is the source path followed by `.br` |
| Compress.SelectFiles | src/lib/rollup-plugins/rollup-plugin-compress.js:81 | a path is selected exactly when it is listed, does not end with `.gz` and passes the filter |
| Compress.SelectFilesAppend | src/lib/rollup-plugins/rollup-plugin-compress.js:81 | selection keeps the listing's order |
| Compress.SelectedAreEligibleFilesBelowTarget | src/lib/rollup-plugins/rollup-plugin-compress.js:80-81 | given a faithful listing, the selected files are exactly the eligible files below the target |
| Compress.GzipFile | src/lib/rollup-plugins/rollup-plugin-compress.js:32-42 | on success the source was readable and archivable, and only `<src>.gz` changes, to the archive |
| Compress.IssueFile | src/lib/rollup-plugins/rollup-plugin-compress.js:85-86 | one iteration starts gzip exactly when it is enabled; with brotli enabled it throws exactly when the read fails or no buffer comes back, and otherwise starts the append of the buffer of the file before the loop; gzip is started first |
| Compress.IssuedCallsStartedFor | src/lib/rollup-plugins/rollup-plugin-compress.js:84-87 | every call the loop starts belongs to a selected file, uses an enabled algorithm and, for brotli, carries the buffer of that file as it was before the loop |
| Compress.IssueAllSnoc | src/lib/rollup-plugins/rollup-plugin-compress.js:84 | one more file after a loop that has not thrown is one more iteration |
| Compress.CrashEndsRun | src/lib/rollup-plugins/rollup-plugin-compress.js:51-54 | once a file throws synchronously, the files after it are never looked at |
| Compress.IssueAllAppend | src/lib/rollup-plugins/rollup-plugin-compress.js:84-87 | the loop over `a + b` starts the calls of `a` and then those of `b`, and ends as `b` does |
| Compress.IssueOne | src/lib/rollup-plugins/rollup-plugin-compress.js:85-86 | the loop body starts the calls of one iteration, and throws as it does |
| Compress.CompressFiles | src/lib/rollup-plugins/rollup-plugin-compress.js:84-87 | the loop starts the calls of the selected files in order, stopping at the first synchronous exception |
| Compress.Complete | src/lib/rollup-plugins/rollup-plugin-compress.js:32-59 | a completed call changes only its destination; a successful gzip stores the archive of the file as it is then; a successful append extends `<src>.br`; a failure changes nothing and prints one message, only when verbose |
| Compress.CompleteAll | src/lib/rollup-plugins/rollup-plugin-compress.js:32-59 | the callbacks print nothing when quiet, and at most one message per call |
| Compress.CompleteAllAppend | src/lib/rollup-plugins/rollup-plugin-compress.js:84-87 | the callbacks of `a + b` are those of `a`, then those of `b` on the disk they left, with the messages concatenated |
| Compress.CompleteAllFrame | src/lib/rollup-plugins/rollup-plugin-compress.js:33-54 | the callbacks change no path that none of the calls writes |
| Compress.Callback | src/lib/rollup-plugins/rollup-plugin-compress.js:77-94 | the timer callback crashes exactly when the loop throws, and then changes nothing; otherwise it reports every selected file and prints the success message first when verbose and nothing at all when quiet; the disk is the one the callbacks leave |
| Compress.GenerateBundle | src/lib/rollup-plugins/rollup-plugin-compress.js:72-94 | a dry run does nothing; a missing target or a failing listing crashes with nothing written; otherwise the disk and outcome are the timer callback's for the selected files |
| Compress.CallbackFrame | src/lib/rollup-plugins/rollup-plugin-compress.js:32-87 | a build changes no path other than the enabled destinations of the selected files |
| Compress.BothAlgorithmsWriteBoth | src/lib/rollup-plugins/rollup-plugin-compress.js:14-59 | with both algorithms enabled, a file that can be read, compressed and written ends with its archive in `<src>.gz` and the brotli buffer appended to `<src>.br` |
| Compress.BrotliTwiceDoublesOutput | src/lib/rollup-plugins/rollup-plugin-compress.js:54 | with brotli alone, two builds over the same file leave the buffer twice in `<src>.br` |
| Compress.FailureIsOnlyLogged | src/lib/rollup-plugins/rollup-plugin-compress.js:37-57 | a call that fails leaves the disk as it was and adds its message only when verbose |
| HtmlTemplate.HtmlTemplatePlugin | src/lib/rollup-plugins/rollup-plugin-html-template.js:88-95 | the factory throws exactly when the template or the target is missing; otherwise it keeps them and takes the defaults for the other options |
| HtmlTemplate.FileNames | src/lib/rollup-plugins/rollup-plugin-html-template.js:54 | one file name per bundle entry, in order |
| HtmlTemplate.Accepted | src/lib/rollup-plugins/rollup-plugin-html-template.js:55 | a name is kept exactly when it is in the list and the filter accepts it |
| HtmlTemplate.AcceptedAppend | src/lib/rollup-plugins/rollup-plugin-html-template.js:55 | filtering keeps the bundle's order |
| HtmlTemplate.ScriptTags | src/lib/rollup-plugins/rollup-plugin-html-template.js:67 | one script line per accepted file name, in order, with the configured script type |
| HtmlTemplate.ScriptLinesAppend | src/lib/rollup-plugins/rollup-plugin-html-template.js:65-69 | the lines for `a + b` are the lines for `a` followed by the lines for `b` |
| HtmlTemplate.OneLinePerAcceptedFile | src/lib/rollup-plugins/rollup-plugin-html-template.js:55-67 | one more bundle file adds exactly its script line when the filter accepts it, and nothing otherwise |
| HtmlTemplate.InsertionPoint | src/lib/rollup-plugins/rollup-plugin-html-template.js:51-68 | the scripts go right before the last `</body>`; without one, before the last character |
| HtmlTemplate.HtmlSplitsTemplate | src/lib/rollup-plugins/rollup-plugin-html-template.js:65-69 | the page is the template up to the insertion point, the lines, then the rest of the template |
| HtmlTemplate.RemovingLinesRestoresTemplate | src/lib/rollup-plugins/rollup-plugin-html-template.js:65-69 | removing the injected lines from the page gives back the template, character for character |
| HtmlTemplate.NoFilesKeepsTemplate | src/lib/rollup-plugins/rollup-plugin-html-template.js:65-69 | with no accepted file the template is written unchanged |
| HtmlTemplate.GenerateBundle | src/lib/rollup-plugins/rollup-plugin-html-template.js:38-81 | a dry run does nothing; an unreadable template rejects with nothing written; otherwise the page is written to the target, or the write's error is the rejection, with the warning printed when verbose and no file was accepted |
| ImportScss.Configure | src/lib/rollup-plugins/rollup-plugin-import-scss.js:9-19 | no postcss plugins, the `.css` and `.scss` extensions and no globals, each unless the caller gives its own |
| ImportScss.EndsWithAny | src/lib/rollup-plugins/rollup-plugin-import-scss.js:86-89 | the `find(...) != null` test holds exactly when some suffix ends the id |
| ImportScss.DefaultsHandleStyleSheets | src/lib/rollup-plugins/rollup-plugin-import-scss.js:15-18 | with the defaults exactly the `.css` and `.scss` files are handled, none of them as global |
| ImportScss.ExportGlobalOverwrite | src/lib/rollup-plugins/rollup-plugin-import-scss.js:35-43 | the global module binds the CSS verbatim after its prefix and ends with `export default css;` |
| ImportScss.UnwrapOverwrite | src/lib/rollup-plugins/rollup-plugin-import-scss.js:26-43 | each wrapper embeds the CSS verbatim, so it can be cut back out |
| ImportScss.WrappersDiffer | src/lib/rollup-plugins/rollup-plugin-import-scss.js:26-43 | the two wrappers never write the same module |
| ImportScss.ProcessFile | src/lib/rollup-plugins/rollup-plugin-import-scss.js:53-75 | white-space-only code becomes the wrapper around `""` without a map; otherwise the wrapper around the processed CSS with a map; a rejected processor never settles |
| ImportScss.EmptyInputSkipsProcessor | src/lib/rollup-plugins/rollup-plugin-import-scss.js:56-61 | empty code never reaches the processor |
| ImportScss.ResultDependsOnlyOnProcessedCss | src/lib/rollup-plugins/rollup-plugin-import-scss.js:66-72 | the whole text is overwritten: the result depends on the code only through the processed CSS |
| ImportScss.ImportScssPlugin | src/lib/rollup-plugins/rollup-plugin-import-scss.js:82-92 | the plugin keeps the merged options and the processor built from their plugins |
| ImportScss.ResolveId | src/lib/rollup-plugins/rollup-plugin-import-scss.js:96-99 | an id is resolved exactly when there is an importer and an extension matches, against the importer's directory |
| ImportScss.Transform | src/lib/rollup-plugins/rollup-plugin-import-scss.js:100-109 | nothing for an unhandled file; global style sheets are printed in quotes and wrapped globally, the others as the default export |
| MinifyLitHtml.Size | src/lib/rollup-plugins/minify-lit-html/rollup-plugin-minify-lit-html.js:61-97 | every syntax tree has at least one node, which is the measure the walk decreases |
| MinifyLitHtml.Content | src/lib/rollup-plugins/minify-lit-html/rollup-plugin-minify-lit-html.js:75 | for a well-formed range, the text between the backticks |
| MinifyLitHtml.Enter | src/lib/rollup-plugins/minify-lit-html/rollup-plugin-minify-lit-html.js:62-95 | a node is replaced exactly when it is a tagged template with an `html` tag; the replacement holds one piece with the minified text and the range `[start, mini.length]`; a minifier error is the walk's error |
| MinifyLitHtml.AllMinifyAppend | src/lib/rollup-plugins/minify-lit-html/rollup-plugin-minify-lit-html.js:74-77 | the texts of `a + b` all minify exactly when those of `a` and those of `b` do |
| MinifyLitHtml.VisitSucceedsIff | src/lib/rollup-plugins/minify-lit-html/rollup-plugin-minify-lit-html.js:61-97 | the walk of a tree succeeds exactly when every template text it hands to the minifier minifies |
| MinifyLitHtml.VisitAllSucceedsIff | src/lib/rollup-plugins/minify-lit-html/rollup-plugin-minify-lit-html.js:61-97 | the same for a list of sibling nodes |
| MinifyLitHtml.NoTemplatesUnchanged | src/lib/rollup-plugins/minify-lit-html/rollup-plugin-minify-lit-html.js:61-97 | a tree without `html` templates comes back unchanged |
| MinifyLitHtml.NoTemplatesUnchangedAll | src/lib/rollup-plugins/minify-lit-html/rollup-plugin-minify-lit-html.js:61-97 | the same for a list of sibling nodes |
| MinifyLitHtml.VisitKeepsIdentifiers | src/lib/rollup-plugins/minify-lit-html/rollup-plugin-minify-lit-html.js:80-91 | the walk turns an identifier into itself and no other node into an identifier |
| MinifyLitHtml.VisitKeepsTag | src/lib/rollup-plugins/minify-lit-html/rollup-plugin-minify-lit-html.js:68-71 | whether a tag names `html` does not change during the walk |
| MinifyLitHtml.VisitCollapses | src/lib/rollup-plugins/minify-lit-html/rollup-plugin-minify-lit-html.js:80-91 | after a successful walk every `html` template holds a single piece whose range starts where its template starts and ends at the length of its text |
| MinifyLitHtml.VisitAllCollapses | src/lib/rollup-plugins/minify-lit-html/rollup-plugin-minify-lit-html.js:80-91 | the same for a list of sibling nodes |
| MinifyLitHtml.MinifiedOutputs | src/lib/rollup-plugins/minify-lit-html/rollup-plugin-minify-lit-html.js:85 | when every text minifies, one output per text, each the minifier's result for that text |
| MinifyLitHtml.MinifiedAppend | src/lib/rollup-plugins/minify-lit-html/rollup-plugin-minify-lit-html.js:85 | the outputs of `a + b` are those of `a` followed by those of `b` |
| MinifyLitHtml.VisitRaws | src/lib/rollup-plugins/minify-lit-html/rollup-plugin-minify-lit-html.js:61-97 | after a successful walk, the raw texts of the `html` templates, in walk order, are exactly the minifier's outputs for the texts it was given |
| MinifyLitHtml.VisitAllRaws | src/lib/rollup-plugins/minify-lit-html/rollup-plugin-minify-lit-html.js:61-97 | the same for a list of sibling nodes |
| MinifyLitHtml.VisitAllAppend | src/lib/rollup-plugins/minify-lit-html/rollup-plugin-minify-lit-html.js:61-97 | siblings are walked from first to last: the walk of `a + b` is the walk of `a` followed by that of `b` |
| MinifyLitHtml.ProcessFile | src/lib/rollup-plugins/minify-lit-html/rollup-plugin-minify-lit-html.js:125-161 | the empty source map and the original code exactly when parsing, walking or generating throws; otherwise the generated code and map; the parse message is printed exactly when verbose and failing |
| MinifyLitHtml.FallbackIff | src/lib/rollup-plugins/minify-lit-html/rollup-plugin-minify-lit-html.js:128-159 | the fallback is taken exactly when the parse fails, or a template text does not minify, or generation fails |
| MinifyLitHtml.NoTemplatesRegenerated | src/lib/rollup-plugins/minify-lit-html/rollup-plugin-minify-lit-html.js:133-143 | a module without `html` templates is regenerated from the tree the parser gave |
| MinifyLitHtml.DeduceSourceType | src/lib/rollup-plugins/minify-lit-html/rollup-plugin-minify-lit-html.js:106-116 | `"script"` exactly when the code parses as a script, `"module"` exactly when it does not |
| MinifyLitHtml.Configure | src/lib/rollup-plugins/minify-lit-html/rollup-plugin-minify-lit-html.js:21-49 | each of `include`, `exclude`, `verbose`, `esprima` and `htmlMinifier` is the caller's value when given, else the default patterns, no excludes, verbose and the default parser and minifier options |
| MinifyLitHtml.MinifyLitHtml | src/lib/rollup-plugins/minify-lit-html/rollup-plugin-minify-lit-html.js:168-172 | the plugin keeps the merged options and the filter built from its patterns |
| MinifyLitHtml.ResolveId | src/lib/rollup-plugins/minify-lit-html/rollup-plugin-minify-lit-html.js:176-179 | an id is resolved exactly when there is an importer and the filter accepts it, against the importer's directory |
| MinifyLitHtml.Transform | src/lib/rollup-plugins/minify-lit-html/rollup-plugin-minify-lit-html.js:180-183 | nothing for a rejected file; otherwise `processFile` with the merged parser, minifier and verbose options |
| ReadmeTemplates.ReadmeTitleTemplate | src/lib/readme/templates.js:9-11 | the title inside a centred `h1` |
| ReadmeTemplates.TitleTemplate | src/lib/readme/templates.js:27-31 | `Array(level)` throws exactly for a level outside the array range; otherwise the separator line for levels up to 2, `level` `#` characters, the separator and the title |
| ReadmeTemplates.LeadingHashes | src/lib/readme/templates.js:30 | the number of leading `#` characters, all of them and no more |
| ReadmeTemplates.TitleIsReadable | src/lib/readme/templates.js:27-31 | a heading can be read back: its `#` characters count the level and the title follows the separator |
| ReadmeTemplates.BadgeAnchors | src/lib/readme/templates.js:40 | one replaced anchor per badge, in order |
| ReadmeTemplates.BadgesCompose | src/lib/readme/templates.js:38-43 | the anchors of `a + b` are those of `a`, a comma, then those of `b` |
| ReadmeTemplates.SingleBadge | src/lib/readme/templates.js:38-43 | a single badge is its anchor between the paragraph tags, with no comma |
| ReadmeTemplates.LicenseTemplate | src/lib/readme/templates.js:51-55 | the level-2 `License` heading, then the license line with its URL or `undefined` |
| ReadmeTemplates.DescriptionTemplate | src/lib/readme/templates.js:73-80 | the block opens with the description and closes with the `<sub>` close; with neither text nor demo nothing is in between, and with a text and no demo exactly the text is |
| ReadmeTemplates.DemoIsInsertedBeforeClose | src/lib/readme/templates.js:76 | a demo URL adds exactly the space and the demo sentence before the closing part |
| ReadmeTemplates.EmptyTextIsOmitted | src/lib/readme/templates.js:76 | an empty text and a missing text give the same block |
| ReadmeTemplates.Bullets | src/lib/readme/templates.js:87 | one `* ` line per bullet, in order |
| ReadmeTemplates.BulletsTemplate | src/lib/readme/templates.js:86-88 | no bullets give the empty string; one bullet gives its line alone |
| ReadmeTemplates.BulletsCompose | src/lib/readme/templates.js:86-88 | the bullets of `a + b` are those of `a`, a line break, then those of `b` |
| ReadmeTemplates.SectionTemplate | src/lib/readme/templates.js:94-98 | the level-2 heading, a blank line, then the content verbatim |
| CreateRollupConfig.ServeFlag | src/lib/create-rollup-config.js:28 | truthy exactly when `ROLLUP_WATCH` is set and not empty, and then it is that text; otherwise `false` |
| CreateRollupConfig.ModesExclude | src/lib/create-rollup-config.js:25-27 | at most one of production, development and library holds |
| CreateRollupConfig.ConfigOrDefault | src/lib/create-rollup-config.js:35-37 | a truthy config is kept; anything else becomes an empty object |
| CreateRollupConfig.WithUserGet | src/lib/create-rollup-config.js:35-37 | a key of the caller's options wins over the default for it |
| CreateRollupConfig.When | src/lib/create-rollup-config.js:167 | the conditional spread holds the one key exactly when its condition holds |
| CreateRollupConfig.DefaultOutputConfig | src/lib/create-rollup-config.js:61-69 | hashed entry and chunk names and source maps, each overridden by the caller's keys, which are all kept |
| CreateRollupConfig.DefaultExternals | src/lib/create-rollup-config.js:221-224 | the dependency names, then the development dependency names; a name is external exactly when it is one of these |
| CreateRollupConfig.Names | src/lib/create-rollup-config.js:74-116 | the factory names of a plugin list, in order |
| CreateRollupConfig.NamesAppend | src/lib/create-rollup-config.js:133-140 | the names of spread lists are the lists of names, concatenated |
| CreateRollupConfig.PostcssPlugins | src/lib/create-rollup-config.js:42-56 | precss and autoprefixer, then cssnano with `calc: false` in production only |
| CreateRollupConfig.PostcssValues | src/lib/create-rollup-config.js:93 | the postcss plugins, in order, as the array the style importer gets |
| CreateRollupConfig.ImportStylesOptions | src/lib/create-rollup-config.js:92-95 | the style importer gets the postcss plugins unless the caller names its own |
| CreateRollupConfig.DefaultResolvePlugins | src/lib/create-rollup-config.js:74-116 | replace, resolve, importStyles, json, ts and commonjs in this order, the style importer with its options |
| CreateRollupConfig.BasePluginList | src/lib/create-rollup-config.js:121-151 | ten plugins: progress, cleaner, the six resolve plugins, copy and htmlTemplate |
| CreateRollupConfig.BasePluginOptions | src/lib/create-rollup-config.js:129-150 | the cleaner, copy and htmlTemplate plugins get the caller's options for them |
| CreateRollupConfig.BaseHoldsResolvePlugins | src/lib/create-rollup-config.js:133-140 | the resolve plugins sit between the cleaner and copy, unchanged |
| CreateRollupConfig.DefaultPlugins | src/lib/create-rollup-config.js:121-151 | building the list throws exactly when the template or the target is missing, with the `htmlTemplate` error; otherwise it is the ten base plugins |
| CreateRollupConfig.ServeOptions | src/lib/create-rollup-config.js:159-169 | the caller's `contentBase`, else `dist` when it is given, else no content base |
| CreateRollupConfig.LivereloadOptions | src/lib/create-rollup-config.js:172-175 | the caller's `watch`, else `dist` when it is given, else nothing to watch |
| CreateRollupConfig.DefaultServePlugins | src/lib/create-rollup-config.js:156-176 | serve, then livereload, with their options |
| CreateRollupConfig.LicenseOptions | src/lib/create-rollup-config.js:189-193 | the caller's `thirdParty`, else `dist/licenses.txt` when `dist` is given |
| CreateRollupConfig.VisualizerOptions | src/lib/create-rollup-config.js:206-210 | the caller's `filename`, else `dist/stats.html` when `dist` is given |
| CreateRollupConfig.DefaultProdPlugins | src/lib/create-rollup-config.js:181-216 | minifyLitHTML, license, terser, budget, visualizer and compress in this order, compress with the `gzipConfig` options |
| RollupConfig.BaseOptionsKeys | rollup.config.js:38-65 | the base plugins get the cleaner, copy, template and style options of this configuration |
| RollupConfig.BasePluginsBuild | rollup.config.js:57-61 | the template and the target are given, so the base plugins never throw |
| RollupConfig.BasePlugins | rollup.config.js:38-65 | the base part is the ten base plugins built from this configuration's options |
| RollupConfig.ServePlugins | rollup.config.js:69-79 | the serve plugins are present exactly when serving |
| RollupConfig.ProdPlugins | rollup.config.js:82-94 | the production plugins are present exactly in production |
| RollupConfig.Config | rollup.config.js:27-105 | the plugins are the base, serve and production parts in this order; externals only for a library; tree shaking only in production; code splitting; `window` context; the `main` input; one output |
| RollupConfig.CompressIsLastIffProd | rollup.config.js:82-94 | compression is the last plugin exactly in production |
| RollupConfig.CleanerTargets | rollup.config.js:49-56 | the cleaner's targets are `[dist]` when not serving and absent when serving |
| RollupConfig.BaseCleanerTargets | rollup.config.js:49-56 | the same, for the base part on its own |
| RollupConfig.HtmlTemplateSettings | rollup.config.js:57-61 | the template is `src/demo/index.html`, the target `dist/index.html`, the include pattern the entry-bundle pattern |
| RollupConfig.HtmlTemplateConfigKeys | rollup.config.js:57-61 | the same, for the template options on their own |
| RollupConfig.GlobalStyleSettings | rollup.config.js:62-64 | `main.scss` is the one global style sheet |
| RollupConfig.BaseGlobalStyles | rollup.config.js:62-64 | the same, for the base part on its own |
| RollupConfig.StyleGlobals | rollup.config.js:62-64 | the style importer's globals are those of this configuration |
| RollupConfig.CopySettings | rollup.config.js:46-48 | the demo assets are copied to `dist/assets` |
| RollupConfig.ServeSettings | rollup.config.js:69-79 | when serving, the server runs on port 1338 and both serving and reloading watch `dist` |
| RollupConfig.ServeSlot | rollup.config.js:68-79 | the serve plugins follow the ten base plugins |
| RollupConfig.ServePort | rollup.config.js:71-74 | the server's port is 1338 |
| RollupConfig.ServeFolders | rollup.config.js:71-77 | the server's content base and the reloader's watched folder are `dist` |
| RollupConfig.ProdSettings | rollup.config.js:82-94 | in production the license and size reports are written into `dist` |
| RollupConfig.ProdOptionsKeys | rollup.config.js:83-92 | the license output is `dist/licenses.txt` and the size report `dist/stats.html` |
| RollupConfig.OutputSettings | rollup.config.js:31-36 | the output goes to `dist` as ES modules with hashed entry names and source maps |
| RollupConfig.HashedMainEntryMatches | rollup.config.js:60 | the hashed entry bundles `main-<hash>.js` match the include pattern |
| RollupConfig.SourceMapDoesNotMatch | rollup.config.js:60 | a source map next to an entry bundle does not match |

## Left out

- Timers: the compress plugin's `setTimeout` (src/lib/rollup-plugins/rollup-plugin-compress.js:77-94) is modelled as its callback running once. The `timeout` option is not modelled.
- The order in which asynchronous calls complete: `Compress.CompleteAll` completes the started `targz` and `appendFile` calls in the order they were started, although they may complete in any order.
- When `targz` reads its source: the model reads it when the call completes.
- A crash in the compress loop: the model drops every started call. In reality a write already in flight might partly land before the process ends.
- `fse.appendFile` into a directory that does not exist fails with ENOENT. `Files.AppendFile` creates the missing directories, as `outputFileSync` does.
- Console colours: logged messages are kept as plain text.
- Source-map contents: escodegen's and MagicString's maps are opaque. The model only records whether a map is the generated one or the empty fallback.
- The third-party plugins are represented by their factory name and options, not by their behaviour. This covers progress, cleaner, resolve, json, ts, commonjs, terser, budget, visualizer, license, serve, livereload, replace and importStyles.
- `create-rollup-config.js:15-22` imports the repository's plugins from directories that are not the files modelled here. The model treats `copy`, `compress`, `htmlTemplate` and `minifyLitHTML` as the plugins defined in those files.
- `src/lib/readme/readme.js`, `post-build.js`, `src/lib/eslint.js` and the live-reload plugin are context, not core, and are not part of this model.
- Spreading a value that is not an object: `JsValues.Fields` gives such a value no own properties. That is exact for `undefined`, `null`, numbers and booleans, but strings and arrays really contribute index keys.
- Key order: objects are maps, so `Object.keys` order is not modelled. `DefaultExternals` takes the dependency names as an already ordered list.
- A key explicitly set to `undefined` in a caller's options is modelled as the key being left out, except in the values handled by `JsValues`.
- Numbers are integers: NaN, floating point and number-to-string conversion do not occur.
- `RollupConfig.JoinValue` stands for `path.join`. On a value that is not a string it gives `undefined`, whereas `path.join` throws. Only strings reach it in this configuration.
- Destructuring a `null` options argument throws in JavaScript. The model's option functions take any value and read missing keys as undefined.
- Regular expressions: `createFilter` is a parameter. `RollupConfig.MatchesMainEntry` states the meaning of `/main(-.*)?\.js$/` directly rather than through a regex engine.
- `fse.copy` errors for a source directory over an existing file, the reverse, and a destination with a file among its ancestors are folded into `Files.CopyTree`'s one success condition.
- Badges are assumed to have `url`, `name` and `img`; a missing field would print `undefined`.
- ReadmeTemplates.DescriptionTemplate: its own contract gives the frame and the cases without a demo. The demo case is stated by DemoIsInsertedBeforeClose and the empty text by EmptyTextIsOmitted.
