/**
 * The `htmlTemplate` plugin: once the bundle is written, read the HTML template,
 * insert one `<script>` line per bundle file the filter accepts just before the last
 * `</body>`, and write the result to the target path.
 */
module HtmlTemplate {
  import opened Wrappers
  import opened Strings
  import opened Files
  import opened Plugins

  const BodyClose: string := "</body>"
  const DefaultScriptType: string := "module"
  const ConfigError: string := "The htmlTemplate plugin needs both a template and a target"

  /** The options a caller passes; `None` is a key left out of the object, or set to null. */
  datatype HtmlTemplateConfig = HtmlTemplateConfig(
    template: Option<string>, target: Option<string>, verbose: Option<bool>,
    includes: Option<seq<Pattern>>, excludes: Option<seq<Pattern>>, scriptType: Option<string>)

  /** The plugin as `htmlTemplate(config)` builds it. */
  datatype Plugin = Plugin(
    template: string, target: string, verbose: bool,
    includes: seq<Pattern>, excludes: seq<Pattern>, scriptType: string, filter: string -> bool)

  /**
   * `htmlTemplate(config)`: the options merged over the defaults; it throws when the
   * template or the target is missing.
   */
  function HtmlTemplatePlugin(config: HtmlTemplateConfig, createFilter: CreateFilter): (r: Result<Plugin>)
    ensures r.Err? <==> config.template.None? || config.target.None?
    ensures r.Err? ==> r.error == ConfigError
    ensures r.Ok? ==> r.value.template == config.template.value && r.value.target == config.target.value
    ensures r.Ok? ==> r.value.scriptType == if config.scriptType.Some? then config.scriptType.value else DefaultScriptType
    ensures r.Ok? ==> r.value.verbose == (config.verbose.None? || config.verbose.value)
    ensures r.Ok? ==> r.value.includes == (if config.includes.Some? then config.includes.value else [])
                      && r.value.excludes == (if config.excludes.Some? then config.excludes.value else [])
                      && r.value.filter == createFilter(r.value.includes, r.value.excludes)
  {
    var includes := if config.includes.Some? then config.includes.value else [];
    var excludes := if config.excludes.Some? then config.excludes.value else [];
    if config.template.None? || config.target.None? then Err(ConfigError)
    else Ok(Plugin(
      config.template.value, config.target.value,
      if config.verbose.Some? then config.verbose.value else true,
      includes, excludes,
      if config.scriptType.Some? then config.scriptType.value else DefaultScriptType,
      createFilter(includes, excludes)))
  }

  /** One entry of the bundle: its key and the name of the file it is written to. */
  datatype BundleEntry = BundleEntry(key: string, fileName: string)

  /** `Object.entries(bundle).map(([key, value]) => value.fileName)` */
  function FileNames(bundle: seq<BundleEntry>): (r: seq<string>)
    ensures |r| == |bundle| && forall i :: 0 <= i < |r| ==> r[i] == bundle[i].fileName
  {
    seq(|bundle|, i requires 0 <= i < |bundle| => bundle[i].fileName)
  }

  /** `names.filter(filter)`: the accepted names, in their order. */
  function Accepted(names: seq<string>, filter: string -> bool): (r: seq<string>)
    ensures forall x :: x in r <==> x in names && filter(x)
    ensures |r| <= |names|
  {
    if names == [] then []
    else (if filter(names[0]) then [names[0]] else []) + Accepted(names[1..], filter)
  }

  lemma {:induction false} AcceptedAppend(a: seq<string>, b: seq<string>, filter: string -> bool)
    ensures Accepted(a + b, filter) == Accepted(a, filter) + Accepted(b, filter)
  {
    if a == [] {
      assert a + b == b;
    } else {
      assert (a + b)[0] == a[0] && (a + b)[1..] == a[1..] + b;
      AcceptedAppend(a[1..], b, filter);
    }
  }

  /** The line injected for one file. */
  function ScriptTag(fileName: string, scriptType: string): string {
    "<script src=\"" + fileName + "\" type=\"" + scriptType + "\"></script>\n"
  }

  /** `fileNames.map(filename => <its script line>)` */
  function ScriptTags(names: seq<string>, scriptType: string): (r: seq<string>)
    ensures |r| == |names| && forall i :: 0 <= i < |r| ==> r[i] == ScriptTag(names[i], scriptType)
  {
    seq(|names|, i requires 0 <= i < |names| => ScriptTag(names[i], scriptType))
  }

  /** All the injected lines, one after the other. */
  function ScriptLines(names: seq<string>, scriptType: string): string {
    Concat(ScriptTags(names, scriptType))
  }

  /** The lines for `a + b` are the lines for `a` followed by the lines for `b`. */
  lemma ScriptLinesAppend(a: seq<string>, b: seq<string>, scriptType: string)
    ensures ScriptLines(a + b, scriptType) == ScriptLines(a, scriptType) + ScriptLines(b, scriptType)
  {
    assert ScriptTags(a + b, scriptType) == ScriptTags(a, scriptType) + ScriptTags(b, scriptType);
    ConcatAppend(ScriptTags(a, scriptType), ScriptTags(b, scriptType));
  }

  /**
   * One more bundle file adds one line at the end when the filter accepts it and
   * nothing otherwise: the lines follow the bundle order, one per accepted file.
   */
  lemma OneLinePerAcceptedFile(names: seq<string>, name: string, filter: string -> bool, scriptType: string)
    ensures ScriptLines(Accepted(names + [name], filter), scriptType)
      == ScriptLines(Accepted(names, filter), scriptType) + if filter(name) then ScriptTag(name, scriptType) else ""
  {
    AcceptedAppend(names, [name], filter);
    ScriptLinesAppend(Accepted(names, filter), Accepted([name], filter), scriptType);
    assert [name][1..] == [];
    if filter(name) {
      assert Accepted([name], filter) == [name] + Accepted([], filter);
      assert ScriptTags([name], scriptType) == [ScriptTag(name, scriptType)];
      var tag := ScriptTag(name, scriptType);
      assert [tag][1..] == [];
      assert Concat([tag]) == tag + Concat([]);
      assert ScriptLines([name], scriptType) == tag;
      assert Accepted([name], filter) == [name];
      assert ScriptLines(Accepted(names + [name], filter), scriptType)
          == ScriptLines(Accepted(names, filter), scriptType) + tag;
    } else {
      assert Accepted([name], filter) == [] + Accepted([], filter);
      assert ScriptLines([], scriptType) == "";
    }
  }

  /**
   * Where the lines go: `slice` turns `template.lastIndexOf('</body>')` into a
   * position. It is the start of the last `</body>` when there is one, and otherwise,
   * since the index is -1, the position before the final character.
   */
  function InsertionPoint(template: string): (k: nat)
    ensures k <= |template|
    ensures (exists j :: OccursAt(template, BodyClose, j)) ==>
      OccursAt(template, BodyClose, k) && forall j :: k < j ==> !OccursAt(template, BodyClose, j)
    ensures (forall j :: !OccursAt(template, BodyClose, j)) ==> k == if |template| == 0 then 0 else |template| - 1
  {
    SliceIndex(LastIndexOf(template, BodyClose), |template|)
  }

  /** The generated page: `[template.slice(0, i), ...lines, template.slice(i, template.length)].join('')`. */
  function Html(template: string, fileNames: seq<string>, scriptType: string): string {
    var i := LastIndexOf(template, BodyClose);
    Concat([JsSlice(template, 0, i)] + ScriptTags(fileNames, scriptType) + [JsSlice(template, i, |template|)])
  }

  /** The page is the template cut at the insertion point with the lines in between. */
  lemma HtmlSplitsTemplate(template: string, fileNames: seq<string>, scriptType: string)
    ensures Html(template, fileNames, scriptType)
      == template[..InsertionPoint(template)] + ScriptLines(fileNames, scriptType) + template[InsertionPoint(template)..]
  {
    var i := LastIndexOf(template, BodyClose);
    var k := InsertionPoint(template);
    var tags := ScriptTags(fileNames, scriptType);
    assert JsSlice(template, 0, i) == template[..k];
    assert JsSlice(template, i, |template|) == template[k..];
    ConcatAppend([template[..k]] + tags, [template[k..]]);
    ConcatAppend([template[..k]], tags);
    assert Concat([template[..k]]) == template[..k] + Concat([]);
    assert Concat([template[k..]]) == template[k..] + Concat([]);
  }

  /** Deleting the injected lines from the page gives back the template, character for character. */
  lemma RemovingLinesRestoresTemplate(template: string, fileNames: seq<string>, scriptType: string)
    ensures var out := Html(template, fileNames, scriptType);
            var k := InsertionPoint(template);
            var n := |ScriptLines(fileNames, scriptType)|;
            k + n <= |out| && out[k..k + n] == ScriptLines(fileNames, scriptType) && out[..k] + out[k + n..] == template
  {
    HtmlSplitsTemplate(template, fileNames, scriptType);
    var k := InsertionPoint(template);
    var lines := ScriptLines(fileNames, scriptType);
    var out := Html(template, fileNames, scriptType);
    assert out[..k] == template[..k];
    assert out[k..k + |lines|] == lines;
    assert out[k + |lines|..] == template[k..];
  }

  /** No accepted file: the template is written unchanged. */
  lemma NoFilesKeepsTemplate(template: string, scriptType: string)
    ensures Html(template, [], scriptType) == template
  {
    HtmlSplitsTemplate(template, [], scriptType);
    assert template[..InsertionPoint(template)] + template[InsertionPoint(template)..] == template;
  }

  /** The warning printed when no bundle file is accepted. */
  function NoFilesWarning(p: Plugin, unfiltered: seq<string>): string {
    "[htmlTemplate] - No files were included in the \"" + p.target
    + "\" file. Make sure to specify the files that should be included using the include option. Currently the include option has been set to \""
    + PatternsText(p.includes) + "\" and the exclude option to \"" + PatternsText(p.excludes)
    + "\". The filenames passed to the plugin are \"" + Join(unfiltered, ", ") + "\"\n"
  }

  /** `buffer.toString("utf8")` and the encoding `outputFileSync` writes strings with. */
  datatype Utf8 = Utf8(decode: Bytes -> string, encode: string -> Bytes)

  /** How `generateBundle` ended: nothing on a dry run, or a rejection or a written page with what it printed. */
  datatype Outcome = Skipped | Rejected(error: string, log: seq<string>) | Written(log: seq<string>)

  /** What `generateFile` prints: the warning when verbose and no file was accepted. */
  function Warnings(p: Plugin, bundle: seq<BundleEntry>): seq<string> {
    var names := Accepted(FileNames(bundle), p.filter);
    if p.verbose && |names| == 0 then [NoFilesWarning(p, FileNames(bundle))] else []
  }

  /**
   * `generateBundle`: nothing on a dry run; otherwise read the template, build the page
   * and write it to the target. A read error rejects before anything is written; a
   * write error rejects too.
   */
  method GenerateBundle(fs: FileSystem, p: Plugin, bundle: seq<BundleEntry>, isWrite: bool, utf8: Utf8)
    returns (outcome: Outcome)
    modifies fs
    ensures !isWrite ==> outcome == Skipped && fs.files == old(fs.files)
    ensures isWrite ==> match ReadFile(old(fs.files), fs.faulty, p.template)
      case Err(e) => outcome == Rejected(e, []) && fs.files == old(fs.files)
      case Ok(buffer) =>
        var html := Html(utf8.decode(buffer), Accepted(FileNames(bundle), p.filter), p.scriptType);
        match WriteFile(old(fs.files), fs.faulty, p.target, utf8.encode(html))
        case Ok(t) => outcome == Written(Warnings(p, bundle)) && fs.files == t
        case Err(e) => outcome == Rejected(e, Warnings(p, bundle)) && fs.files == old(fs.files)
  {
    if !isWrite {
      return Skipped;
    }
    var read := ReadFile(fs.files, fs.faulty, p.template);
    if read.Err? {
      return Rejected(read.error, []);
    }
    var template := utf8.decode(read.value);
    var fileNames := Accepted(FileNames(bundle), p.filter);
    var log := Warnings(p, bundle);
    var html := Html(template, fileNames, p.scriptType);
    var written := WriteFile(fs.files, fs.faulty, p.target, utf8.encode(html));
    if written.Err? {
      return Rejected(written.error, log);
    }
    fs.files := written.value;
    outcome := Written(log);
  }
}
