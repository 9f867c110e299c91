/**
 * The `minifyLitHTML` plugin: every lit-html template (a template literal tagged
 * `html` or `<something>.html`) in a JavaScript module has its text replaced by the
 * minified text, cut from the original source between the backticks. The parser,
 * the code generator and the HTML minifier are parameters; the traversal is the
 * pre-order walk of `estraverse.replace`, which carries on into the children of a
 * node that its `enter` callback replaced.
 */
module MinifyLitHtml {
  import opened Wrappers
  import opened Strings
  import opened JsValues
  import opened Plugins

  /** A `[start, end]` range of a node in the source text. */
  datatype Range = Range(start: int, end: int)

  /** A `TemplateElement`: one literal piece of a template, with its raw text. */
  datatype TemplateElement = TemplateElement(raw: string, range: Range)

  /** The part of the syntax tree the plugin looks at; every other node is `Other` with its children. */
  datatype Node =
    | Identifier(name: string)
    | MemberExpression(object: Node, property: Node, computed: bool)
    | TaggedTemplateExpression(tag: Node, quasi: TemplateLiteral)
    | Other(kind: string, children: seq<Node>)

  /** A `TemplateLiteral`: its range, its literal pieces and the expressions between them. */
  datatype TemplateLiteral = TemplateLiteral(range: Range, quasis: seq<TemplateElement>, expressions: seq<Node>)

  /** The number of nodes of a tree; template elements are leaves and do not count. */
  function Size(n: Node): (r: nat)
    ensures r >= 1
  {
    match n
    case Identifier(_) => 1
    case MemberExpression(o, p, _) => 1 + Size(o) + Size(p)
    case TaggedTemplateExpression(tag, q) => 1 + Size(tag) + SizeAll(q.expressions)
    case Other(_, ch) => 1 + SizeAll(ch)
  }

  function SizeAll(ns: seq<Node>): nat {
    if ns == [] then 0 else Size(ns[0]) + SizeAll(ns[1..])
  }

  /** The tag names an `html` template: the identifier `html` or a member access whose property is `html`. */
  predicate IsHtmlTag(tag: Node) {
    (tag.Identifier? && tag.name == "html")
    || (tag.MemberExpression? && tag.property.Identifier? && tag.property.name == "html")
  }

  /**
   * The text the minifier is given for a template: the original source strictly
   * inside the backticks, `chunks.slice(range[0] + 1, range[1] - 1).join('')`.
   */
  function Content(code: string, q: TemplateLiteral): (r: string)
    ensures 0 <= q.range.start && q.range.end <= |code| && q.range.start + 1 <= q.range.end - 1 ==>
      r == code[q.range.start + 1..q.range.end - 1]
  {
    JsSlice(code, q.range.start + 1, q.range.end - 1)
  }

  /** `htmlMinifier.minify(text, options)`: the minified text, or the error it throws. */
  type Minifier = (string, Value) -> Result<string>

  /**
   * The `enter` callback: `None` keeps the node; for an `html` template, the node
   * with its quasi's pieces collapsed into a single piece holding the minified text,
   * ranged `[range[0], mini.length]`, everything else of the node kept.
   */
  function Enter(code: string, options: Value, minify: Minifier, n: Node): (r: Result<Option<Node>>)
    ensures r != Ok(None) <==> n.TaggedTemplateExpression? && IsHtmlTag(n.tag)
    ensures r.Err? ==> n.TaggedTemplateExpression? && minify(Content(code, n.quasi), options) == Err(r.error)
    ensures r.Ok? && r.value.Some? ==> n.TaggedTemplateExpression? && minify(Content(code, n.quasi), options).Ok?
    ensures r.Ok? && r.value.Some? && n.TaggedTemplateExpression? && minify(Content(code, n.quasi), options).Ok? ==>
      var m := r.value.value;
      var mini := minify(Content(code, n.quasi), options).value;
      m.TaggedTemplateExpression? && m.tag == n.tag
      && m.quasi.range == n.quasi.range && m.quasi.expressions == n.quasi.expressions
      && m.quasi.quasis == [TemplateElement(mini, Range(n.quasi.range.start, |mini|))]
      && Size(m) == Size(n)
  {
    match n
    case TaggedTemplateExpression(tag, q) =>
      if IsHtmlTag(tag) then
        (match minify(Content(code, q), options)
         case Err(e) => Err(e)
         case Ok(mini) =>
           Ok(Some(TaggedTemplateExpression(tag, TemplateLiteral(q.range, [TemplateElement(mini, Range(q.range.start, |mini|))], q.expressions)))))
      else Ok(None)
    case _ => Ok(None)
  }

  /**
   * `estraverse.replace(node, {enter})`: call `enter` on the node, then walk the
   * children of whatever node is now in its place; the first error thrown ends the walk.
   */
  function Visit(code: string, options: Value, minify: Minifier, n: Node): Result<Node>
    decreases Size(n), 2
  {
    match Enter(code, options, minify, n)
    case Err(e) => Err(e)
    case Ok(None) => VisitChildren(code, options, minify, n)
    case Ok(Some(m)) => VisitChildren(code, options, minify, m)
  }

  /** Walk the children of `n` in the order of their keys: object then property, tag then quasi. */
  function VisitChildren(code: string, options: Value, minify: Minifier, n: Node): Result<Node>
    decreases Size(n), 1
  {
    match n
    case Identifier(_) => Ok(n)
    case MemberExpression(o, p, computed) =>
      (match Visit(code, options, minify, o)
       case Err(e) => Err(e)
       case Ok(o') =>
         match Visit(code, options, minify, p)
         case Err(e) => Err(e)
         case Ok(p') => Ok(MemberExpression(o', p', computed)))
    case TaggedTemplateExpression(tag, q) =>
      (match Visit(code, options, minify, tag)
       case Err(e) => Err(e)
       case Ok(tag') =>
         match VisitAll(code, options, minify, q.expressions)
         case Err(e) => Err(e)
         case Ok(es) => Ok(TaggedTemplateExpression(tag', TemplateLiteral(q.range, q.quasis, es))))
    case Other(kind, ch) =>
      match VisitAll(code, options, minify, ch)
      case Err(e) => Err(e)
      case Ok(ch') => Ok(Other(kind, ch'))
  }

  /** Walk a list of sibling nodes from first to last. */
  function VisitAll(code: string, options: Value, minify: Minifier, ns: seq<Node>): Result<seq<Node>>
    decreases SizeAll(ns), 3
  {
    if ns == [] then Ok([])
    else
      match Visit(code, options, minify, ns[0])
      case Err(e) => Err(e)
      case Ok(n') =>
        match VisitAll(code, options, minify, ns[1..])
        case Err(e) => Err(e)
        case Ok(rest) => Ok([n'] + rest)
  }

  /** The texts handed to the minifier during a walk of `n`, in the order of the calls. */
  function Inputs(code: string, n: Node): seq<string>
    decreases Size(n), 1
  {
    match n
    case Identifier(_) => []
    case MemberExpression(o, p, _) => Inputs(code, o) + Inputs(code, p)
    case TaggedTemplateExpression(tag, q) =>
      (if IsHtmlTag(tag) then [Content(code, q)] else []) + Inputs(code, tag) + InputsAll(code, q.expressions)
    case Other(_, ch) => InputsAll(code, ch)
  }

  function InputsAll(code: string, ns: seq<Node>): seq<string>
    decreases SizeAll(ns), 2
  {
    if ns == [] then [] else Inputs(code, ns[0]) + InputsAll(code, ns[1..])
  }

  /** Every text in `texts` minifies without an error. */
  predicate AllMinify(minify: Minifier, options: Value, texts: seq<string>) {
    forall i :: 0 <= i < |texts| ==> minify(texts[i], options).Ok?
  }

  lemma AllMinifyAppend(minify: Minifier, options: Value, a: seq<string>, b: seq<string>)
    ensures AllMinify(minify, options, a + b) <==> AllMinify(minify, options, a) && AllMinify(minify, options, b)
  {
    if AllMinify(minify, options, a) && AllMinify(minify, options, b) {
      forall i | 0 <= i < |a + b| ensures minify((a + b)[i], options).Ok? {
        if i >= |a| { assert (a + b)[i] == b[i - |a|]; }
      }
    }
    if AllMinify(minify, options, a + b) {
      forall i | 0 <= i < |b| ensures minify(b[i], options).Ok? {
        assert (a + b)[|a| + i] == b[i];
      }
      forall i | 0 <= i < |a| ensures minify(a[i], options).Ok? {
        assert (a + b)[i] == a[i];
      }
    }
  }

  /**
   * The walk succeeds exactly when every template it meets minifies; since each text
   * is cut from the untouched source, the earlier rewrites do not change what later
   * templates are given.
   */
  lemma {:induction false} VisitSucceedsIff(code: string, options: Value, minify: Minifier, n: Node)
    ensures Visit(code, options, minify, n).Ok? <==> AllMinify(minify, options, Inputs(code, n))
    decreases Size(n), 1
  {
    var e := Enter(code, options, minify, n);
    match n
    case Identifier(_) =>
    case MemberExpression(o, p, _) =>
      VisitSucceedsIff(code, options, minify, o);
      VisitSucceedsIff(code, options, minify, p);
      AllMinifyAppend(minify, options, Inputs(code, o), Inputs(code, p));
    case TaggedTemplateExpression(tag, q) =>
      VisitSucceedsIff(code, options, minify, tag);
      VisitAllSucceedsIff(code, options, minify, q.expressions);
      var head := if IsHtmlTag(tag) then [Content(code, q)] else [];
      AllMinifyAppend(minify, options, head, Inputs(code, tag));
      AllMinifyAppend(minify, options, head + Inputs(code, tag), InputsAll(code, q.expressions));
      if IsHtmlTag(tag) {
        assert head[0] == Content(code, q);
      }
    case Other(_, ch) =>
      VisitAllSucceedsIff(code, options, minify, ch);
  }

  lemma {:induction false} VisitAllSucceedsIff(code: string, options: Value, minify: Minifier, ns: seq<Node>)
    ensures VisitAll(code, options, minify, ns).Ok? <==> AllMinify(minify, options, InputsAll(code, ns))
    decreases SizeAll(ns), 2
  {
    if ns != [] {
      VisitSucceedsIff(code, options, minify, ns[0]);
      VisitAllSucceedsIff(code, options, minify, ns[1..]);
      AllMinifyAppend(minify, options, Inputs(code, ns[0]), InputsAll(code, ns[1..]));
    }
  }

  /** A tree without `html` templates comes back from the walk unchanged. */
  lemma {:induction false} NoTemplatesUnchanged(code: string, options: Value, minify: Minifier, n: Node)
    requires Inputs(code, n) == []
    ensures Visit(code, options, minify, n) == Ok(n)
    decreases Size(n), 1
  {
    match n
    case Identifier(_) =>
    case MemberExpression(o, p, _) =>
      NoTemplatesUnchanged(code, options, minify, o);
      NoTemplatesUnchanged(code, options, minify, p);
    case TaggedTemplateExpression(tag, q) =>
      NoTemplatesUnchanged(code, options, minify, tag);
      NoTemplatesUnchangedAll(code, options, minify, q.expressions);
    case Other(_, ch) =>
      NoTemplatesUnchangedAll(code, options, minify, ch);
  }

  lemma {:induction false} NoTemplatesUnchangedAll(code: string, options: Value, minify: Minifier, ns: seq<Node>)
    requires InputsAll(code, ns) == []
    ensures VisitAll(code, options, minify, ns) == Ok(ns)
    decreases SizeAll(ns), 2
  {
    if ns != [] {
      NoTemplatesUnchanged(code, options, minify, ns[0]);
      NoTemplatesUnchangedAll(code, options, minify, ns[1..]);
      assert [ns[0]] + ns[1..] == ns;
    }
  }

  /**
   * Every `html` template of `n` has a single piece, whose range starts where its
   * template starts and ends at the length of its raw text.
   */
  predicate Collapsed(n: Node)
    decreases Size(n), 1
  {
    match n
    case Identifier(_) => true
    case MemberExpression(o, p, _) => Collapsed(o) && Collapsed(p)
    case TaggedTemplateExpression(tag, q) =>
      (IsHtmlTag(tag) ==> |q.quasis| == 1 && q.quasis[0].range == Range(q.range.start, |q.quasis[0].raw|))
      && Collapsed(tag) && CollapsedAll(q.expressions)
    case Other(_, ch) => CollapsedAll(ch)
  }

  predicate CollapsedAll(ns: seq<Node>)
    decreases SizeAll(ns), 2
  {
    ns == [] || (Collapsed(ns[0]) && CollapsedAll(ns[1..]))
  }

  /** The walk turns an identifier into itself and any other node into one that is not an identifier. */
  lemma VisitKeepsIdentifiers(code: string, options: Value, minify: Minifier, n: Node)
    requires Visit(code, options, minify, n).Ok?
    ensures n.Identifier? ==> Visit(code, options, minify, n).value == n
    ensures !n.Identifier? ==> !Visit(code, options, minify, n).value.Identifier?
  {
    match n
    case Identifier(_) =>
    case MemberExpression(_, _, _) =>
    case TaggedTemplateExpression(_, _) =>
    case Other(_, _) =>
  }

  /** The walk keeps the kind of every node, so whether a tag names `html` does not change. */
  lemma VisitKeepsTag(code: string, options: Value, minify: Minifier, tag: Node)
    requires Visit(code, options, minify, tag).Ok?
    ensures IsHtmlTag(Visit(code, options, minify, tag).value) == IsHtmlTag(tag)
  {
    var m := Visit(code, options, minify, tag).value;
    match tag
    case Identifier(_) =>
    case MemberExpression(o, p, _) =>
      assert m.MemberExpression? && m.property == Visit(code, options, minify, p).value;
      VisitKeepsIdentifiers(code, options, minify, p);
    case TaggedTemplateExpression(_, _) =>
    case Other(_, _) =>
  }

  /** After a successful walk every `html` template of the tree holds a single minified piece. */
  lemma {:induction false} VisitCollapses(code: string, options: Value, minify: Minifier, n: Node)
    requires Visit(code, options, minify, n).Ok?
    ensures Collapsed(Visit(code, options, minify, n).value)
    decreases Size(n), 1
  {
    var m := Visit(code, options, minify, n).value;
    match n
    case Identifier(_) =>
    case MemberExpression(o, p, _) =>
      VisitCollapses(code, options, minify, o);
      VisitCollapses(code, options, minify, p);
    case TaggedTemplateExpression(tag, q) =>
      VisitCollapses(code, options, minify, tag);
      VisitKeepsTag(code, options, minify, tag);
      VisitAllCollapses(code, options, minify, q.expressions);
    case Other(_, ch) =>
      VisitAllCollapses(code, options, minify, ch);
  }

  lemma {:induction false} VisitAllCollapses(code: string, options: Value, minify: Minifier, ns: seq<Node>)
    requires VisitAll(code, options, minify, ns).Ok?
    ensures CollapsedAll(VisitAll(code, options, minify, ns).value)
    decreases SizeAll(ns), 2
  {
    if ns != [] {
      VisitCollapses(code, options, minify, ns[0]);
      VisitAllCollapses(code, options, minify, ns[1..]);
      var r := VisitAll(code, options, minify, ns).value;
      var rest := VisitAll(code, options, minify, ns[1..]).value;
      assert r == [Visit(code, options, minify, ns[0]).value] + rest;
      assert r[1..] == rest;
    }
  }

  /** The raw texts of a template's pieces, in order. */
  function RawTexts(es: seq<TemplateElement>): (r: seq<string>)
    ensures |r| == |es|
  {
    if es == [] then [] else [es[0].raw] + RawTexts(es[1..])
  }

  /** The raw texts of the pieces of the `html` templates of `n`, in the order of the walk. */
  function Raws(n: Node): seq<string>
    decreases Size(n), 1
  {
    match n
    case Identifier(_) => []
    case MemberExpression(o, p, _) => Raws(o) + Raws(p)
    case TaggedTemplateExpression(tag, q) =>
      (if IsHtmlTag(tag) then RawTexts(q.quasis) else []) + Raws(tag) + RawsAll(q.expressions)
    case Other(_, ch) => RawsAll(ch)
  }

  function RawsAll(ns: seq<Node>): seq<string>
    decreases SizeAll(ns), 2
  {
    if ns == [] then [] else Raws(ns[0]) + RawsAll(ns[1..])
  }

  /** What the minifier returns for each of `texts`, in order; a text it rejects gives nothing. */
  function Minified(minify: Minifier, options: Value, texts: seq<string>): (r: seq<string>)
    ensures |r| <= |texts|
  {
    if texts == [] then []
    else
      (match minify(texts[0], options)
       case Ok(m) => [m]
       case Err(_) => []) + Minified(minify, options, texts[1..])
  }

  /** When every text minifies there is one output per text, each the minifier's result for it. */
  lemma {:induction false} MinifiedOutputs(minify: Minifier, options: Value, texts: seq<string>)
    requires AllMinify(minify, options, texts)
    ensures |Minified(minify, options, texts)| == |texts|
    ensures forall i :: 0 <= i < |texts| ==> minify(texts[i], options) == Ok(Minified(minify, options, texts)[i])
    decreases |texts|
  {
    if texts != [] {
      forall i | 0 <= i < |texts[1..]| ensures minify(texts[1..][i], options).Ok? {
        assert texts[1..][i] == texts[i + 1];
      }
      MinifiedOutputs(minify, options, texts[1..]);
      var r := Minified(minify, options, texts);
      var rest := Minified(minify, options, texts[1..]);
      assert r == [minify(texts[0], options).value] + rest;
      forall i | 0 <= i < |texts| ensures minify(texts[i], options) == Ok(r[i]) {
        if i > 0 {
          assert texts[i] == texts[1..][i - 1] && r[i] == rest[i - 1];
        }
      }
    }
  }

  lemma {:induction false} MinifiedAppend(minify: Minifier, options: Value, a: seq<string>, b: seq<string>)
    ensures Minified(minify, options, a + b) == Minified(minify, options, a) + Minified(minify, options, b)
    decreases |a|
  {
    if a == [] {
      assert a + b == b;
    } else {
      assert (a + b)[0] == a[0] && (a + b)[1..] == a[1..] + b;
      MinifiedAppend(minify, options, a[1..], b);
    }
  }

  /**
   * After a successful walk the `html` templates hold, in the order of the walk,
   * exactly what the minifier returned for the texts it was given.
   */
  lemma {:induction false} VisitRaws(code: string, options: Value, minify: Minifier, n: Node)
    requires Visit(code, options, minify, n).Ok?
    ensures Raws(Visit(code, options, minify, n).value) == Minified(minify, options, Inputs(code, n))
    decreases Size(n), 1
  {
    var m := Visit(code, options, minify, n).value;
    match n
    case Identifier(_) =>
    case MemberExpression(o, p, _) =>
      VisitRaws(code, options, minify, o);
      VisitRaws(code, options, minify, p);
      MinifiedAppend(minify, options, Inputs(code, o), Inputs(code, p));
    case TaggedTemplateExpression(tag, q) =>
      VisitRaws(code, options, minify, tag);
      VisitKeepsTag(code, options, minify, tag);
      VisitAllRaws(code, options, minify, q.expressions);
      var head := if IsHtmlTag(tag) then [Content(code, q)] else [];
      MinifiedAppend(minify, options, head, Inputs(code, tag));
      MinifiedAppend(minify, options, head + Inputs(code, tag), InputsAll(code, q.expressions));
      if IsHtmlTag(tag) {
        var mini := minify(Content(code, q), options).value;
        assert m.quasi.quasis == [TemplateElement(mini, Range(q.range.start, |mini|))];
        assert RawTexts(m.quasi.quasis) == [mini];
        assert Minified(minify, options, head) == [mini];
      }
    case Other(_, ch) =>
      VisitAllRaws(code, options, minify, ch);
  }

  lemma {:induction false} VisitAllRaws(code: string, options: Value, minify: Minifier, ns: seq<Node>)
    requires VisitAll(code, options, minify, ns).Ok?
    ensures RawsAll(VisitAll(code, options, minify, ns).value) == Minified(minify, options, InputsAll(code, ns))
    decreases SizeAll(ns), 2
  {
    if ns != [] {
      VisitRaws(code, options, minify, ns[0]);
      VisitAllRaws(code, options, minify, ns[1..]);
      MinifiedAppend(minify, options, Inputs(code, ns[0]), InputsAll(code, ns[1..]));
      var r := VisitAll(code, options, minify, ns).value;
      var rest := VisitAll(code, options, minify, ns[1..]).value;
      assert r == [Visit(code, options, minify, ns[0]).value] + rest;
      assert r[0] == Visit(code, options, minify, ns[0]).value && r[1..] == rest;
    }
  }

  /** The walk over siblings `a + b` is the walk over `a` followed by the walk over `b`. */
  lemma {:induction false} VisitAllAppend(code: string, options: Value, minify: Minifier, a: seq<Node>, b: seq<Node>)
    requires VisitAll(code, options, minify, a).Ok? && VisitAll(code, options, minify, b).Ok?
    ensures VisitAll(code, options, minify, a + b)
      == Ok(VisitAll(code, options, minify, a).value + VisitAll(code, options, minify, b).value)
    decreases |a|
  {
    if a == [] {
      assert a + b == b;
      assert VisitAll(code, options, minify, a).value == [];
      assert [] + VisitAll(code, options, minify, b).value == VisitAll(code, options, minify, b).value;
    } else {
      assert (a + b)[0] == a[0] && (a + b)[1..] == a[1..] + b;
      var v0 := Visit(code, options, minify, a[0]);
      var va := VisitAll(code, options, minify, a[1..]);
      var vb := VisitAll(code, options, minify, b);
      assert v0.Ok? && va.Ok?;
      VisitAllAppend(code, options, minify, a[1..], b);
      assert VisitAll(code, options, minify, a + b) == Ok([v0.value] + (va.value + vb.value));
      assert VisitAll(code, options, minify, a) == Ok([v0.value] + va.value);
      assert [v0.value] + (va.value + vb.value) == ([v0.value] + va.value) + vb.value;
    }
  }

  /** `escodegen.generate(ast, {sourceMap: id, sourceContent: code, ...})`: the code and its map. */
  datatype Generated = Generated(code: string, sourceMap: string)

  /** The libraries `processFile` calls; each may throw, which is an `Err`. */
  datatype Libraries = Libraries(
    parse: (string, Value) -> Result<Node>,
    minify: Minifier,
    generate: (Node, string, string) -> Result<Generated>)

  /** The source map of a result: the generated one, or `emptySourcemap` after a failure. */
  datatype SourceMap = Map(text: string) | EmptySourcemap

  /** What `transform` resolves with, and what it printed on the way. */
  datatype Processed = Processed(code: string, sourceMap: SourceMap, log: seq<string>)

  /** The options `processFile` is given: `{esprima, htmlMinifier, verbose}`. */
  datatype ProcessConfig = ProcessConfig(esprima: Value, htmlMinifier: Value, verbose: bool)

  /** Parse, walk and regenerate, stopping at the first step that throws. */
  function Attempt(code: string, id: string, config: ProcessConfig, lib: Libraries): Result<Generated> {
    match lib.parse(code, config.esprima)
    case Err(e) => Err(e)
    case Ok(ast) =>
      match Visit(code, config.htmlMinifier, lib.minify, ast)
      case Err(e) => Err(e)
      case Ok(newAst) => lib.generate(newAst, id, code)
  }

  function ParseFailure(error: string, id: string): string {
    "[minifyLitHTML] - Could not parse \"" + error + "\" in \"" + id + "\"\n"
  }

  /**
   * `processFile`: the regenerated code and its map; when any step throws, the
   * original code and `emptySourcemap`, and a diagnostic only when verbose. The
   * promise never rejects.
   */
  function ProcessFile(code: string, id: string, config: ProcessConfig, lib: Libraries): (r: Processed)
    ensures r.sourceMap.EmptySourcemap? <==> Attempt(code, id, config, lib).Err?
    ensures r.sourceMap.EmptySourcemap? ==> r.code == code
    ensures r.sourceMap.Map? ==> r.code == Attempt(code, id, config, lib).value.code && r.sourceMap.text == Attempt(code, id, config, lib).value.sourceMap
    ensures r.log != [] <==> config.verbose && r.sourceMap.EmptySourcemap?
    ensures r.log != [] ==> r.log == [ParseFailure(Attempt(code, id, config, lib).error, id)]
  {
    match Attempt(code, id, config, lib)
    case Ok(g) => Processed(g.code, Map(g.sourceMap), [])
    case Err(e) => Processed(code, EmptySourcemap, if config.verbose then [ParseFailure(e, id)] else [])
  }

  /**
   * The original code is kept exactly when the module does not parse, one of its
   * `html` templates does not minify, or the tree cannot be regenerated.
   */
  lemma FallbackIff(code: string, id: string, config: ProcessConfig, lib: Libraries)
    ensures ProcessFile(code, id, config, lib).sourceMap.EmptySourcemap? <==>
      || lib.parse(code, config.esprima).Err?
      || !AllMinify(lib.minify, config.htmlMinifier, Inputs(code, lib.parse(code, config.esprima).value))
      || (Visit(code, config.htmlMinifier, lib.minify, lib.parse(code, config.esprima).value).Ok?
          && lib.generate(Visit(code, config.htmlMinifier, lib.minify, lib.parse(code, config.esprima).value).value, id, code).Err?)
  {
    if lib.parse(code, config.esprima).Ok? {
      VisitSucceedsIff(code, config.htmlMinifier, lib.minify, lib.parse(code, config.esprima).value);
    }
  }

  /** A module without `html` templates is regenerated from the tree the parser gave. */
  lemma NoTemplatesRegenerated(code: string, id: string, config: ProcessConfig, lib: Libraries)
    requires lib.parse(code, config.esprima).Ok?
    requires Inputs(code, lib.parse(code, config.esprima).value) == []
    ensures Attempt(code, id, config, lib) == lib.generate(lib.parse(code, config.esprima).value, id, code)
  {
    NoTemplatesUnchanged(code, config.htmlMinifier, lib.minify, lib.parse(code, config.esprima).value);
  }

  /** `{sourceType: 'script'}` */
  const ScriptOptions: Value := Obj(map["sourceType" := Str("script")])

  /**
   * `deduceSourceType`: `'script'` when the code parses as a script, `'module'`
   * otherwise. `processFile` computes it and passes it on, but the transformer never
   * reads it, so it does not affect the result.
   */
  function DeduceSourceType(code: string, parse: (string, Value) -> Result<Node>): (r: string)
    ensures r == "script" <==> parse(code, ScriptOptions).Ok?
    ensures r == "module" <==> parse(code, ScriptOptions).Err?
  {
    if parse(code, ScriptOptions).Ok? then "script" else "module"
  }

  /** The default `esprima` options. */
  const DefaultEsprima: Value := Obj(map[
    "attachComment" := Bool(false), "loc" := Bool(true), "range" := Bool(true),
    "tolerant" := Bool(true), "tokens" := Bool(false)])

  /** The default `htmlMinifier` options. */
  const DefaultHtmlMinifier: Value := Obj(map[
    "caseSensitive" := Bool(true), "minifyCSS" := Bool(false), "preventAttributesEscaping" := Bool(true),
    "preserveLineBreaks" := Bool(false), "collapseWhitespace" := Bool(true),
    "conservativeCollapse" := Bool(true), "removeComments" := Bool(true),
    "ignoreCustomFragments" := Arr([Value.Regex("<\\s"), Value.Regex("<="), Value.Regex("\\$\\{"), Value.Regex("\\}"),
                                    Value.Regex("\"\\${[^}]+\"[^}]+}\"")])])

  /** The default include patterns, `/\.js$/` and `/\.ts$/`. */
  const DefaultInclude: seq<Pattern> := [Pattern.Regex("\\.js$"), Pattern.Regex("\\.ts$")]

  /** The options a caller passes; `None` is a key left out of the object. */
  datatype MinifyConfig = MinifyConfig(
    includes: Option<seq<Pattern>>, excludes: Option<seq<Pattern>>, verbose: Option<bool>,
    esprima: Option<Value>, htmlMinifier: Option<Value>)

  /** The options after `{...defaultConfig, ...config}`. */
  datatype Settings = Settings(
    includes: seq<Pattern>, excludes: seq<Pattern>, verbose: bool, esprima: Value, htmlMinifier: Value)

  /**
   * The shallow merge over the defaults: a key the caller gives replaces the default
   * value as a whole, so a caller's `esprima` or `htmlMinifier` object is not merged
   * with the default one.
   */
  function Configure(config: MinifyConfig): (s: Settings)
    ensures s.esprima == if config.esprima.Some? then config.esprima.value else DefaultEsprima
    ensures s.htmlMinifier == if config.htmlMinifier.Some? then config.htmlMinifier.value else DefaultHtmlMinifier
    ensures s.includes == if config.includes.Some? then config.includes.value else DefaultInclude
    ensures s.excludes == if config.excludes.Some? then config.excludes.value else []
    ensures s.verbose == (config.verbose.None? || config.verbose.value)
  {
    Settings(
      if config.includes.Some? then config.includes.value else DefaultInclude,
      if config.excludes.Some? then config.excludes.value else [],
      if config.verbose.Some? then config.verbose.value else true,
      if config.esprima.Some? then config.esprima.value else DefaultEsprima,
      if config.htmlMinifier.Some? then config.htmlMinifier.value else DefaultHtmlMinifier)
  }

  /** The plugin object: its settings and the filter built from them. */
  datatype Plugin = Plugin(settings: Settings, filter: string -> bool)

  const Name: string := "minifyLitHTML"

  /** `minifyLitHTML(config)` */
  function MinifyLitHtml(config: MinifyConfig, createFilter: CreateFilter): (p: Plugin)
    ensures p.settings == Configure(config)
    ensures p.filter == createFilter(Configure(config).includes, Configure(config).excludes)
  {
    var s := Configure(config);
    Plugin(s, createFilter(s.includes, s.excludes))
  }

  /** `resolveId(id, importer)` of the plugin. */
  function ResolveId(p: Plugin, paths: PathOps, id: string, importer: Option<string>): (r: Option<string>)
    ensures r.Some? <==> importer.Some? && importer.value != "" && p.filter(id)
    ensures r.Some? ==> r.value == paths.resolve(paths.dirname(importer.value), id)
  {
    ResolveImport(p.filter, paths, id, importer)
  }

  /** `transform(code, id)`: nothing for a file the filter rejects, otherwise `processFile` with the merged options. */
  function Transform(p: Plugin, lib: Libraries, code: string, id: string): (r: Option<Processed>)
    ensures r.None? <==> !p.filter(id)
    ensures r.Some? ==> r.value == ProcessFile(code, id, ProcessConfig(p.settings.esprima, p.settings.htmlMinifier, p.settings.verbose), lib)
  {
    if !p.filter(id) then None
    else Some(ProcessFile(code, id, ProcessConfig(p.settings.esprima, p.settings.htmlMinifier, p.settings.verbose), lib))
  }
}
