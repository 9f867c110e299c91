/**
 * The `copy` plugin: once the bundle is written, copy each configured
 * `[from, to]` resource pair, in order, skipping a pair whose destination already
 * exists when folders may not be overwritten, and carrying on after a pair fails.
 */
module Copy {
  import opened Wrappers
  import opened Strings
  import opened Files

  /** One `[from, to]` entry of the `resources` option. */
  datatype Resource = Resource(from: string, to: string)

  /** The options a caller passes; `None` is a key left out of the object. */
  datatype CopyConfig = CopyConfig(resources: Option<seq<Resource>>, verbose: Option<bool>, overwriteFolder: Option<bool>)

  /** The options after `{...defaultConfig, ...config}`. */
  datatype Settings = Settings(resources: seq<Resource>, verbose: bool, overwriteFolder: bool)

  /** `{...defaultConfig, ...config}` with `resources: []`, `verbose: true`, `overwriteFolder: true`. */
  function Configure(config: CopyConfig): (s: Settings)
    ensures s.resources == if config.resources.Some? then config.resources.value else []
    ensures s.verbose == (config.verbose.None? || config.verbose.value)
    ensures s.overwriteFolder == (config.overwriteFolder.None? || config.overwriteFolder.value)
  {
    Settings(
      if config.resources.Some? then config.resources.value else [],
      if config.verbose.Some? then config.verbose.value else true,
      if config.overwriteFolder.Some? then config.overwriteFolder.value else true)
  }

  /** What one iteration of the loop does with one pair. */
  datatype Step = Copied(files: Tree) | Skipped | Failed(error: string)

  /** The body of the loop for the pair `r`: the existence guard, then `fse.copy` inside `try`. */
  function CopyStep(files: Tree, faulty: set<string>, r: Resource, overwriteFolder: bool): (s: Step)
    ensures s.Skipped? <==> !overwriteFolder && Exists(files, r.to)
    ensures s.Copied? ==> CopyTree(files, faulty, r.from, r.to) == Ok(s.files)
    ensures s.Failed? ==> CopyTree(files, faulty, r.from, r.to) == Err(s.error)
  {
    if overwriteFolder || !Exists(files, r.to) then
      match CopyTree(files, faulty, r.from, r.to)
      case Ok(t) => Copied(t)
      case Err(e) => Failed(e)
    else Skipped
  }

  /** The line `console.log` prints for a pair that could not be copied. */
  function FailureMessage(r: Resource, error: string): string {
    "[copy] - The file \"" + r.from + "\" could not be copied to \"" + r.to + "\"\n" + " " + error
  }

  /** The disk after a run of the loop and what it printed. */
  datatype Run = Run(files: Tree, log: seq<string>)

  /** The disk and the log after the loop has handled the pairs `rs`, one after the other. */
  function CopyAll(files: Tree, faulty: set<string>, rs: seq<Resource>, s: Settings): Run
    decreases |rs|
  {
    if rs == [] then Run(files, [])
    else
      var before := CopyAll(files, faulty, rs[..|rs| - 1], s);
      var r := rs[|rs| - 1];
      match CopyStep(before.files, faulty, r, s.overwriteFolder)
      case Copied(t) => Run(t, before.log)
      case Skipped => before
      case Failed(e) => Run(before.files, before.log + if s.verbose then [FailureMessage(r, e)] else [])
  }

  /**
   * `generateBundle`: nothing happens on a dry run; otherwise the pairs are copied in
   * list order, each on the disk that the pairs before it left.
   */
  method GenerateBundle(fs: FileSystem, s: Settings, isWrite: bool) returns (log: seq<string>)
    modifies fs
    ensures !isWrite ==> fs.files == old(fs.files) && log == []
    ensures isWrite ==> Run(fs.files, log) == CopyAll(old(fs.files), fs.faulty, s.resources, s)
  {
    log := [];
    if !isWrite {
      return;
    }
    ghost var start := fs.files;
    var i := 0;
    while i < |s.resources|
      invariant 0 <= i <= |s.resources|
      invariant Run(fs.files, log) == CopyAll(start, fs.faulty, s.resources[..i], s)
    {
      var r := s.resources[i];
      assert s.resources[..i + 1][..i] == s.resources[..i];
      if s.overwriteFolder || !Exists(fs.files, r.to) {
        var copied := CopyTree(fs.files, fs.faulty, r.from, r.to);
        match copied
        case Ok(t) =>
          fs.files := t;
        case Err(e) =>
          if s.verbose {
            log := log + [FailureMessage(r, e)];
          }
      }
      i := i + 1;
    }
    assert s.resources[..i] == s.resources;
  }

  /** Handling `a` and then `b` is handling `a + b`: the pairs form one sequential run. */
  lemma {:induction false} CopyAllAppend(files: Tree, faulty: set<string>, a: seq<Resource>, b: seq<Resource>, s: Settings)
    ensures var first := CopyAll(files, faulty, a, s);
            var second := CopyAll(first.files, faulty, b, s);
            CopyAll(files, faulty, a + b, s) == Run(second.files, first.log + second.log)
    decreases |b|
  {
    if b == [] {
      assert a + b == a;
    } else {
      var b' := b[..|b| - 1];
      assert (a + b)[..|a + b| - 1] == a + b';
      assert (a + b)[|a + b| - 1] == b[|b| - 1];
      CopyAllAppend(files, faulty, a, b', s);
    }
  }

  /**
   * A pair that fails leaves the disk as it was: the pairs after it run exactly as if
   * it had not been listed, and the only trace is its message, printed when verbose.
   */
  lemma FailedPairIsIsolated(files: Tree, faulty: set<string>, a: seq<Resource>, r: Resource, b: seq<Resource>, s: Settings)
    requires CopyStep(CopyAll(files, faulty, a, s).files, faulty, r, s.overwriteFolder).Failed?
    ensures CopyAll(files, faulty, a + [r] + b, s).files == CopyAll(files, faulty, a + b, s).files
    ensures var before := CopyAll(files, faulty, a, s);
            var e := CopyStep(before.files, faulty, r, s.overwriteFolder).error;
            CopyAll(files, faulty, a + [r] + b, s).log
            == before.log + (if s.verbose then [FailureMessage(r, e)] else []) + CopyAll(before.files, faulty, b, s).log
  {
    CopyAllAppend(files, faulty, a + [r], b, s);
    CopyAllAppend(files, faulty, a, b, s);
    assert (a + [r])[..|a + [r]| - 1] == a;
  }

  /**
   * With `overwriteFolder` off, a pair whose destination exists when its turn comes
   * changes nothing, so the destination keeps exactly its earlier contents.
   */
  lemma ExistingDestinationIsKept(files: Tree, faulty: set<string>, a: seq<Resource>, r: Resource, s: Settings)
    requires !s.overwriteFolder
    requires Exists(CopyAll(files, faulty, a, s).files, r.to)
    ensures CopyAll(files, faulty, a + [r], s) == CopyAll(files, faulty, a, s)
  {
    assert (a + [r])[..|a + [r]| - 1] == a;
  }

  /** After `from` is copied to `to`, the destination exists. */
  lemma CopiedDestinationExists(files: Tree, faulty: set<string>, from: string, to: string)
    requires CopyTree(files, faulty, from, to).Ok?
    ensures Exists(CopyTree(files, faulty, from, to).value, to)
  {
    var t := CopyTree(files, faulty, from, to).value;
    if from in files {
      assert Under(from, from);
      assert Rebase(from, from, to) == to;
    } else {
      var q :| q in files && StartsWith(q, from + "/");
      assert Under(q, from);
      var d := Rebase(q, from, to);
      assert d in CopiedFiles(files, from, to);
      RebaseBelow(q, from, to);
    }
  }

  lemma RebaseBelow(q: string, from: string, to: string)
    requires StartsWith(q, from + "/")
    ensures StartsWith(Rebase(q, from, to), to + "/")
  {
    assert q[|from|] == (from + "/")[|from|] == '/';
    var d := Rebase(q, from, to);
    assert d[..|to|] == to && d[|to|] == '/';
    assert d[..|to| + 1] == d[..|to|] + [d[|to|]];
  }

  /**
   * Order matters: with `overwriteFolder` off, when two pairs name the same new
   * destination, the first is copied and the second is skipped.
   */
  lemma FirstOfTwoToSameDestinationWins(files: Tree, faulty: set<string>, r1: Resource, r2: Resource, s: Settings)
    requires !s.overwriteFolder && r1.to == r2.to
    requires !Exists(files, r1.to)
    requires CopyTree(files, faulty, r1.from, r1.to).Ok?
    ensures CopyAll(files, faulty, [r1, r2], s) == Run(CopyTree(files, faulty, r1.from, r1.to).value, [])
  {
    var t := CopyTree(files, faulty, r1.from, r1.to).value;
    assert CopyAll(files, faulty, [r1], s) == Run(t, []) by {
      assert [r1][..0] == [];
    }
    CopiedDestinationExists(files, faulty, r1.from, r1.to);
    assert [r1, r2][..1] == [r1];
  }
}
