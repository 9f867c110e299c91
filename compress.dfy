/**
 * The `compress` plugin: once the bundle is written, every file under the output
 * directory that is not already a `.gz` file and passes the include/exclude filter is
 * compressed with gzip to `<file>.gz` and with brotli, appended to `<file>.br`.
 */
module Compress {
  import opened Wrappers
  import opened Strings
  import opened Files
  import opened Plugins

  const Gzip: string := "gzip"
  const Brotli: string := "brotli"

  /** The options a caller passes; `None` is a key left out of the object. */
  datatype CompressConfig = CompressConfig(verbose: Option<bool>, dir: Option<string>, algorithms: Option<seq<string>>,
                                           includes: Option<seq<Pattern>>, excludes: Option<seq<Pattern>>)

  /** The options after `{...defaultConfig, ...config}`. */
  datatype Settings = Settings(verbose: bool, dir: Option<string>, algorithms: seq<string>,
                               includes: seq<Pattern>, excludes: seq<Pattern>)

  /** `{...defaultConfig, ...config}`: verbose, no `dir`, both algorithms and empty filters by default. */
  function Configure(config: CompressConfig): (s: Settings)
    ensures s.verbose == (config.verbose.None? || config.verbose.value)
    ensures s.dir == config.dir
    ensures config.algorithms.None? ==> Gzip in s.algorithms && Brotli in s.algorithms
    ensures config.algorithms.Some? ==> s.algorithms == config.algorithms.value
    ensures s.includes == if config.includes.Some? then config.includes.value else []
    ensures s.excludes == if config.excludes.Some? then config.excludes.value else []
  {
    Settings(
      if config.verbose.Some? then config.verbose.value else true,
      config.dir,
      if config.algorithms.Some? then config.algorithms.value else [Gzip, Brotli],
      if config.includes.Some? then config.includes.value else [],
      if config.excludes.Some? then config.excludes.value else [])
  }

  /**
   * The compression libraries: `targz` (which may report an error through its
   * callback) and `brotli.compress` (which gives `null` when it fails).
   */
  datatype Codecs = Codecs(gzip: Bytes -> Result<Bytes>, brotli: Bytes -> Option<Bytes>)

  /** `dir || outputOptions.dir`: the plugin's own `dir` unless it is missing or empty. */
  function Target(dir: Option<string>, outputDir: Option<string>): (r: Option<string>)
    ensures dir.Some? && dir.value != "" ==> r == dir
    ensures dir.None? || dir.value == "" ==> r == outputDir
  {
    if dir.Some? && dir.value != "" then dir else outputDir
  }

  function GzipDestination(src: string): (dest: string)
    ensures |dest| == |src| + 3 && EndsWith(dest, ".gz") && dest[..|src|] == src
  {
    src + ".gz"
  }

  function BrotliDestination(src: string): (dest: string)
    ensures |dest| == |src| + 3 && EndsWith(dest, ".br") && dest[..|src|] == src
  {
    src + ".br"
  }

  /**
   * `readdir(target).filter(path => !path.endsWith(".gz") && filter(path))`: the listed
   * paths, in listing order, that are not `.gz` files and pass the filter. `.br` files
   * are not excluded.
   */
  function SelectFiles(listing: seq<string>, filter: string -> bool): (r: seq<string>)
    ensures |r| <= |listing|
    ensures forall p :: p in r <==> p in listing && !EndsWith(p, ".gz") && filter(p)
  {
    if listing == [] then []
    else
      var rest := SelectFiles(listing[1..], filter);
      if !EndsWith(listing[0], ".gz") && filter(listing[0]) then [listing[0]] + rest else rest
  }

  /** Selection keeps the listing's order: selecting from `a + b` selects from `a`, then from `b`. */
  lemma {:induction false} SelectFilesAppend(a: seq<string>, b: seq<string>, filter: string -> bool)
    ensures SelectFiles(a + b, filter) == SelectFiles(a, filter) + SelectFiles(b, filter)
  {
    if a == [] {
      assert a + b == b;
    } else {
      assert (a + b)[0] == a[0] && (a + b)[1..] == a[1..] + b;
      SelectFilesAppend(a[1..], b, filter);
    }
  }

  /** `listing` is what a recursive listing of `target` gives: each file below it, once. */
  ghost predicate ListsTree(files: Tree, target: string, listing: seq<string>) {
    && (forall i, j :: 0 <= i < j < |listing| ==> listing[i] != listing[j])
    && (forall p :: p in listing <==> p in files && StartsWith(p, target + "/"))
  }

  /** Given a faithful listing, the selected files are exactly the eligible files below the target. */
  lemma SelectedAreEligibleFilesBelowTarget(files: Tree, target: string, listing: seq<string>, filter: string -> bool)
    requires ListsTree(files, target, listing)
    ensures forall p :: p in SelectFiles(listing, filter) <==>
      p in files && StartsWith(p, target + "/") && !EndsWith(p, ".gz") && filter(p)
  {
  }

  function GzipFailure(src: string, error: string): string {
    "[gzip] - Could not compress \"" + src + "\" to \"" + GzipDestination(src) + "\"\n" + " " + error
  }

  function BrotliFailure(src: string, error: string): string {
    "[brotli] - Could not compress \"" + src + "\" to \"" + BrotliDestination(src) + "\"\n" + " " + error
  }

  function SuccessMessage(count: nat): string {
    "[compress] - Successfully compressed " + NatToString(count) + " files"
  }

  /** What `appendFile(dest, null)` throws when `brotli.compress` gave no buffer. */
  const NullBufferError: string := "TypeError [ERR_INVALID_ARG_TYPE]: The \"data\" argument must be of type string or an instance of Buffer"

  /** `targz.compress({src, dest})`: `src.gz` holds the gzip archive of `src`, or the callback gets an error. */
  function GzipFile(files: Tree, faulty: set<string>, src: string, gzip: Bytes -> Result<Bytes>): (r: Result<Tree>)
    ensures r.Ok? ==> src in files && gzip(files[src]).Ok?
    ensures r.Ok? ==> r.value == files[GzipDestination(src) := gzip(files[src]).value]
  {
    match ReadFile(files, faulty, src)
    case Err(e) => Err(e)
    case Ok(data) =>
      match gzip(data)
      case Err(e) => Err(e)
      case Ok(archive) => WriteFile(files, faulty, GzipDestination(src), archive)
  }

  /**
   * An asynchronous call the loop starts: `targz.compress` for `src`, or
   * `fse.appendFile` of a brotli buffer to `<src>.br`. Its callback runs only after
   * the timer callback has returned.
   */
  datatype Pending = GzipWrite(src: string) | BrotliAppend(src: string, buffer: Bytes)

  /** The path a started call writes. */
  function Destination(c: Pending): string {
    if c.GzipWrite? then GzipDestination(c.src) else BrotliDestination(c.src)
  }

  /** What the synchronous loop leaves: the calls it started, in order, and the exception that ended it. */
  datatype Issued = Issued(pending: seq<Pending>, crashed: Option<string>)

  /**
   * One iteration of the loop for `src`, on the disk as it was before the loop: gzip
   * is started when enabled; with brotli enabled `src` is read and compressed at once,
   * and a failing read or a missing buffer throws and ends the loop, otherwise the
   * append is started.
   */
  function IssueFile(files: Tree, faulty: set<string>, src: string, s: Settings, codecs: Codecs): (r: Issued)
    ensures r.crashed.Some? <==> Brotli in s.algorithms && (ReadFile(files, faulty, src).Err? || codecs.brotli(files[src]).None?)
    ensures GzipWrite(src) in r.pending <==> Gzip in s.algorithms
    ensures Brotli in s.algorithms && r.crashed.None? ==> src in files && BrotliAppend(src, codecs.brotli(files[src]).value) in r.pending
    ensures |r.pending| == (if Gzip in s.algorithms then 1 else 0) + (if Brotli in s.algorithms && r.crashed.None? then 1 else 0)
    ensures |r.pending| == 2 ==> r.pending[0].GzipWrite?
    ensures forall c :: c in r.pending ==> StartedFor(c, src, files, s, codecs)
  {
    var gz := if Gzip in s.algorithms then [GzipWrite(src)] else [];
    if Brotli !in s.algorithms then Issued(gz, None)
    else
      match ReadFile(files, faulty, src)
      case Err(e) => Issued(gz, Some(e))
      case Ok(data) =>
        match codecs.brotli(data)
        case None => Issued(gz, Some(NullBufferError))
        case Some(buffer) => Issued(gz + [BrotliAppend(src, buffer)], None)
  }

  /**
   * `c` is a call the loop may start for `src`: gzip only when it is enabled, brotli
   * only when it is enabled and then with the buffer of `src`'s contents before the loop.
   */
  predicate StartedFor(c: Pending, src: string, files: Tree, s: Settings, codecs: Codecs) {
    && c.src == src
    && (c.GzipWrite? ==> Gzip in s.algorithms)
    && (c.BrotliAppend? ==> Brotli in s.algorithms && src in files && codecs.brotli(files[src]) == Some(c.buffer))
  }

  /**
   * The loop over `srcs`, in order, stopping at the first synchronous exception. No
   * started call completes while it runs, so every read sees the disk before the loop.
   */
  function IssueAll(files: Tree, faulty: set<string>, srcs: seq<string>, s: Settings, codecs: Codecs): (r: Issued)
    decreases |srcs|
  {
    if srcs == [] then Issued([], None)
    else
      var init := srcs[..|srcs| - 1];
      var before := IssueAll(files, faulty, init, s, codecs);
      if before.crashed.Some? then before
      else
        var step := IssueFile(files, faulty, srcs[|srcs| - 1], s, codecs);
        Issued(before.pending + step.pending, step.crashed)
  }

  /**
   * Every call the loop starts belongs to a selected file, uses an enabled algorithm
   * and, for brotli, carries the buffer of that file as it was before the loop.
   */
  lemma {:induction false} IssuedCallsStartedFor(files: Tree, faulty: set<string>, srcs: seq<string>, s: Settings, codecs: Codecs)
    ensures forall c :: c in IssueAll(files, faulty, srcs, s, codecs).pending ==> c.src in srcs && StartedFor(c, c.src, files, s, codecs)
    decreases |srcs|
  {
    if srcs != [] {
      var init := srcs[..|srcs| - 1];
      IssuedCallsStartedFor(files, faulty, init, s, codecs);
      assert forall x :: x in init ==> x in srcs;
    }
  }

  /** One more file after a loop that has not crashed is one more iteration. */
  lemma IssueAllSnoc(files: Tree, faulty: set<string>, a: seq<string>, src: string, s: Settings, codecs: Codecs)
    ensures var before := IssueAll(files, faulty, a, s, codecs);
            var step := IssueFile(files, faulty, src, s, codecs);
            IssueAll(files, faulty, a + [src], s, codecs)
            == if before.crashed.Some? then before else Issued(before.pending + step.pending, step.crashed)
  {
    assert (a + [src])[..|a|] == a;
  }

  /** Once a file has thrown, the files after it are never looked at. */
  lemma {:induction false} CrashEndsRun(files: Tree, faulty: set<string>, a: seq<string>, b: seq<string>, s: Settings, codecs: Codecs)
    requires IssueAll(files, faulty, a, s, codecs).crashed.Some?
    ensures IssueAll(files, faulty, a + b, s, codecs) == IssueAll(files, faulty, a, s, codecs)
    decreases |b|
  {
    if b == [] {
      assert a + b == a;
    } else {
      var init := b[..|b| - 1];
      assert (a + b)[..|a + b| - 1] == a + init;
      CrashEndsRun(files, faulty, a, init, s, codecs);
    }
  }

  /**
   * The files are handled independently: after a loop over `a` that did not throw, the
   * loop over `a + b` starts the calls of `a` and then those of `b`, and ends as `b` does.
   */
  lemma {:induction false} IssueAllAppend(files: Tree, faulty: set<string>, a: seq<string>, b: seq<string>, s: Settings, codecs: Codecs)
    requires IssueAll(files, faulty, a, s, codecs).crashed.None?
    ensures var ra, rb := IssueAll(files, faulty, a, s, codecs), IssueAll(files, faulty, b, s, codecs);
            IssueAll(files, faulty, a + b, s, codecs) == Issued(ra.pending + rb.pending, rb.crashed)
    decreases |b|
  {
    var ra := IssueAll(files, faulty, a, s, codecs);
    if b == [] {
      assert a + b == a;
      assert ra.pending + [] == ra.pending;
    } else {
      var init, last := b[..|b| - 1], b[|b| - 1];
      assert a + b == (a + init) + [last];
      assert b == init + [last];
      IssueAllAppend(files, faulty, a, init, s, codecs);
      IssueAllSnoc(files, faulty, a + init, last, s, codecs);
      IssueAllSnoc(files, faulty, init, last, s, codecs);
      var ri := IssueAll(files, faulty, init, s, codecs);
      if ri.crashed.None? {
        var step := IssueFile(files, faulty, last, s, codecs);
        assert ra.pending + ri.pending + step.pending == ra.pending + (ri.pending + step.pending);
      }
    }
  }

  /** What the started calls leave once their callbacks have run: the disk and the messages. */
  datatype Settled = Settled(files: Tree, log: seq<string>)

  /**
   * The callback of one started call: gzip reads `src` when it runs and writes the
   * archive; the append extends `<src>.br`. An error is only printed, when verbose.
   */
  function Complete(files: Tree, faulty: set<string>, c: Pending, s: Settings, codecs: Codecs): (r: Settled)
    ensures forall p :: p != Destination(c) ==> (p in r.files <==> p in files) && (p in files ==> r.files[p] == files[p])
    ensures c.GzipWrite? && GzipFile(files, faulty, c.src, codecs.gzip).Ok? ==>
      r == Settled(files[GzipDestination(c.src) := codecs.gzip(files[c.src]).value], [])
    ensures c.BrotliAppend? && AppendFile(files, faulty, BrotliDestination(c.src), c.buffer).Ok? ==>
      var dest := BrotliDestination(c.src);
      r == Settled(files[dest := (if dest in files then files[dest] else []) + c.buffer], [])
    ensures r.log != [] ==> s.verbose && |r.log| == 1 && r.files == files
  {
    match c
    case GzipWrite(src) =>
      (match GzipFile(files, faulty, src, codecs.gzip)
       case Ok(t) => Settled(t, [])
       case Err(e) => Settled(files, if s.verbose then [GzipFailure(src, e)] else []))
    case BrotliAppend(src, buffer) =>
      (match AppendFile(files, faulty, BrotliDestination(src), buffer)
       case Ok(t) => Settled(t, [])
       case Err(e) => Settled(files, if s.verbose then [BrotliFailure(src, e)] else []))
  }

  /** The callbacks of the started calls, in the order the calls were started. */
  function CompleteAll(files: Tree, faulty: set<string>, cs: seq<Pending>, s: Settings, codecs: Codecs): (r: Settled)
    ensures !s.verbose ==> r.log == []
    ensures |r.log| <= |cs|
    decreases |cs|
  {
    if cs == [] then Settled(files, [])
    else
      var first := Complete(files, faulty, cs[0], s, codecs);
      var rest := CompleteAll(first.files, faulty, cs[1..], s, codecs);
      Settled(rest.files, first.log + rest.log)
  }

  /** The callbacks of `a + b` are those of `a`, then those of `b` on what they left. */
  lemma {:induction false} CompleteAllAppend(files: Tree, faulty: set<string>, a: seq<Pending>, b: seq<Pending>, s: Settings, codecs: Codecs)
    ensures var ra := CompleteAll(files, faulty, a, s, codecs);
            var rb := CompleteAll(ra.files, faulty, b, s, codecs);
            CompleteAll(files, faulty, a + b, s, codecs) == Settled(rb.files, ra.log + rb.log)
    decreases |a|
  {
    if a == [] {
      assert a + b == b;
    } else {
      assert (a + b)[0] == a[0] && (a + b)[1..] == a[1..] + b;
      var first := Complete(files, faulty, a[0], s, codecs);
      CompleteAllAppend(first.files, faulty, a[1..], b, s, codecs);
      var ra := CompleteAll(first.files, faulty, a[1..], s, codecs);
      var rb := CompleteAll(ra.files, faulty, b, s, codecs);
      assert first.log + (ra.log + rb.log) == (first.log + ra.log) + rb.log;
    }
  }

  /** The callbacks change no path that none of the calls writes. */
  lemma {:induction false} CompleteAllFrame(files: Tree, faulty: set<string>, cs: seq<Pending>, s: Settings, codecs: Codecs, p: string)
    requires forall c :: c in cs ==> Destination(c) != p
    ensures var r := CompleteAll(files, faulty, cs, s, codecs);
            (p in r.files <==> p in files) && (p in files ==> r.files[p] == files[p])
    decreases |cs|
  {
    if cs != [] {
      assert cs[0] in cs;
      var first := Complete(files, faulty, cs[0], s, codecs);
      assert forall c :: c in cs[1..] ==> c in cs;
      CompleteAllFrame(first.files, faulty, cs[1..], s, codecs, p);
    }
  }

  /** How the timer callback ended. */
  datatype Outcome =
    | NotWritten
    | Crashed(error: string)
    | Finished(count: nat, log: seq<string>)

  /** The disk once every callback has run, and how the build ended. */
  datatype Build = Build(files: Tree, outcome: Outcome)

  /**
   * The timer callback for the selected files `srcs`: the loop, then the success
   * message, then the callbacks of the calls the loop started. An exception in the
   * loop escapes the callback and ends the process, so no started call completes and
   * nothing is printed.
   */
  function Callback(files: Tree, faulty: set<string>, srcs: seq<string>, s: Settings, codecs: Codecs): (r: Build)
    ensures r.outcome.Crashed? <==> IssueAll(files, faulty, srcs, s, codecs).crashed.Some?
    ensures r.outcome.Crashed? ==> r.files == files
    ensures r.outcome.Finished? ==> r.outcome.count == |srcs|
    ensures r.outcome.Finished? && s.verbose ==> |r.outcome.log| >= 1 && r.outcome.log[0] == SuccessMessage(|srcs|)
    ensures r.outcome.Finished? && !s.verbose ==> r.outcome.log == []
    ensures r.outcome.Finished? ==> r.files == CompleteAll(files, faulty, IssueAll(files, faulty, srcs, s, codecs).pending, s, codecs).files
    ensures !r.outcome.NotWritten?
  {
    var issued := IssueAll(files, faulty, srcs, s, codecs);
    if issued.crashed.Some? then Build(files, Crashed(issued.crashed.value))
    else
      var done := CompleteAll(files, faulty, issued.pending, s, codecs);
      Build(done.files, Finished(|srcs|, (if s.verbose then [SuccessMessage(|srcs|)] else []) + done.log))
  }

  /** The body of the loop for one selected file `src`; it only starts calls. */
  method IssueOne(fs: FileSystem, src: string, s: Settings, codecs: Codecs) returns (pending: seq<Pending>, crashed: Option<string>)
    ensures Issued(pending, crashed) == IssueFile(fs.files, fs.faulty, src, s, codecs)
  {
    pending, crashed := [], None;
    if Gzip in s.algorithms {
      pending := pending + [GzipWrite(src)];
    }
    if Brotli in s.algorithms {
      var read := ReadFile(fs.files, fs.faulty, src);
      if read.Err? {
        crashed := Some(read.error);
        return;
      }
      var buffer := codecs.brotli(read.value);
      if buffer.None? {
        crashed := Some(NullBufferError);
        return;
      }
      pending := pending + [BrotliAppend(src, buffer.value)];
    }
  }

  /** The `for` loop over the selected files, in order; a synchronous exception ends it. */
  method CompressFiles(fs: FileSystem, srcs: seq<string>, s: Settings, codecs: Codecs) returns (pending: seq<Pending>, crashed: Option<string>)
    ensures Issued(pending, crashed) == IssueAll(fs.files, fs.faulty, srcs, s, codecs)
  {
    pending, crashed := [], None;
    var i := 0;
    while i < |srcs|
      invariant 0 <= i <= |srcs|
      invariant Issued(pending, None) == IssueAll(fs.files, fs.faulty, srcs[..i], s, codecs)
    {
      assert srcs[..i + 1] == srcs[..i] + [srcs[i]];
      var more, failure := IssueOne(fs, srcs[i], s, codecs);
      IssueAllSnoc(fs.files, fs.faulty, srcs[..i], srcs[i], s, codecs);
      pending := pending + more;
      if failure.Some? {
        crashed := failure;
        CrashEndsRun(fs.files, fs.faulty, srcs[..i + 1], srcs[i + 1..], s, codecs);
        assert srcs[..i + 1] + srcs[i + 1..] == srcs;
        return;
      }
      i := i + 1;
    }
    assert srcs[..i] == srcs;
  }

  /**
   * `generateBundle` once its timer fires: nothing on a dry run; otherwise list the
   * target and select the files; a listing that throws escapes the callback. Then the
   * loop, the success message and, once the callback has returned, the started calls.
   */
  method GenerateBundle(fs: FileSystem, s: Settings, createFilter: CreateFilter, codecs: Codecs,
                        readdir: (Tree, string) -> Result<seq<string>>, outputDir: Option<string>, isWrite: bool)
    returns (outcome: Outcome)
    modifies fs
    ensures !isWrite ==> outcome == NotWritten && fs.files == old(fs.files)
    ensures isWrite ==> match Target(s.dir, outputDir)
      case None => outcome.Crashed? && fs.files == old(fs.files)
      case Some(target) =>
        match readdir(old(fs.files), target)
        case Err(e) => outcome == Crashed(e) && fs.files == old(fs.files)
        case Ok(listing) =>
          Build(fs.files, outcome) == Callback(old(fs.files), fs.faulty, SelectFiles(listing, createFilter(s.includes, s.excludes)), s, codecs)
  {
    if !isWrite {
      return NotWritten;
    }
    var target := Target(s.dir, outputDir);
    if target.None? {
      return Crashed("TypeError [ERR_INVALID_ARG_TYPE]: The \"path\" argument must be of type string. Received undefined");
    }
    var listed := readdir(fs.files, target.value);
    if listed.Err? {
      return Crashed(listed.error);
    }
    var srcs := SelectFiles(listed.value, createFilter(s.includes, s.excludes));
    var pending, crashed := CompressFiles(fs, srcs, s, codecs);
    if crashed.Some? {
      return Crashed(crashed.value);
    }
    var log := if s.verbose then [SuccessMessage(|srcs|)] else [];
    // The callbacks of the started calls run after the timer callback has returned.
    var done := CompleteAll(fs.files, fs.faulty, pending, s, codecs);
    fs.files := done.files;
    outcome := Finished(|srcs|, log + done.log);
  }

  /** The paths a build over `srcs` may write: `<src>.gz` when gzip is on, `<src>.br` when brotli is. */
  ghost predicate IsDestination(p: string, srcs: seq<string>, s: Settings) {
    exists src :: src in srcs && ((Gzip in s.algorithms && p == GzipDestination(src))
                                 || (Brotli in s.algorithms && p == BrotliDestination(src)))
  }

  /**
   * Nothing but the destinations of the enabled algorithms changes: every other path
   * is present afterwards exactly when it was before, with the same contents.
   */
  lemma CallbackFrame(files: Tree, faulty: set<string>, srcs: seq<string>, s: Settings, codecs: Codecs, p: string)
    requires !IsDestination(p, srcs, s)
    ensures var r := Callback(files, faulty, srcs, s, codecs);
            (p in r.files <==> p in files) && (p in files ==> r.files[p] == files[p])
  {
    var issued := IssueAll(files, faulty, srcs, s, codecs);
    IssuedCallsStartedFor(files, faulty, srcs, s, codecs);
    if issued.crashed.None? {
      forall c | c in issued.pending ensures Destination(c) != p {
        assert c.src in srcs;
      }
      CompleteAllFrame(files, faulty, issued.pending, s, codecs, p);
    }
  }

  /** A build over one file is the loop body for it. */
  lemma IssueAllSingle(files: Tree, faulty: set<string>, src: string, s: Settings, codecs: Codecs)
    ensures IssueAll(files, faulty, [src], s, codecs) == IssueFile(files, faulty, src, s, codecs)
  {
    assert [src][..0] == [];
    var step := IssueFile(files, faulty, src, s, codecs);
    assert [] + step.pending == step.pending;
  }

  /** The first callback runs on the disk as the loop found it, the next on what the first left. */
  lemma CompleteAllCons(files: Tree, faulty: set<string>, c: Pending, cs: seq<Pending>, s: Settings, codecs: Codecs)
    ensures var first := Complete(files, faulty, c, s, codecs);
            CompleteAll(files, faulty, [c] + cs, s, codecs).files == CompleteAll(first.files, faulty, cs, s, codecs).files
  {
    assert ([c] + cs)[0] == c && ([c] + cs)[1..] == cs;
  }

  /**
   * Writing a path as long as `p` but different from it neither makes `p` a directory
   * nor puts a file on the way to `p`.
   */
  lemma WriteKeepsPathFree(files: Tree, k: string, data: Bytes, p: string)
    requires |k| == |p| && k != p
    ensures !IsDirectory(files, p) ==> !IsDirectory(files[k := data], p)
    ensures !BlockedByFile(files, p) ==> !BlockedByFile(files[k := data], p)
  {
    assert forall q :: q in files[k := data] && q != k ==> q in files;
  }

  /**
   * With both algorithms enabled, the default, a file that can be read, compressed and
   * written ends with its archive in `<src>.gz` and the brotli buffer appended to `<src>.br`.
   */
  lemma BothAlgorithmsWriteBoth(files: Tree, faulty: set<string>, src: string, s: Settings, codecs: Codecs)
    requires Gzip in s.algorithms && Brotli in s.algorithms
    requires src in files && src !in faulty && codecs.brotli(files[src]).Some? && codecs.gzip(files[src]).Ok?
    requires forall dest :: dest in {GzipDestination(src), BrotliDestination(src)} ==>
      dest !in faulty && !IsDirectory(files, dest) && !BlockedByFile(files, dest)
    ensures var r := Callback(files, faulty, [src], s, codecs);
            var br := BrotliDestination(src);
            r.outcome.Finished?
            && r.files == files[GzipDestination(src) := codecs.gzip(files[src]).value]
                               [br := (if br in files then files[br] else []) + codecs.brotli(files[src]).value]
  {
    var gz, br := GzipDestination(src), BrotliDestination(src);
    var archive, buffer := codecs.gzip(files[src]).value, codecs.brotli(files[src]).value;
    assert gz in {gz, br} && br in {gz, br};
    assert gz != br by { assert gz[|src| + 1] != br[|src| + 1]; }
    IssueAllSingle(files, faulty, src, s, codecs);
    var cs := [GzipWrite(src), BrotliAppend(src, buffer)];
    assert IssueFile(files, faulty, src, s, codecs).pending == cs;
    // The archive lands first; it leaves `<src>.br` free for the append.
    WriteKeepsPathFree(files, gz, archive, br);
    var t1 := files[gz := archive];
    assert Complete(files, faulty, GzipWrite(src), s, codecs).files == t1;
    assert AppendFile(t1, faulty, br, buffer).Ok?;
    CompleteAllCons(files, faulty, GzipWrite(src), [BrotliAppend(src, buffer)], s, codecs);
    CompleteAllCons(t1, faulty, BrotliAppend(src, buffer), [], s, codecs);
    assert cs == [GzipWrite(src)] + [BrotliAppend(src, buffer)];
    assert [BrotliAppend(src, buffer)] == [BrotliAppend(src, buffer)] + [];
  }

  /**
   * With brotli alone enabled, each build appends a fresh buffer to `<src>.br` instead
   * of replacing it: after two builds over `src` the buffer stands there twice.
   */
  lemma BrotliTwiceDoublesOutput(files: Tree, faulty: set<string>, src: string, s: Settings, codecs: Codecs)
    requires Brotli in s.algorithms && Gzip !in s.algorithms
    requires src in files && src !in faulty && codecs.brotli(files[src]).Some?
    requires BrotliDestination(src) !in faulty && BrotliDestination(src) !in files
    requires !IsDirectory(files, BrotliDestination(src)) && !BlockedByFile(files, BrotliDestination(src))
    ensures var first := Callback(files, faulty, [src], s, codecs);
            var second := Callback(first.files, faulty, [src], s, codecs);
            var b := codecs.brotli(files[src]).value;
            BrotliDestination(src) in second.files && second.files[BrotliDestination(src)] == b + b
  {
    var br := BrotliDestination(src);
    var b := codecs.brotli(files[src]).value;
    var c := BrotliAppend(src, b);
    assert [c] == [c] + [];
    IssueAllSingle(files, faulty, src, s, codecs);
    assert IssueFile(files, faulty, src, s, codecs).pending == [c];
    var once := files[br := [] + b];
    CompleteAllCons(files, faulty, c, [], s, codecs);
    assert Callback(files, faulty, [src], s, codecs).files == once;
    // The second build reads the same `src` and appends to what the first left.
    assert src != br;
    IssueAllSingle(once, faulty, src, s, codecs);
    assert IssueFile(once, faulty, src, s, codecs).pending == [c];
    assert AppendFile(once, faulty, br, b).Ok?;
    CompleteAllCons(once, faulty, c, [], s, codecs);
    assert once[br] + b == b + b;
  }

  /** A failed call only adds its message; the disk is the one the earlier callbacks left. */
  lemma FailureIsOnlyLogged(files: Tree, faulty: set<string>, c: Pending, s: Settings, codecs: Codecs)
    requires c.GzipWrite? ==> GzipFile(files, faulty, c.src, codecs.gzip).Err?
    requires c.BrotliAppend? ==> AppendFile(files, faulty, BrotliDestination(c.src), c.buffer).Err?
    ensures Complete(files, faulty, c, s, codecs).files == files
    ensures Complete(files, faulty, c, s, codecs).log == if !s.verbose then [] else
      if c.GzipWrite? then [GzipFailure(c.src, GzipFile(files, faulty, c.src, codecs.gzip).error)]
      else [BrotliFailure(c.src, AppendFile(files, faulty, BrotliDestination(c.src), c.buffer).error)]
  {
  }
}
