/**
 * The disk the post-emission plugins read and write, as a map from file path to
 * contents. Directories are implicit: a directory exists when some file lies below it.
 * `faulty` names the paths on which every operation fails with an I/O error; it stands
 * for permission problems, full disks and the like, which the model does not explain.
 */
module Files {
  import opened Wrappers
  import opened Strings

  newtype byte = x: int | 0 <= x < 256
  type Bytes = seq<byte>
  type Tree = map<string, Bytes>

  /** `q` is `root` itself or lies inside the directory `root`. */
  predicate Under(q: string, root: string) {
    q == root || StartsWith(q, root + "/")
  }

  /** The path that `q`, which lies under `from`, gets when the tree `from` is copied to `to`. */
  function Rebase(q: string, from: string, to: string): string
    requires Under(q, from)
  {
    to + q[|from|..]
  }

  lemma UnderSplit(q: string, root: string)
    requires Under(q, root)
    ensures |root| <= |q| && q == root + q[|root|..]
  {
    if q != root {
      assert q[..|root|] == (root + "/")[..|root|] == root;
    }
  }

  lemma RebaseInjective(from: string, to: string)
    ensures forall q1, q2 :: Under(q1, from) && Under(q2, from) && Rebase(q1, from, to) == Rebase(q2, from, to) ==> q1 == q2
  {
    forall q1, q2 | Under(q1, from) && Under(q2, from) && Rebase(q1, from, to) == Rebase(q2, from, to)
      ensures q1 == q2
    {
      UnderSplit(q1, from);
      UnderSplit(q2, from);
      assert q1[|from|..] == Rebase(q1, from, to)[|to|..];
    }
  }

  /** `fse.existsSync(p)`: `p` is a file or a directory that holds a file. */
  predicate Exists(files: Tree, p: string) {
    p in files || exists q :: q in files && StartsWith(q, p + "/")
  }

  predicate IsDirectory(files: Tree, p: string) {
    p !in files && Exists(files, p)
  }

  function IoError(p: string): string {
    "EIO: i/o error, '" + p + "'"
  }

  function NoEntry(p: string): string {
    "ENOENT: no such file or directory, '" + p + "'"
  }

  function IsDirectoryError(p: string): string {
    "EISDIR: illegal operation on a directory, '" + p + "'"
  }

  function NotADirectory(p: string): string {
    "ENOTDIR: not a directory, '" + p + "'"
  }

  /** Some directory on the way to `p` is a file, so `p` cannot be created. */
  predicate BlockedByFile(files: Tree, p: string) {
    exists q :: q in files && StartsWith(p, q + "/")
  }

  /** `readFile(p)`: the contents of the file `p`, or the error the read reports. */
  function ReadFile(files: Tree, faulty: set<string>, p: string): (r: Result<Bytes>)
    ensures r.Ok? <==> p in files && p !in faulty
    ensures r.Ok? ==> r.value == files[p]
  {
    if p in faulty then Err(IoError(p))
    else if p in files then Ok(files[p])
    else if IsDirectory(files, p) then Err(IsDirectoryError(p))
    else Err(NoEntry(p))
  }

  /**
   * `outputFileSync(p, data)`: the file `p` (created with its directories if need be)
   * now holds `data`. It fails on a directory, and when a directory on the way is a file.
   */
  function WriteFile(files: Tree, faulty: set<string>, p: string, data: Bytes): (r: Result<Tree>)
    ensures r.Ok? <==> p !in faulty && !IsDirectory(files, p) && !BlockedByFile(files, p)
    ensures r.Ok? ==> r.value.Keys == files.Keys + {p} && r.value[p] == data
    ensures r.Ok? ==> forall q :: q in files && q != p ==> r.value[q] == files[q]
  {
    if p in faulty then Err(IoError(p))
    else if IsDirectory(files, p) then Err(IsDirectoryError(p))
    else if BlockedByFile(files, p) then Err(NotADirectory(p))
    else Ok(files[p := data])
  }

  /**
   * `appendFile(p, data)`: `data` is added at the end of the file `p`, which is created
   * when absent. It fails on a directory, and when a directory on the way is a file.
   */
  function AppendFile(files: Tree, faulty: set<string>, p: string, data: Bytes): (r: Result<Tree>)
    ensures r.Ok? <==> p !in faulty && !IsDirectory(files, p) && !BlockedByFile(files, p)
    ensures r.Ok? ==> r.value.Keys == files.Keys + {p}
    ensures r.Ok? ==> r.value[p] == (if p in files then files[p] else []) + data
    ensures r.Ok? ==> forall q :: q in files && q != p ==> r.value[q] == files[q]
  {
    if p in faulty then Err(IoError(p))
    else if IsDirectory(files, p) then Err(IsDirectoryError(p))
    else if BlockedByFile(files, p) then Err(NotADirectory(p))
    else Ok(files[p := (if p in files then files[p] else []) + data])
  }

  /** The files that copying the tree `from` to `to` writes, keyed by destination. */
  function CopiedFiles(files: Tree, from: string, to: string): Tree {
    RebaseInjective(from, to);
    map q | q in files && Under(q, from) :: Rebase(q, from, to) := files[q]
  }

  /**
   * `fse.copy(from, to)`: every file of the file or directory `from` is written at the
   * same relative place under `to`; files already under `to` that `from` does not
   * have are kept, those it has are overwritten (see CopyTreeContents).
   */
  function CopyTree(files: Tree, faulty: set<string>, from: string, to: string): (r: Result<Tree>)
    ensures r.Ok? <==> from !in faulty && to !in faulty && Exists(files, from) && !Under(to, from)
  {
    if from in faulty then Err(IoError(from))
    else if to in faulty then Err(IoError(to))
    else if !Exists(files, from) then Err(NoEntry(from))
    else if from == to then Err("Source and destination must not be the same.")
    else if Under(to, from) then Err("Cannot copy '" + from + "' to a subdirectory of itself, '" + to + "'.")
    else Ok(files + CopiedFiles(files, from, to))
  }

  /**
   * What a successful copy leaves: every file that was there is still there; each file
   * under `from` has its copy under `to`; every other path keeps its contents.
   */
  lemma CopyTreeContents(files: Tree, faulty: set<string>, from: string, to: string)
    requires CopyTree(files, faulty, from, to).Ok?
    ensures files.Keys <= CopyTree(files, faulty, from, to).value.Keys
    ensures forall q :: q in files && Under(q, from) ==>
      Rebase(q, from, to) in CopyTree(files, faulty, from, to).value
      && CopyTree(files, faulty, from, to).value[Rebase(q, from, to)] == files[q]
    ensures forall p :: p in CopyTree(files, faulty, from, to).value && !(exists q :: q in files && Under(q, from) && p == Rebase(q, from, to)) ==>
      p in files && CopyTree(files, faulty, from, to).value[p] == files[p]
  {
    RebaseInjective(from, to);
  }

  /** The disk itself, which the plugins change in place. */
  class FileSystem {
    var files: Tree
    const faulty: set<string>

    constructor (files: Tree, faulty: set<string>)
      ensures this.files == files && this.faulty == faulty
    {
      this.files := files;
      this.faulty := faulty;
    }
  }
}
