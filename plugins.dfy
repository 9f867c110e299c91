/**
 * What the plugins share: the include/exclude patterns they hand to `createFilter`
 * of rollup-pluginutils, the `path` operations of Node, and the `resolveId` hook
 * that the minifier and the style importer both implement the same way. The
 * matching of patterns and the resolution of paths belong to those libraries, so
 * they are parameters here.
 */
module Plugins {
  import opened Wrappers
  import opened Strings

  /** A glob string or a regular expression literal, kept as its source text. */
  datatype Pattern = Glob(glob: string) | Regex(source: string)

  /** `createFilter(include, exclude)`: the predicate deciding which ids a plugin handles. */
  type CreateFilter = (seq<Pattern>, seq<Pattern>) -> (string -> bool)

  /** `path.resolve(from, to)` and `path.dirname(p)`. */
  datatype PathOps = PathOps(resolve: (string, string) -> string, dirname: string -> string)

  /** `${pattern}`: a glob as it is, a regular expression as `/source/`. */
  function PatternText(p: Pattern): string {
    match p
    case Glob(g) => g
    case Regex(src) => "/" + src + "/"
  }

  /** `${patterns}`: an array interpolates as its elements joined by commas. */
  function PatternsText(ps: seq<Pattern>): string {
    Join(seq(|ps|, i requires 0 <= i < |ps| => PatternText(ps[i])), ",")
  }

  /**
   * `resolveId(id, importer)`: nothing when there is no importer (an absent or empty
   * one, as `!importer` reads it) or the plugin does not handle `id`; otherwise `id`
   * resolved against the importer's directory.
   */
  function ResolveImport(handles: string -> bool, paths: PathOps, id: string, importer: Option<string>): (r: Option<string>)
    ensures r.Some? <==> importer.Some? && importer.value != "" && handles(id)
    ensures r.Some? ==> r.value == paths.resolve(paths.dirname(importer.value), id)
  {
    if importer.None? || importer.value == "" || !handles(id) then None
    else Some(paths.resolve(paths.dirname(importer.value), id))
  }
}
