/**
 * The Markdown and HTML snippets the README generator assembles. The line break
 * the generator uses and its `replace` helper, which fills package placeholders into
 * a badge, are defined outside these templates and are parameters here.
 */
module ReadmeTemplates {
  import opened Wrappers
  import opened Strings
  import opened JsValues

  /** The largest array length plus one; `Array(n)` throws a RangeError from there on. */
  const ArrayLengthLimit: int := 0x1_0000_0000

  const InvalidArrayLength: string := "RangeError: Invalid array length"

  /** `readmeTitleTemplate(title)` */
  function ReadmeTitleTemplate(title: string): (r: string)
    ensures StartsWith(r, "<h1 align=\"center\">") && EndsWith(r, title + "</h1>")
    ensures |r| == |title| + 24
  {
    "<h1 align=\"center\">" + title + "</h1>"
  }

  /** `lineTemplate()`: the image that separates the top-level sections. */
  const LineTemplate: string := "![split](https://github.com/andreasbm/web-config/raw/master/split.png)"

  /** What precedes the `#` characters: the separator line and two line breaks for levels up to 2. */
  function BeforeTitle(level: int, lineBreak: string): string {
    if level <= 2 then LineTemplate + lineBreak + lineBreak else ""
  }

  /** What separates the `#` characters from the title: ` ❯ ` for levels up to 2, a space otherwise. */
  function BeforeContent(level: int): string {
    if level <= 2 then " \U{276F} " else " "
  }

  /**
   * `titleTemplate(title, level)`: `level` `#` characters between the prefix and the
   * separator, then the title; `Array(level)` throws for a negative or too large level.
   */
  function TitleTemplate(title: string, level: int, lineBreak: string): (r: Result<string>)
    ensures r.Ok? <==> 0 <= level < ArrayLengthLimit
    ensures r.Err? ==> r.error == InvalidArrayLength
    ensures r.Ok? ==>
      var pre := BeforeTitle(level, lineBreak);
      StartsWith(r.value, pre) && |r.value| == |pre| + level + |BeforeContent(level)| + |title|
      && (forall i :: |pre| <= i < |pre| + level ==> r.value[i] == '#')
      && EndsWith(r.value, BeforeContent(level) + title)
  {
    if level < 0 || level >= ArrayLengthLimit then Err(InvalidArrayLength)
    else Ok(Heading(BeforeTitle(level, lineBreak), level, BeforeContent(level), title))
  }

  /** `pre`, `level` `#` characters, `sep` and `title`, one after the other. */
  function Heading(pre: string, level: nat, sep: string, title: string): (r: string)
    ensures StartsWith(r, pre) && |r| == |pre| + level + |sep| + |title|
    ensures forall i :: |pre| <= i < |pre| + level ==> r[i] == '#'
    ensures EndsWith(r, sep + title)
    ensures r[|pre|..] == Repeat('#', level) + sep + title
  {
    var hashes := Repeat('#', level);
    var r := pre + (hashes + sep + title);
    assert r[..|pre|] == pre;
    assert r[|pre|..] == hashes + sep + title;
    assert forall i :: |pre| <= i < |pre| + level ==> r[i] == hashes[i - |pre|];
    assert r[|r| - |sep + title|..] == sep + title;
    assert r == pre + hashes + sep + title;
    r
  }

  /** The number of `#` characters `s` starts with. */
  function LeadingHashes(s: string): (n: nat)
    ensures n <= |s| && (forall i :: 0 <= i < n ==> s[i] == '#') && (n < |s| ==> s[n] != '#')
  {
    if s != [] && s[0] == '#' then 1 + LeadingHashes(s[1..]) else 0
  }

  lemma {:induction false} LeadingHashesOfHeading(n: nat, rest: string)
    requires rest == [] || rest[0] != '#'
    ensures LeadingHashes(Repeat('#', n) + rest) == n
  {
    if n > 0 {
      assert (Repeat('#', n) + rest)[1..] == Repeat('#', n - 1) + rest;
      LeadingHashesOfHeading(n - 1, rest);
    } else {
      assert Repeat('#', n) + rest == rest;
    }
  }

  /** The heading can be read back: after the prefix, its `#` characters count the level, and the title follows the separator. */
  lemma TitleIsReadable(title: string, level: int, lineBreak: string)
    requires 0 <= level < ArrayLengthLimit
    ensures var r := TitleTemplate(title, level, lineBreak).value;
            var heading := r[|BeforeTitle(level, lineBreak)|..];
            LeadingHashes(heading) == level && heading[level + |BeforeContent(level)|..] == title
  {
    var rest := BeforeContent(level) + title;
    assert Repeat('#', level) + BeforeContent(level) + title == Repeat('#', level) + rest;
    assert rest[0] == ' ';
    LeadingHashesOfHeading(level, rest);
    assert (Repeat('#', level) + rest)[level + |BeforeContent(level)|..] == title;
  }

  /** One badge of the package configuration. */
  datatype Badge = Badge(url: string, name: string, img: string)

  /** The link for one badge, before `replace` fills in the package placeholders. */
  function BadgeAnchor(b: Badge): string {
    "<a href=\"" + b.url + "\"><img alt=\"" + b.name + "\" src=\"" + b.img + "\" height=\"20\"></img></a>"
  }

  /** `badges.map(badge => replace(<its anchor>, pkg))` */
  function BadgeAnchors(badges: seq<Badge>, pkg: Value, replace: (string, Value) -> string): (r: seq<string>)
    ensures |r| == |badges| && forall i :: 0 <= i < |r| ==> r[i] == replace(BadgeAnchor(badges[i]), pkg)
  {
    seq(|badges|, i requires 0 <= i < |badges| => replace(BadgeAnchor(badges[i]), pkg))
  }

  const BadgesOpen: string := "<p align=\"center\">\n\t\t"
  const BadgesClose: string := "\n\t</p>\n\t"

  /** `badgesTemplate(badges, pkg)`: the anchors, in order, joined by the commas of array-to-string. */
  function BadgesTemplate(badges: seq<Badge>, pkg: Value, replace: (string, Value) -> string): string {
    BadgesOpen + Join(BadgeAnchors(badges, pkg, replace), ",") + BadgesClose
  }

  /** Badge lists compose: the anchors of `a + b` are those of `a`, a comma, and those of `b`. */
  lemma BadgesCompose(a: seq<Badge>, b: seq<Badge>, pkg: Value, replace: (string, Value) -> string)
    requires a != [] && b != []
    ensures BadgesTemplate(a + b, pkg, replace)
      == BadgesOpen + Join(BadgeAnchors(a, pkg, replace), ",") + "," + Join(BadgeAnchors(b, pkg, replace), ",") + BadgesClose
  {
    assert BadgeAnchors(a + b, pkg, replace) == BadgeAnchors(a, pkg, replace) + BadgeAnchors(b, pkg, replace);
    JoinAppend(BadgeAnchors(a, pkg, replace), BadgeAnchors(b, pkg, replace), ",");
  }

  /** A single badge is its replaced anchor between the paragraph tags, with no comma. */
  lemma SingleBadge(b: Badge, pkg: Value, replace: (string, Value) -> string)
    ensures BadgesTemplate([b], pkg, replace) == BadgesOpen + replace(BadgeAnchor(b), pkg) + BadgesClose
  {
    assert BadgeAnchors([b], pkg, replace) == [replace(BadgeAnchor(b), pkg)];
  }

  /** `${licensUrlsMap[license]}`: a license without a URL reads as `undefined`. */
  function LicenseUrl(license: string, urls: map<string, string>): string {
    if license in urls then urls[license] else "undefined"
  }

  /** `licenseTemplate(license, urls)`: the level-2 `License` heading, then the license line. */
  function LicenseTemplate(license: string, urls: map<string, string>, lineBreak: string): (r: string)
    ensures StartsWith(r, TitleTemplate("License", 2, lineBreak).value)
    ensures EndsWith(r, "\n\t\nLicensed under [" + license + "](" + LicenseUrl(license, urls) + ").")
  {
    var title := TitleTemplate("License", 2, lineBreak).value;
    var line := "\n\t\nLicensed under [" + license + "](" + LicenseUrl(license, urls) + ").";
    assert (title + line)[..|title|] == title;
    title + line
  }

  /** `demoTemplate(url)` */
  function DemoTemplate(url: string): string {
    "Go here to see a demo <a href=\"" + url + "\">" + url + "</a>."
  }

  const DescriptionClose: string := "<sub>\n</p>\n\n<br />"

  /** The opening of the description block, up to the `<sub>` that holds the optional parts. */
  function DescriptionOpen(description: string): string {
    "<p align=\"center\">\n  <b>" + description + "</b></br>\n  <sub>"
  }

  /**
   * `descriptionTemplate(description, text, demo)`: the text when there is one, then
   * the demo sentence preceded by a space when there is a demo URL.
   */
  function DescriptionTemplate(description: string, text: Option<string>, demo: Option<string>): (r: string)
    ensures StartsWith(r, DescriptionOpen(description)) && EndsWith(r, DescriptionClose)
    ensures text.None? && demo.None? ==> r == DescriptionOpen(description) + DescriptionClose
    ensures text.Some? && demo.None? ==> r == DescriptionOpen(description) + text.value + DescriptionClose
  {
    var open, body := DescriptionOpen(description), if text.Some? then text.value else "";
    var r := open + body + (if demo.Some? then " " + DemoTemplate(demo.value) else "") + DescriptionClose;
    assert demo.None? ==> r == open + body + DescriptionClose by {
      assert open + body + "" == open + body;
    }
    assert r[..|DescriptionOpen(description)|] == DescriptionOpen(description);
    assert r[|r| - |DescriptionClose|..] == DescriptionClose;
    r
  }

  /** A demo URL adds exactly ` <demo sentence>` just before the closing part and changes nothing else. */
  lemma DemoIsInsertedBeforeClose(description: string, text: Option<string>, url: string)
    ensures var without := DescriptionTemplate(description, text, None);
            var k := |without| - |DescriptionClose|;
            DescriptionTemplate(description, text, Some(url)) == without[..k] + " " + DemoTemplate(url) + without[k..]
  {
    var without := DescriptionTemplate(description, text, None);
    var k := |without| - |DescriptionClose|;
    var middle := DescriptionOpen(description) + (if text.Some? then text.value else "");
    assert without == middle + DescriptionClose;
    assert without[..k] == middle && without[k..] == DescriptionClose;
  }

  /** A text left out and an empty text give the same block. */
  lemma EmptyTextIsOmitted(description: string, demo: Option<string>)
    ensures DescriptionTemplate(description, Some(""), demo) == DescriptionTemplate(description, None, demo)
  {
  }

  /** `bullets.map(bullet => "* " + bullet)` */
  function Bullets(bullets: seq<string>): (r: seq<string>)
    ensures |r| == |bullets| && forall i :: 0 <= i < |r| ==> r[i] == "* " + bullets[i]
  {
    seq(|bullets|, i requires 0 <= i < |bullets| => "* " + bullets[i])
  }

  /** `bulletsTemplate(bullets)`: the bullet lines joined by the line break. */
  function BulletsTemplate(bullets: seq<string>, lineBreak: string): (r: string)
    ensures bullets == [] ==> r == ""
    ensures |bullets| == 1 ==> r == "* " + bullets[0]
  {
    Join(Bullets(bullets), lineBreak)
  }

  /** Bullet lists compose: the bullets of `a + b` are those of `a`, a line break, and those of `b`. */
  lemma BulletsCompose(a: seq<string>, b: seq<string>, lineBreak: string)
    requires a != [] && b != []
    ensures BulletsTemplate(a + b, lineBreak) == BulletsTemplate(a, lineBreak) + lineBreak + BulletsTemplate(b, lineBreak)
  {
    assert Bullets(a + b) == Bullets(a) + Bullets(b);
    JoinAppend(Bullets(a), Bullets(b), lineBreak);
  }

  /** `sectionTemplate({title, content})`: the level-2 heading, a blank line, then the content verbatim. */
  function SectionTemplate(title: string, content: string, lineBreak: string): (r: string)
    ensures var heading := TitleTemplate(title, 2, lineBreak).value;
            StartsWith(r, heading) && r[|heading|..] == "\n\n" + content
  {
    var heading := TitleTemplate(title, 2, lineBreak).value;
    var r := heading + ("\n\n" + content);
    assert r[..|heading|] == heading;
    assert r[|heading|..] == "\n\n" + content;
    r
  }
}
