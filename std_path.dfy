/**
 * The part of Rust's `std::path::PathBuf` the resolver relies on, on Unix:
 * a path is a root flag plus its components. Parsing drops empty
 * components and interior `.` components and keeps a leading `.` of a
 * relative path, as `Path::components` does; two strings with the same
 * components are the same path (and the same cache key).
 */
module StdPath {
  import opened Wrappers
  import opened Strings

  datatype Path = Path(absolute: bool, comps: seq<string>)

  /** The empty path `""` (`PathBuf::default()`). */
  const Empty := Path(false, [])

  /** Every component is a non-empty, separator-free name. */
  predicate WellFormed(p: Path) {
    forall i | 0 <= i < |p.comps| :: p.comps[i] != "" && '/' !in p.comps[i]
  }

  /** The segments that survive as normal components: no empty ones, no `.`. */
  function NormalComps(segs: seq<string>): (r: seq<string>)
    ensures forall i | 0 <= i < |r| :: r[i] != "" && r[i] != "." && r[i] in segs
  {
    if segs == [] then []
    else if segs[0] == "" || segs[0] == "." then NormalComps(segs[1..])
    else [segs[0]] + NormalComps(segs[1..])
  }

  /** `Path::new(s)`, seen through its components. */
  function Parse(s: string): (p: Path)
    ensures WellFormed(p)
    ensures p.absolute <==> |s| > 0 && s[0] == '/'
  {
    var segs := Split(s, '/');
    var abs := |s| > 0 && s[0] == '/';
    var lead := !abs && segs[0] == ".";
    Path(abs, (if lead then ["."] else []) + NormalComps(if lead then segs[1..] else segs))
  }

  /** `base.push(p)`: an absolute `p` replaces `base`, a relative one is appended. */
  function Push(base: Path, p: Path): (r: Path)
    ensures p.absolute ==> r == p
    ensures !p.absolute && base != Empty ==> r.absolute == base.absolute && |r.comps| >= |base.comps| && r.comps[..|base.comps|] == base.comps
  {
    if p.absolute || base == Empty then p
    else Path(base.absolute, base.comps + (if p.comps != [] && p.comps[0] == "." then p.comps[1..] else p.comps))
  }

  /** `Path::file_name`: the last component when it is a normal name. */
  function FileName(p: Path): Option<string> {
    if p.comps == [] then None
    else
      var last := p.comps[|p.comps| - 1];
      if last == "." || last == ".." then None else Some(last)
  }

  /** Index of the last `.` in `name`, if any. */
  function LastDot(name: string): (r: Option<nat>)
    ensures r.Some? ==> r.value < |name| && name[r.value] == '.' && '.' !in name[r.value + 1..]
    ensures r.None? ==> '.' !in name
  {
    if name == [] then None
    else if name[|name| - 1] == '.' then Some(|name| - 1)
    else
      var r := LastDot(name[..|name| - 1]);
      assert name == name[..|name| - 1] + [name[|name| - 1]];
      r
  }

  /** `file_stem` of a file name: everything before the last `.`, unless that `.` leads the name. */
  function Stem(name: string): string {
    var d := LastDot(name);
    if d.None? || d.value == 0 then name else name[..d.value]
  }

  /** `extension` of a file name: what follows the last `.`, unless that `.` leads the name. */
  function Ext(name: string): Option<string> {
    var d := LastDot(name);
    if d.None? || d.value == 0 then None else Some(name[d.value + 1..])
  }

  /** `Path::extension`. */
  function Extension(p: Path): Option<string> {
    var f := FileName(p);
    if f.None? then None else Ext(f.value)
  }

  /** `Path::file_stem`. */
  function FileStem(p: Path): Option<string> {
    var f := FileName(p);
    if f.None? then None else Some(Stem(f.value))
  }

  /** `set_extension(ext)`: the file name keeps its stem and takes `ext`; no file name, no change. */
  function SetExtension(p: Path, ext: string): (r: Path)
    ensures FileName(p).None? ==> r == p
    ensures |r.comps| == |p.comps| && r.absolute == p.absolute
    ensures forall i | 0 <= i < |p.comps| - 1 :: r.comps[i] == p.comps[i]
  {
    var f := FileName(p);
    if f.None? then p
    else Path(p.absolute, p.comps[..|p.comps| - 1] + [WithExtension(f.value, ext)])
  }

  /** The file name `name` after `set_extension(ext)`: its stem, then "." and `ext` unless `ext` is empty. */
  function WithExtension(name: string, ext: string): string {
    Stem(name) + (if ext == "" then "" else "." + ext)
  }

  /** `Path::parent`: the path without its last component; none for `""` and `/`. */
  function Parent(p: Path): (r: Option<Path>)
    ensures r.Some? <==> p.comps != []
    ensures r.Some? ==> r.value.absolute == p.absolute && r.value.comps + [p.comps[|p.comps| - 1]] == p.comps
  {
    if p.comps == [] then None else Some(Path(p.absolute, p.comps[..|p.comps| - 1]))
  }

  /** The path written out with `/` separators, as the archive names its entries. */
  function Render(p: Path): string {
    (if p.absolute then "/" else "") + (if p.comps == [] then "" else Join(p.comps, '/'))
  }

  /** The stem of "stem.ext" is "stem" when `ext` has no dot and `stem` is not empty. */
  lemma StemOfDotted(stem: string, ext: string)
    requires stem != "" && '.' !in ext
    ensures LastDot(stem + "." + ext) == Some(|stem|)
    ensures Stem(stem + "." + ext) == stem
    ensures Ext(stem + "." + ext) == Some(ext)
  {
    var name := stem + "." + ext;
    LastDotAfter(stem + ".", ext);
    assert name[..|stem|] == stem;
    assert name[|stem| + 1..] == ext;
  }

  /** A dot-free tail leaves the last dot where it was. */
  lemma {:induction false} LastDotAfter(a: string, b: string)
    requires a != [] && a[|a| - 1] == '.' && '.' !in b
    ensures LastDot(a + b) == Some(|a| - 1)
  {
    if b != [] {
      var ab := a + b;
      assert ab[..|ab| - 1] == a + b[..|b| - 1];
      assert forall c | c in b[..|b| - 1] :: c in b;
      LastDotAfter(a, b[..|b| - 1]);
    } else {
      assert a + b == a;
    }
  }

  /** A stem is never empty when the file name is not. */
  lemma StemNonEmpty(name: string)
    requires name != ""
    ensures Stem(name) != ""
  {
  }

  /**
   * After `set_extension(ext)` with a non-empty, dot-free `ext`, the path's
   * extension is `ext` and its stem is the one it had.
   */
  lemma SetExtensionForces(p: Path, ext: string)
    requires WellFormed(p) && FileName(p).Some?
    requires ext != "" && '.' !in ext
    ensures Extension(SetExtension(p, ext)) == Some(ext)
    ensures FileStem(SetExtension(p, ext)) == FileStem(p)
  {
    var n := FileName(p).value;
    WithExtensionNamesFile(n, ext);
    var r := SetExtension(p, ext);
    assert r.comps[|r.comps| - 1] == WithExtension(n, ext);
  }

  /** A non-empty name with a non-empty, dot-free extension set keeps its stem and is a file name. */
  lemma WithExtensionNamesFile(n: string, ext: string)
    requires n != "" && ext != "" && '.' !in ext
    ensures Stem(WithExtension(n, ext)) == Stem(n) && Ext(WithExtension(n, ext)) == Some(ext)
    ensures |WithExtension(n, ext)| >= 3
  {
    StemNonEmpty(n);
    StemOfDotted(Stem(n), ext);
    assert WithExtension(n, ext) == Stem(n) + "." + ext;
  }

  /**
   * Setting an extension twice is setting it once: whatever (non-empty,
   * dot-free) extension a path carried is replaced, not stacked.
   */
  lemma SetExtensionTwice(p: Path, a: string, b: string)
    requires WellFormed(p)
    requires a != "" && '.' !in a
    ensures SetExtension(SetExtension(p, a), b) == SetExtension(p, b)
  {
    if FileName(p).Some? {
      var n := FileName(p).value;
      WithExtensionNamesFile(n, a);
      var q := SetExtension(p, a);
      var na := WithExtension(n, a);
      assert q.comps == p.comps[..|p.comps| - 1] + [na];
      assert q.comps[|q.comps| - 1] == na;
      assert FileName(q) == Some(na);
      assert WithExtension(na, b) == WithExtension(n, b);
      assert q.comps[..|q.comps| - 1] == p.comps[..|p.comps| - 1];
    }
  }
}
