/**
  File-system paths as sequences of components, with the handful of path
  operations the builder relies on: joining, the extension and stem of a
  file name, and replacing a path's extension. The definitions follow the
  behaviour of Rust's `std::path::Path`/`PathBuf` on Unix.
*/
module Paths {
  import opened Base

  /** A path is its list of components; an absolute path starts with the root component. */
  type Path = seq<string>

  const Root: string := "/"

  predicate IsAbsolute(p: Path) {
    |p| > 0 && p[0] == Root
  }

  /** `base.join(p)`: an absolute `p` replaces the base, a relative one is appended. */
  function Join(base: Path, p: Path): Path {
    if IsAbsolute(p) then p else base + p
  }

  /** The position of the last '.' in `s`, if any. */
  function LastDot(s: string): (r: Option<nat>)
    ensures r.Some? ==> r.value < |s| && s[r.value] == '.'
    ensures r.Some? ==> forall j :: r.value < j < |s| ==> s[j] != '.'
    ensures r.None? ==> forall j :: 0 <= j < |s| ==> s[j] != '.'
  {
    if |s| == 0 then None
    else if s[|s| - 1] == '.' then Some(|s| - 1)
    else LastDot(s[..|s| - 1])
  }

  /**
    The extension of a file name: the text after the last '.', unless the
    name is ".." or that '.' is the name's first character (a dot file).
  */
  function Extension(name: string): Option<string> {
    if name == ".." then None
    else match LastDot(name)
      case None => None
      case Some(i) => if i == 0 then None else Some(name[i + 1..])
  }

  /** The file stem: the name without its extension and the '.' before it. */
  function Stem(name: string): string {
    if name == ".." then name
    else match LastDot(name)
      case None => name
      case Some(i) => if i == 0 then name else name[..i]
  }

  /** A name is split into stem and extension exactly at its last dot. */
  lemma StemExtensionRoundTrip(name: string)
    requires Extension(name).Some?
    ensures Stem(name) + "." + Extension(name).value == name
    ensures '.' !in Extension(name).value
    ensures |Stem(name)| > 0
  {
    var i := LastDot(name).value;
    assert name == name[..i] + "." + name[i + 1..];
  }

  /** A name without an extension is its own stem. */
  lemma StemWithoutExtension(name: string)
    requires Extension(name).None?
    ensures Stem(name) == name
  {
  }

  /** `Path::file_name`: the last component unless the path ends in the root, "." or "..". */
  function FileName(p: Path): Option<string> {
    if |p| == 0 then None
    else
      var last := p[|p| - 1];
      if last == "" || last == Root || last == "." || last == ".." then None else Some(last)
  }

  /**
    `PathBuf::set_extension`: replace what follows the stem of the file name
    by `ext` (dropping the dot when `ext` is empty); a path without a file
    name is left as it is.
  */
  function SetExtension(p: Path, ext: string): Path {
    match FileName(p)
    case None => p
    case Some(name) =>
      p[..|p| - 1] + [if ext == "" then Stem(name) else Stem(name) + "." + ext]
  }

  /** Setting an extension touches only the last component. */
  lemma SetExtensionKeepsDir(p: Path, ext: string)
    ensures |SetExtension(p, ext)| == |p|
    ensures |p| > 0 ==> SetExtension(p, ext)[..|p| - 1] == p[..|p| - 1]
  {
  }

  /**
    After `SetExtension(p, ext)` with a dot-free, non-empty `ext`, the path has
    the same directory, its file stem is unchanged and its extension is `ext`.
  */
  lemma SetExtensionThenExtension(p: Path, ext: string)
    requires FileName(p).Some?
    requires ext != "" && '.' !in ext
    ensures |SetExtension(p, ext)| == |p|
    ensures SetExtension(p, ext)[..|p| - 1] == p[..|p| - 1]
    ensures FileName(SetExtension(p, ext)).Some?
    ensures Extension(FileName(SetExtension(p, ext)).value) == Some(ext)
    ensures Stem(FileName(SetExtension(p, ext)).value) == Stem(FileName(p).value)
  {
    var name := FileName(p).value;
    var stem := Stem(name);
    var n := stem + "." + ext;
    assert |stem| > 0 by {
      if Extension(name).Some? { StemExtensionRoundTrip(name); }
    }
    assert n != ".." && n != "." && n != Root && n != "";
    var d := LastDot(n);
    assert n[|stem|] == '.';
    assert forall j :: |stem| < j < |n| ==> n[j] != '.' by {
      forall j | |stem| < j < |n| ensures n[j] != '.' {
        assert n[j] == ext[j - |stem| - 1];
      }
    }
    assert d.Some? && d.value == |stem|;
    assert n[|stem| + 1..] == ext;
    assert n[..|stem|] == stem;
  }

  /** A name holding no dot is its own stem, so setting an extension just appends it. */
  lemma SetExtensionDotFree(p: Path, ext: string)
    requires FileName(p).Some? && '.' !in FileName(p).value
    ensures SetExtension(p, ext) == p[..|p| - 1] + [FileName(p).value + (if ext == "" then "" else "." + ext)]
  {
    var name := FileName(p).value;
    assert LastDot(name).None?;
    assert Stem(name) == name;
    if ext == "" {
      assert name + "" == name;
    } else {
      assert Stem(name) + "." + ext == name + ("." + ext);
    }
  }
}
