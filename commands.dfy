/**
  The pure parts of `compile_rust_extension` and `compile_grammar`: where
  their artifacts live and the `cargo` and `clang` command lines they run.
*/
module Commands {
  import opened Base
  import opened Paths
  import opened Outcomes

  /** The Rust target that supports the WASM component model. */
  const RustTarget: string := "wasm32-wasip2"

  function Profile(release: bool): string {
    if release then "release" else "debug"
  }

  /** `cargo build --target wasm32-wasip2 [--release] --target-dir <dir>/target`, run in `dir` with `RUSTC_WRAPPER` cleared. */
  function CargoCommand(dir: Path, release: bool): (r: Command)
    ensures r.program == Lit("cargo")
    ensures |r.args| == if release then 6 else 5
    ensures |r.args| >= 3 && r.args[..3] == [Lit("build"), Lit("--target"), Lit(RustTarget)]
    ensures Lit("--release") in r.args <==> release
    ensures exists i :: 0 <= i < |r.args| - 1 && r.args[i] == Lit("--target") && r.args[i + 1] == Lit(RustTarget)
    ensures exists i :: 0 <= i < |r.args| - 1 && r.args[i] == Lit("--target-dir") && r.args[i + 1] == PathArg(dir + ["target"])
    ensures ("RUSTC_WRAPPER", "") in r.env
    ensures r.cwd == Some(dir)
  {
    var args := [Lit("build"), Lit("--target"), Lit(RustTarget)]
      + (if release then [Lit("--release")] else [])
      + [Lit("--target-dir"), PathArg(dir + ["target"])];
    assert args[1] == Lit("--target") && args[2] == Lit(RustTarget);
    assert args[|args| - 2] == Lit("--target-dir") && args[|args| - 1] == PathArg(dir + ["target"]);
    Command(Lit("cargo"), args, [("RUSTC_WRAPPER", "")], Some(dir))
  }

  /** The package name with every '-' replaced by '_', as the wasm target names its output. */
  function Underscored(name: string): (r: string)
    ensures |r| == |name|
    ensures forall i :: 0 <= i < |name| ==> r[i] == if name[i] == '-' then '_' else name[i]
    ensures '-' !in r
  {
    if name == [] then []
    else [if name[0] == '-' then '_' else name[0]] + Underscored(name[1..])
  }

  /** Where cargo leaves the compiled component: `dir/target/wasm32-wasip2/<profile>/<name with '_'>.wasm`. */
  function ComponentPath(dir: Path, release: bool, packageName: string): Path {
    SetExtension(dir + ["target", RustTarget, Profile(release), Underscored(packageName)], "wasm")
  }

  /** Where the compiled library is copied: `extension.wasm` at the extension root. */
  function ExtensionWasmPath(dir: Path): Path {
    dir + ["extension.wasm"]
  }

  /** A stem is a prefix of its name, so a character missing from the name is missing from the stem. */
  lemma StemIsPrefix(name: string)
    ensures |Stem(name)| <= |name| && Stem(name) == name[..|Stem(name)|]
  {
  }

  /**
    The component lies under `dir/target/wasm32-wasip2/<profile>` and its
    file stem never contains '-', whatever the package name.
  */
  lemma ComponentPathLayout(dir: Path, release: bool, packageName: string)
    ensures var r := ComponentPath(dir, release, packageName);
      && |r| == |dir| + 4
      && r[..|dir| + 3] == dir + ["target", RustTarget, Profile(release)]
      && '-' !in Stem(r[|dir| + 3])
  {
    var u := Underscored(packageName);
    var p := dir + ["target", RustTarget, Profile(release), u];
    SetExtensionKeepsDir(p, "wasm");
    assert p[..|p| - 1] == dir + ["target", RustTarget, Profile(release)];
    StemIsPrefix(u);
    if FileName(p).Some? {
      SetExtensionThenExtension(p, "wasm");
    }
  }

  /** For an ordinary package name the component file is the underscored name plus ".wasm". */
  lemma ComponentPathFileName(dir: Path, release: bool, packageName: string)
    requires packageName != "" && packageName != Root && '.' !in packageName
    ensures ComponentPath(dir, release, packageName)
      == dir + ["target", RustTarget, Profile(release), Underscored(packageName) + ".wasm"]
  {
    var u := Underscored(packageName);
    var p := dir + ["target", RustTarget, Profile(release), u];
    assert '.' !in u;
    assert FileName(p) == Some(u);
    SetExtensionDotFree(p, "wasm");
    assert "." + "wasm" == ".wasm";
    assert u + ("." + "wasm") == u + ".wasm";
    assert p[..|p| - 1] == dir + ["target", RustTarget, Profile(release)];
  }

  /**
    A package whose name contains '-' is looked for under the underscored
    name: the component's file name holds no '-', so it is never the
    package name itself plus ".wasm".
  */
  lemma DashedPackageName(dir: Path, release: bool, packageName: string)
    requires packageName != "" && packageName != Root && '.' !in packageName
    requires '-' in packageName
    ensures var file := ComponentPath(dir, release, packageName)[|dir| + 3];
      '-' !in file && file != packageName + ".wasm"
  {
    ComponentPathFileName(dir, release, packageName);
    var file := Underscored(packageName) + ".wasm";
    assert '-' !in ".wasm";
    assert '-' !in file;
    assert '-' in packageName + ".wasm";
  }

  /** The working tree of grammar `name`: `dir/grammars/<name>`. */
  function GrammarRepoDir(dir: Path, name: string): Path {
    dir + ["grammars", name]
  }

  /** The compiled grammar: the working tree's path with its extension set to "wasm". */
  function GrammarWasmPath(dir: Path, name: string): Path {
    SetExtension(GrammarRepoDir(dir, name), "wasm")
  }

  /** The grammar's sources: the working tree joined with the entry's optional subpath. */
  function GrammarSourceRoot(repoDir: Path, subpath: Option<Path>): Path {
    match subpath
    case None => repoDir
    case Some(p) => Join(repoDir, p)
  }

  /**
    The compiled grammar sits beside its working tree in `dir/grammars`; for
    a dot-free name it is `<name>.wasm`, and in every case its stem is the
    stem of the grammar name.
  */
  lemma GrammarWasmPathLayout(dir: Path, name: string)
    requires name != "" && name != Root && name != "." && name != ".."
    ensures var w := GrammarWasmPath(dir, name);
      && |w| == |dir| + 2
      && w[..|dir| + 1] == dir + ["grammars"]
      && Extension(w[|dir| + 1]) == Some("wasm")
      && Stem(w[|dir| + 1]) == Stem(name)
    ensures '.' !in name ==> GrammarWasmPath(dir, name) == dir + ["grammars", name + ".wasm"]
  {
    var p := GrammarRepoDir(dir, name);
    assert FileName(p) == Some(name);
    SetExtensionThenExtension(p, "wasm");
    assert p[..|p| - 1] == dir + ["grammars"];
    if '.' !in name {
      SetExtensionDotFree(p, "wasm");
      assert "." + "wasm" == ".wasm";
      assert name + ("." + "wasm") == name + ".wasm";
    }
  }

  /** With no subpath, or a relative one, the grammar sources stay inside the working tree. */
  lemma SourceRootInsideRepo(repoDir: Path, subpath: Option<Path>)
    requires subpath.None? || !IsAbsolute(subpath.value)
    ensures |GrammarSourceRoot(repoDir, subpath)| >= |repoDir|
    ensures GrammarSourceRoot(repoDir, subpath)[..|repoDir|] == repoDir
  {
  }

  /** The symbol a compiled grammar must export: `tree_sitter_<name>`. */
  function ExportFlag(name: string): string {
    "-Wl,--export=tree_sitter_" + name
  }

  /**
    The `clang` invocation for one grammar: WASI target and sysroot, shared
    size-optimised output to `wasmPath`, the export of `tree_sitter_<name>`,
    `src` as include path, `src/parser.c` and, only when it exists,
    `src/scanner.c`.
  */
  function ClangCommand(clang: Path, wasiLibc: string, name: string, wasmPath: Path, src: Path, scannerExists: bool): (r: Command)
    ensures r.program == PathArg(clang)
    ensures |r.args| == if scannerExists then 12 else 11
    ensures |r.args| >= 5 && r.args[0] == Lit("--target=wasm32-wasi") && r.args[1] == Lit("--sysroot=" + wasiLibc)
    ensures r.args[2] == Lit("-fPIC") && r.args[3] == Lit("-shared") && r.args[4] == Lit("-Os")
    ensures Lit(ExportFlag(name)) in r.args
    ensures exists i :: 0 <= i < |r.args| - 1 && r.args[i] == Lit("-o") && r.args[i + 1] == PathArg(wasmPath)
    ensures exists i :: 0 <= i < |r.args| - 1 && r.args[i] == Lit("-I") && r.args[i + 1] == PathArg(src)
    ensures PathArg(src + ["parser.c"]) in r.args
    ensures wasmPath != src + ["scanner.c"] ==> (PathArg(src + ["scanner.c"]) in r.args <==> scannerExists)
  {
    var target := [Lit("--target=wasm32-wasi"), Lit("--sysroot=" + wasiLibc), Lit("-fPIC"), Lit("-shared"), Lit("-Os")];
    var fixed := target + [Lit(ExportFlag(name)),
      Lit("-o"), PathArg(wasmPath), Lit("-I"), PathArg(src), PathArg(src + ["parser.c"])];
    var args := fixed + if scannerExists then [PathArg(src + ["scanner.c"])] else [];
    assert args[..5] == target;
    assert args[5] == Lit(ExportFlag(name));
    assert args[6] == Lit("-o") && args[7] == PathArg(wasmPath);
    assert args[8] == Lit("-I") && args[9] == PathArg(src);
    assert args[10] == PathArg(src + ["parser.c"]);
    assert src + ["parser.c"] != src + ["scanner.c"] by {
      assert (src + ["parser.c"])[|src|] != (src + ["scanner.c"])[|src|];
    }
    Command(PathArg(clang), args, [], None)
  }

  /**
    In the command `compile_grammar` builds, whatever the grammar name and
    subpath, `src/scanner.c` is passed exactly when it exists, and the
    export flag names the grammar.
  */
  lemma GrammarScannerArgument(dir: Path, name: string, subpath: Option<Path>, clang: Path, wasiLibc: string, scannerExists: bool)
    ensures var src := GrammarSourceRoot(GrammarRepoDir(dir, name), subpath) + ["src"];
      var cmd := ClangCommand(clang, wasiLibc, name, GrammarWasmPath(dir, name), src, scannerExists);
      && (PathArg(src + ["scanner.c"]) in cmd.args <==> scannerExists)
      && Lit("-Wl,--export=tree_sitter_" + name) in cmd.args
  {
    var src := GrammarSourceRoot(GrammarRepoDir(dir, name), subpath) + ["src"];
    var w := GrammarWasmPath(dir, name);
    var scanner := src + ["scanner.c"];
    SetExtensionKeepsDir(GrammarRepoDir(dir, name), "wasm");
    assert w[|w| - 2] == "grammars";
    assert scanner[|scanner| - 2] == "src";
    assert w != scanner by {
      if |w| == |scanner| { assert w[|w| - 2] != scanner[|scanner| - 2]; }
    }
  }
}
