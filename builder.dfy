/**
  The extension compiler, `ExtensionBuilder`: normalise the manifest,
  compile the Rust library if there is one, then compile every grammar,
  failing fast. Subprocesses, the version-tag extractor and file writes
  are inputs; the result is the outcome, the manifest afterwards and the
  trace of actions issued.
*/
module Builder {
  import opened Base
  import opened Paths
  import opened Outcomes
  import opened Manifests
  import opened FileSystem
  import opened Normalizer
  import opened Commands
  import opened Fetcher

  /** Reading and parsing `Cargo.toml` for the package name. */
  datatype CargoRead = Unreadable | Unparseable | Package(name: string)

  /**
    What the outside world does during the library stage: the `Cargo.toml`
    read, the `cargo` run, the files cargo leaves behind, the extension API
    version extractor (given the manifest id and the component bytes) and
    whether writing `extension.wasm` works.
  */
  datatype RustWorld = RustWorld(
    cargoToml: CargoRead,
    cargo: Proc,
    built: map<Path, seq<Byte>>,
    apiVersion: (string, seq<Byte>) -> Option<Version>,
    writeOk: bool)

  /**
    What the outside world does while one grammar is compiled: where clang
    was found, the git runs, whether `src/scanner.c` exists once the
    checkout is over, and the clang run.
  */
  datatype GrammarWorld = GrammarWorld(clang: Option<Path>, git: GitOutcomes, scannerExists: bool, clangRun: Proc)

  /** Everything a build observes besides the directory snapshot. */
  datatype BuildEnv = BuildEnv(
    cacheDirOk: bool,
    wasiLibcPath: string,
    rust: RustWorld,
    grammar: string -> GrammarWorld)

  /** The library stage: its outcome, its actions, and the version it records (if it got that far). */
  datatype RustRun = RustRun(outcome: Outcome, trace: seq<Action>, version: Option<Version>)

  function CargoTomlPath(dir: Path): Path {
    dir + ["Cargo.toml"]
  }

  /**
    `compile_rust_extension`: read the package name, run cargo, read the
    component from where cargo leaves it, extract its API version, then
    write it to `extension.wasm`.
  */
  function RustStage(dir: Path, id: string, release: bool, w: RustWorld): RustRun {
    match w.cargoToml
    case Unreadable => RustRun(Fail(CargoTomlReadFailed(CargoTomlPath(dir))), [], None)
    case Unparseable => RustRun(Fail(CargoTomlParseFailed(CargoTomlPath(dir))), [], None)
    case Package(name) =>
      var cargo := [Exec(CargoCommand(dir, release))];
      if w.cargo.SpawnFailed? then RustRun(Fail(CommandNotRun("cargo")), cargo, None)
      else if !w.cargo.success then RustRun(Fail(CargoFailed(w.cargo.stderr)), cargo, None)
      else
        var component := ComponentPath(dir, release, name);
        if component !in w.built then RustRun(Fail(ComponentReadFailed(component)), cargo, None)
        else
          var bytes := w.built[component];
          match w.apiVersion(id, bytes)
          case None => RustRun(Fail(NoExtensionApiVersion), cargo, None)
          case Some(v) =>
            var written := cargo + [WriteFile(ExtensionWasmPath(dir), bytes)];
            if w.writeOk then RustRun(Pass, written, Some(v))
            else RustRun(Fail(ExtensionWriteFailed(ExtensionWasmPath(dir))), written, Some(v))
  }

  /** The manifest after the library stage: only `lib.version` may change. */
  function WithVersion(m: ManifestData, version: Option<Version>): ManifestData {
    if version.Some? then m.(lib := m.lib.(version := version)) else m
  }

  /**
    `compile_grammar`: find clang, fetch the grammar's repository into
    `dir/grammars/<name>`, then compile its `src/parser.c` (and
    `src/scanner.c` when present) into `dir/grammars/<name>.wasm`.
  */
  function CompileGrammar(dir: Path, name: string, entry: GrammarEntry, wasiLibc: string, w: GrammarWorld, fs: Fs): Run {
    if w.clang.None? then Run(Fail(ClangNotFound), [])
    else
      var repoDir := GrammarRepoDir(dir, name);
      var fetch := CheckoutRepo(repoDir, entry.repository, entry.rev, fs.Exists(repoDir), w.git);
      if fetch.outcome.Fail? then fetch
      else
        var src := GrammarSourceRoot(repoDir, entry.path) + ["src"];
        var clang := ClangCommand(w.clang.value, wasiLibc, name, GrammarWasmPath(dir, name), src, w.scannerExists);
        var trace := fetch.trace + [Exec(clang)];
        if w.clangRun.SpawnFailed? then Run(Fail(CommandNotRun("clang")), trace)
        else if !w.clangRun.success then Run(Fail(ClangFailed(name, w.clangRun.stderr)), trace)
        else Run(Pass, trace)
  }

  /** The grammar loop over `names`, in order, after the actions `before`, stopping at the first failure. */
  function CompileGrammars(dir: Path, grammars: map<string, GrammarEntry>, names: seq<string>, env: BuildEnv, fs: Fs, before: seq<Action>): Run
    requires forall i :: 0 <= i < |names| ==> names[i] in grammars
    decreases |names|
  {
    if names == [] then Run(Pass, before)
    else
      var prev := CompileGrammars(dir, grammars, names[..|names| - 1], env, fs, before);
      if prev.outcome.Fail? then prev
      else
        var name := names[|names| - 1];
        var r := CompileGrammar(dir, name, grammars[name], env.wasiLibcPath, env.grammar(name), fs);
        Run(if r.outcome.Fail? then Fail(GrammarFailed(name, r.outcome.error)) else Pass, prev.trace + r.trace)
  }

  /** `order` lists every key of `grammars` exactly once: the map's iteration order. */
  predicate Enumerates(order: seq<string>, grammars: map<string, GrammarEntry>) {
    && (forall k :: k in grammars ==> k in order)
    && (forall i :: 0 <= i < |order| ==> order[i] in grammars)
    && (forall i, j :: 0 <= i < j < |order| ==> order[i] != order[j])
  }

  datatype BuildResult = BuildResult(manifest: ManifestData, outcome: Outcome, trace: seq<Action>)

  /** The grammar stage: compile the grammars in `order` after the actions in `trace`. */
  function GrammarStage(m: ManifestData, dir: Path, fs: Fs, env: BuildEnv, order: seq<string>, trace: seq<Action>): BuildResult
    requires forall i :: 0 <= i < |order| ==> order[i] in m.grammars
  {
    var grammars := CompileGrammars(dir, m.grammars, order, env, fs, trace);
    BuildResult(m, grammars.outcome, grammars.trace)
  }

  /** Everything after the absolute-path check: the cache directory, the library, the grammars. */
  function CompileStages(m: ManifestData, dir: Path, release: bool, cacheDir: Path, fs: Fs, env: BuildEnv, order: seq<string>): BuildResult
    requires Enumerates(order, m.grammars)
  {
    if !env.cacheDirOk then BuildResult(m, Fail(CacheDirFailed(cacheDir)), [MakeDir(cacheDir)])
    else
      var rust := if m.lib.kind == Some(Rust) then RustStage(dir, m.id, release, env.rust) else RustRun(Pass, [], None);
      var m1 := WithVersion(m, rust.version);
      var trace := [MakeDir(cacheDir)] + rust.trace;
      if rust.outcome.Fail? then BuildResult(m1, Fail(RustExtensionFailed(rust.outcome.error)), trace)
      else GrammarStage(m1, dir, fs, env, order, trace)
  }

  /**
    `compile_extension`: normalise first, only then reject a relative
    directory, create the cache directory, compile the library when
    `lib.kind` is `Rust`, then every grammar in iteration order.
  */
  function Build(m: ManifestData, dir: Path, release: bool, cacheDir: Path, fs: Fs, env: BuildEnv, order: seq<string>): BuildResult
    requires Normalize(m, fs, dir).outcome.Pass? ==> Enumerates(order, Normalize(m, fs, dir).value.grammars)
  {
    var n := Normalize(m, fs, dir);
    if n.outcome.Fail? then BuildResult(n.value, n.outcome, [])
    else if !IsAbsolute(dir) then BuildResult(n.value, Fail(NotAbsolute(dir)), [])
    else CompileStages(n.value, dir, release, cacheDir, fs, env, order)
  }

  class ExtensionBuilder {
    /** The shared cache directory; the builder only makes sure it exists. */
    const cacheDir: Path

    constructor (cacheDir: Path)
      ensures this.cacheDir == cacheDir
    {
      this.cacheDir := cacheDir;
    }

    /** `compile_rust_extension`, in place: only `manifest.lib.version` changes, and only once a version was extracted. */
    method CompileRustExtension(dir: Path, manifest: Manifest, release: bool, w: RustWorld) returns (outcome: Outcome, trace: seq<Action>)
      modifies manifest
      ensures var r := RustStage(dir, old(manifest.id), release, w);
        && manifest.Data() == WithVersion(old(manifest.Data()), r.version)
        && outcome == r.outcome && trace == r.trace
    {
      trace := [];
      var name;
      match w.cargoToml {
        case Unreadable => return Fail(CargoTomlReadFailed(CargoTomlPath(dir))), trace;
        case Unparseable => return Fail(CargoTomlParseFailed(CargoTomlPath(dir))), trace;
        case Package(n) => name := n;
      }
      trace := trace + [Exec(CargoCommand(dir, release))];
      if w.cargo.SpawnFailed? {
        return Fail(CommandNotRun("cargo")), trace;
      }
      if !w.cargo.success {
        return Fail(CargoFailed(w.cargo.stderr)), trace;
      }
      var component := ComponentPath(dir, release, name);
      if component !in w.built {
        return Fail(ComponentReadFailed(component)), trace;
      }
      var bytes := w.built[component];
      var version := w.apiVersion(manifest.id, bytes);
      if version.None? {
        return Fail(NoExtensionApiVersion), trace;
      }
      manifest.lib := manifest.lib.(version := version);
      trace := trace + [WriteFile(ExtensionWasmPath(dir), bytes)];
      if !w.writeOk {
        return Fail(ExtensionWriteFailed(ExtensionWasmPath(dir))), trace;
      }
      outcome := Pass;
    }

    /**
      `compile_extension`: the manifest, outcome and actions are those
      `Build` specifies; `order` is the iteration order of the normalised
      grammar map.
    */
    method CompileExtension(dir: Path, manifest: Manifest, release: bool, fs: Fs, env: BuildEnv, order: seq<string>)
      returns (outcome: Outcome, trace: seq<Action>)
      requires Normalize(manifest.Data(), fs, dir).outcome.Pass? ==> Enumerates(order, Normalize(manifest.Data(), fs, dir).value.grammars)
      modifies manifest
      ensures var b := Build(old(manifest.Data()), dir, release, cacheDir, fs, env, order);
        manifest.Data() == b.manifest && outcome == b.outcome && trace == b.trace
    {
      outcome := PopulateDefaults(manifest, fs, dir);
      trace := [];
      if outcome.Fail? {
        return;
      }
      if !IsAbsolute(dir) {
        return Fail(NotAbsolute(dir)), trace;
      }
      outcome, trace := RunStages(dir, manifest, release, fs, env, order);
    }

    /** Create the cache directory, compile the library if any, then the grammars. */
    method RunStages(dir: Path, manifest: Manifest, release: bool, fs: Fs, env: BuildEnv, order: seq<string>)
      returns (outcome: Outcome, trace: seq<Action>)
      requires Enumerates(order, manifest.grammars)
      modifies manifest
      ensures var b := CompileStages(old(manifest.Data()), dir, release, cacheDir, fs, env, order);
        manifest.Data() == b.manifest && outcome == b.outcome && trace == b.trace
    {
      ghost var m0 := manifest.Data();
      ghost var rust := if m0.lib.kind == Some(Rust) then RustStage(dir, m0.id, release, env.rust) else RustRun(Pass, [], None);
      trace := [MakeDir(cacheDir)];
      if !env.cacheDirOk {
        return Fail(CacheDirFailed(cacheDir)), trace;
      }
      if manifest.lib.kind == Some(Rust) {
        var rustOutcome, rustTrace := CompileRustExtension(dir, manifest, release, env.rust);
        trace := trace + rustTrace;
        if rustOutcome.Fail? {
          return Fail(RustExtensionFailed(rustOutcome.error)), trace;
        }
      }
      assert manifest.Data() == WithVersion(m0, rust.version);
      assert rust.outcome.Pass? && trace == [MakeDir(cacheDir)] + rust.trace;
      outcome, trace := RunGrammars(dir, manifest, fs, env, order, trace);
    }

    /** The grammar loop: compile each grammar in `order`, returning at the first failure. */
    method RunGrammars(dir: Path, manifest: Manifest, fs: Fs, env: BuildEnv, order: seq<string>, before: seq<Action>)
      returns (outcome: Outcome, trace: seq<Action>)
      requires forall i :: 0 <= i < |order| ==> order[i] in manifest.grammars
      ensures var b := GrammarStage(manifest.Data(), dir, fs, env, order, before);
        outcome == b.outcome && trace == b.trace
    {
      var grammars := manifest.grammars;
      trace := before;
      var i := 0;
      while i < |order|
        invariant 0 <= i <= |order|
        invariant CompileGrammars(dir, grammars, order[..i], env, fs, before) == Run(Pass, trace)
      {
        var name := order[i];
        var r := CompileGrammar(dir, name, grammars[name], env.wasiLibcPath, env.grammar(name), fs);
        assert order[..i + 1][..i] == order[..i];
        trace := trace + r.trace;
        if r.outcome.Fail? {
          GrammarFailureSticks(dir, grammars, order, i + 1, env, fs, before);
          return Fail(GrammarFailed(name, r.outcome.error)), trace;
        }
        i := i + 1;
      }
      assert order[..i] == order;
      outcome := Pass;
    }
  }

  /** Once a prefix of the grammar loop has failed, the rest of the names are never compiled. */
  lemma {:induction false} GrammarFailureSticks(dir: Path, grammars: map<string, GrammarEntry>, names: seq<string>, k: nat, env: BuildEnv, fs: Fs, before: seq<Action>)
    requires forall i :: 0 <= i < |names| ==> names[i] in grammars
    requires k <= |names|
    requires CompileGrammars(dir, grammars, names[..k], env, fs, before).outcome.Fail?
    ensures CompileGrammars(dir, grammars, names, env, fs, before) == CompileGrammars(dir, grammars, names[..k], env, fs, before)
    decreases |names|
  {
    if k < |names| {
      var init := names[..|names| - 1];
      assert init[..k] == names[..k];
      GrammarFailureSticks(dir, grammars, init, k, env, fs, before);
    } else {
      assert names[..k] == names;
    }
  }
}
