/**
  What `compile_extension` and its stages guarantee, proved about `Build`,
  `RustStage`, `CompileGrammar` and the grammar loop.
*/
module BuilderProperties {
  import opened Base
  import opened Paths
  import opened Outcomes
  import opened Manifests
  import opened FileSystem
  import opened Normalizer
  import opened Commands
  import opened Fetcher
  import opened Builder
  import opened NormalizerProperties

  // ---- the library stage -------------------------------------------------------

  /**
    A version is recorded only after cargo succeeded and the component was
    found at its derived path; it is what the extractor finds in those bytes.
    On success exactly those bytes are written to `extension.wasm`.
  */
  lemma RustStageVersion(dir: Path, id: string, release: bool, w: RustWorld)
    ensures var r := RustStage(dir, id, release, w);
      r.version.Some? ==>
        && w.cargoToml.Package?
        && w.cargo.Succeeded()
        && ComponentPath(dir, release, w.cargoToml.name) in w.built
        && r.version == w.apiVersion(id, w.built[ComponentPath(dir, release, w.cargoToml.name)])
        && r.trace == [Exec(CargoCommand(dir, release)), WriteFile(ExtensionWasmPath(dir), w.built[ComponentPath(dir, release, w.cargoToml.name)])]
    ensures RustStage(dir, id, release, w).outcome.Pass? ==> RustStage(dir, id, release, w).version.Some?
  {
  }

  /** A cargo run that exits with failure is reported with its stderr, and no version is recorded. */
  lemma CargoFailureCarriesStderr(dir: Path, id: string, release: bool, w: RustWorld)
    requires w.cargoToml.Package? && w.cargo.ExitedWithFailure()
    ensures RustStage(dir, id, release, w) == RustRun(Fail(CargoFailed(w.cargo.stderr)), [Exec(CargoCommand(dir, release))], None)
  {
  }

  // ---- one grammar -----------------------------------------------------------

  /**
    A grammar compiled successfully: clang was found, the fetch succeeded,
    and the last action is the clang run, which exports
    `tree_sitter_<name>`, writes the grammar's `.wasm` and passes
    `src/scanner.c` exactly when it exists.
  */
  lemma CompileGrammarOk(dir: Path, name: string, entry: GrammarEntry, wasiLibc: string, w: GrammarWorld, fs: Fs)
    requires CompileGrammar(dir, name, entry, wasiLibc, w, fs).outcome.Pass?
    ensures var r := CompileGrammar(dir, name, entry, wasiLibc, w, fs);
      var src := GrammarSourceRoot(GrammarRepoDir(dir, name), entry.path) + ["src"];
      && w.clang.Some?
      && |r.trace| > 0
      && r.trace[|r.trace| - 1].Exec?
      && var clang := r.trace[|r.trace| - 1].command;
         && clang.program == PathArg(w.clang.value)
         && Lit(ExportFlag(name)) in clang.args
         && (PathArg(src + ["scanner.c"]) in clang.args <==> w.scannerExists)
         && CompilesGrammar(r.trace[|r.trace| - 1], dir, name)
  {
    var src := GrammarSourceRoot(GrammarRepoDir(dir, name), entry.path) + ["src"];
    CompileGrammarRunsClang(dir, name, entry, wasiLibc, w, fs);
    GrammarScannerArgument(dir, name, entry.path, w.clang.value, wasiLibc, w.scannerExists);
    ClangRunCompiles(w.clang.value, wasiLibc, dir, name, src, w.scannerExists);
  }

  /** Once clang is found and the fetch succeeds, the grammar's actions are the fetch's and then the clang run. */
  lemma CompileGrammarRunsClang(dir: Path, name: string, entry: GrammarEntry, wasiLibc: string, w: GrammarWorld, fs: Fs)
    requires w.clang.Some?
    requires CheckoutRepo(GrammarRepoDir(dir, name), entry.repository, entry.rev, fs.Exists(GrammarRepoDir(dir, name)), w.git).outcome.Pass?
    ensures var r := CompileGrammar(dir, name, entry, wasiLibc, w, fs);
      var src := GrammarSourceRoot(GrammarRepoDir(dir, name), entry.path) + ["src"];
      && |r.trace| > 0
      && r.trace == CheckoutRepo(GrammarRepoDir(dir, name), entry.repository, entry.rev, fs.Exists(GrammarRepoDir(dir, name)), w.git).trace
           + [Exec(ClangCommand(w.clang.value, wasiLibc, name, GrammarWasmPath(dir, name), src, w.scannerExists))]
      && r.trace[|r.trace| - 1] == Exec(ClangCommand(w.clang.value, wasiLibc, name, GrammarWasmPath(dir, name), src, w.scannerExists))
  {
    var repoDir := GrammarRepoDir(dir, name);
    var fetch := CheckoutRepo(repoDir, entry.repository, entry.rev, fs.Exists(repoDir), w.git);
    var src := GrammarSourceRoot(repoDir, entry.path) + ["src"];
    var clang := ClangCommand(w.clang.value, wasiLibc, name, GrammarWasmPath(dir, name), src, w.scannerExists);
    var r := CompileGrammar(dir, name, entry, wasiLibc, w, fs);
    assert r.trace == fetch.trace + [Exec(clang)];
  }

  /** A fetch failure is the grammar's failure as it is, and clang is never run. */
  lemma CompileGrammarFetchFailure(dir: Path, name: string, entry: GrammarEntry, wasiLibc: string, w: GrammarWorld, fs: Fs)
    requires w.clang.Some?
    requires CheckoutRepo(GrammarRepoDir(dir, name), entry.repository, entry.rev, fs.Exists(GrammarRepoDir(dir, name)), w.git).outcome.Fail?
    ensures CompileGrammar(dir, name, entry, wasiLibc, w, fs)
      == CheckoutRepo(GrammarRepoDir(dir, name), entry.repository, entry.rev, fs.Exists(GrammarRepoDir(dir, name)), w.git)
    ensures forall a :: a in CompileGrammar(dir, name, entry, wasiLibc, w, fs).trace ==> a.Exec? ==> a.command.program == Lit("git")
  {
    var f := CheckoutRepo(GrammarRepoDir(dir, name), entry.repository, entry.rev, fs.Exists(GrammarRepoDir(dir, name)), w.git);
    var full := FullFetch(GrammarRepoDir(dir, name), entry.repository, entry.rev);
    forall a | a in f.trace && a.Exec? ensures a.command.program == Lit("git") {
      var k :| 0 <= k < |f.trace| && f.trace[k] == a;
      assert full[k] == a;
    }
  }

  /** Without clang on the path the grammar fails at once and nothing is issued. */
  lemma CompileGrammarNoClang(dir: Path, name: string, entry: GrammarEntry, wasiLibc: string, w: GrammarWorld, fs: Fs)
    requires w.clang.None?
    ensures CompileGrammar(dir, name, entry, wasiLibc, w, fs) == Run(Fail(ClangNotFound), [])
  {
  }

  /** A clang run that exits with failure is reported with the grammar's name and clang's stderr, after the clang run. */
  lemma CompileGrammarClangFailure(dir: Path, name: string, entry: GrammarEntry, wasiLibc: string, w: GrammarWorld, fs: Fs)
    requires w.clang.Some?
    requires CheckoutRepo(GrammarRepoDir(dir, name), entry.repository, entry.rev, fs.Exists(GrammarRepoDir(dir, name)), w.git).outcome.Pass?
    requires w.clangRun.ExitedWithFailure()
    ensures var r := CompileGrammar(dir, name, entry, wasiLibc, w, fs);
      && r.outcome == Fail(ClangFailed(name, w.clangRun.stderr))
      && |r.trace| > 0
      && CompilesGrammar(r.trace[|r.trace| - 1], dir, name)
  {
    var src := GrammarSourceRoot(GrammarRepoDir(dir, name), entry.path) + ["src"];
    CompileGrammarRunsClang(dir, name, entry, wasiLibc, w, fs);
    ClangRunCompiles(w.clang.value, wasiLibc, dir, name, src, w.scannerExists);
  }

  // ---- the grammar loop ---------------------------------------------------------

  /**
    `a` runs a program found by path (clang; cargo and git are run by name)
    that exports `tree_sitter_<name>` and writes `dir/grammars/<name>.wasm`.
  */
  predicate CompilesGrammar(a: Action, dir: Path, name: string) {
    && a.Exec?
    && a.command.program.PathArg?
    && Lit(ExportFlag(name)) in a.command.args
    && exists i :: 0 <= i < |a.command.args| - 1 && a.command.args[i] == Lit("-o") && a.command.args[i + 1] == PathArg(GrammarWasmPath(dir, name))
  }

  /** The clang run `compile_grammar` issues compiles its grammar. */
  lemma ClangRunCompiles(clang: Path, wasiLibc: string, dir: Path, name: string, src: Path, scannerExists: bool)
    ensures CompilesGrammar(Exec(ClangCommand(clang, wasiLibc, name, GrammarWasmPath(dir, name), src, scannerExists)), dir, name)
  {
  }

  /** Some action of `trace` compiles grammar `name`. */
  predicate Compiled(trace: seq<Action>, dir: Path, name: string) {
    exists j :: 0 <= j < |trace| && CompilesGrammar(trace[j], dir, name)
  }

  /** Extending the actions keeps a compiled grammar compiled. */
  lemma CompiledKept(trace: seq<Action>, longer: seq<Action>, dir: Path, name: string)
    requires trace <= longer && Compiled(trace, dir, name)
    ensures Compiled(longer, dir, name)
  {
    var j :| 0 <= j < |trace| && CompilesGrammar(trace[j], dir, name);
    assert longer[j] == trace[j];
  }

  /** Grammars compiled before, plus the last one compiled now, are all compiled in the longer actions. */
  lemma CompiledAll(trace: seq<Action>, longer: seq<Action>, dir: Path, names: seq<string>, init: seq<string>)
    requires names != [] && init == names[..|names| - 1] && trace <= longer
    requires forall i :: 0 <= i < |init| ==> Compiled(trace, dir, init[i])
    requires Compiled(longer, dir, names[|names| - 1])
    ensures forall i :: 0 <= i < |names| ==> Compiled(longer, dir, names[i])
  {
    forall i | 0 <= i < |names|
      ensures Compiled(longer, dir, names[i])
    {
      if i < |names| - 1 {
        assert init[i] == names[i];
        CompiledKept(trace, longer, dir, names[i]);
      }
    }
  }

  /**
    One step of the loop: after a failure it changes nothing, otherwise it
    appends the next grammar's actions, and when that grammar compiles its
    clang run is the last of them.
  */
  lemma CompileGrammarsStep(dir: Path, grammars: map<string, GrammarEntry>, names: seq<string>, env: BuildEnv, fs: Fs, before: seq<Action>)
    requires forall i :: 0 <= i < |names| ==> names[i] in grammars
    requires names != []
    ensures var prev := CompileGrammars(dir, grammars, names[..|names| - 1], env, fs, before);
      var r := CompileGrammars(dir, grammars, names, env, fs, before);
      && (prev.outcome.Fail? ==> r == prev)
      && prev.trace <= r.trace
      && (r.outcome.Pass? ==> prev.outcome.Pass? && Compiled(r.trace, dir, names[|names| - 1]))
  {
    var name := names[|names| - 1];
    var prev := CompileGrammars(dir, grammars, names[..|names| - 1], env, fs, before);
    var r := CompileGrammars(dir, grammars, names, env, fs, before);
    if prev.outcome.Pass? {
      var g := CompileGrammar(dir, name, grammars[name], env.wasiLibcPath, env.grammar(name), fs);
      assert r.trace == prev.trace + g.trace;
      if r.outcome.Pass? {
        CompileGrammarOk(dir, name, grammars[name], env.wasiLibcPath, env.grammar(name), fs);
        assert r.trace[|r.trace| - 1] == g.trace[|g.trace| - 1];
      }
    }
  }

  /** The loop only appends to the actions before it; when it succeeds, every listed grammar was compiled. */
  lemma {:induction false} CompileGrammarsPass(dir: Path, grammars: map<string, GrammarEntry>, names: seq<string>, env: BuildEnv, fs: Fs, before: seq<Action>)
    requires forall i :: 0 <= i < |names| ==> names[i] in grammars
    ensures before <= CompileGrammars(dir, grammars, names, env, fs, before).trace
    ensures var r := CompileGrammars(dir, grammars, names, env, fs, before);
      r.outcome.Pass? ==> forall i :: 0 <= i < |names| ==> Compiled(r.trace, dir, names[i])
    decreases |names|
  {
    if names != [] {
      var init := names[..|names| - 1];
      CompileGrammarsPass(dir, grammars, init, env, fs, before);
      CompileGrammarsStep(dir, grammars, names, env, fs, before);
      var prev := CompileGrammars(dir, grammars, init, env, fs, before);
      var r := CompileGrammars(dir, grammars, names, env, fs, before);
      if r.outcome.Pass? {
        CompiledAll(prev.trace, r.trace, dir, names, init);
      }
    }
  }

  /** A failing loop names one of its grammars and carries that grammar's own error. */
  lemma {:induction false} CompileGrammarsFailure(dir: Path, grammars: map<string, GrammarEntry>, names: seq<string>, env: BuildEnv, fs: Fs, before: seq<Action>)
    requires forall i :: 0 <= i < |names| ==> names[i] in grammars
    requires CompileGrammars(dir, grammars, names, env, fs, before).outcome.Fail?
    ensures var e := CompileGrammars(dir, grammars, names, env, fs, before).outcome.error;
      && e.GrammarFailed?
      && e.grammar in names
      && Fail(e.cause) == CompileGrammar(dir, e.grammar, grammars[e.grammar], env.wasiLibcPath, env.grammar(e.grammar), fs).outcome
    decreases |names|
  {
    var init := names[..|names| - 1];
    if CompileGrammars(dir, grammars, init, env, fs, before).outcome.Fail? {
      CompileGrammarsFailure(dir, grammars, init, env, fs, before);
      var e := CompileGrammars(dir, grammars, init, env, fs, before).outcome.error;
      var i :| 0 <= i < |init| && init[i] == e.grammar;
      assert names[i] == e.grammar;
    }
  }

  // ---- the whole build -----------------------------------------------------------

  /**
    The directory is checked only after normalising: a relative directory
    leaves the normalised manifest in place, issues nothing, and fails with
    `NotAbsolute` unless normalisation itself failed first.
  */
  lemma RelativeDirRejectedAfterNormalising(m: ManifestData, dir: Path, release: bool, cacheDir: Path, fs: Fs, env: BuildEnv, order: seq<string>)
    requires !IsAbsolute(dir)
    requires Normalize(m, fs, dir).outcome.Pass? ==> Enumerates(order, Normalize(m, fs, dir).value.grammars)
    ensures var b := Build(m, dir, release, cacheDir, fs, env, order); var n := Normalize(m, fs, dir);
      && b.manifest == n.value
      && b.trace == []
      && b.outcome == (if n.outcome.Fail? then n.outcome else Fail(NotAbsolute(dir)))
  {
  }

  /** After normalisation the build changes nothing in the manifest but `lib.version`: grammars are never mutated. */
  lemma BuildChangesOnlyVersion(m: ManifestData, dir: Path, release: bool, cacheDir: Path, fs: Fs, env: BuildEnv, order: seq<string>)
    requires Normalize(m, fs, dir).outcome.Pass? ==> Enumerates(order, Normalize(m, fs, dir).value.grammars)
    ensures var b := Build(m, dir, release, cacheDir, fs, env, order); var n := Normalize(m, fs, dir).value;
      b.manifest == n.(lib := n.lib.(version := b.manifest.lib.version))
  {
  }

  /** A successful build of a Rust extension has recorded the extension API version. */
  lemma BuildRecordsVersion(m: ManifestData, dir: Path, release: bool, cacheDir: Path, fs: Fs, env: BuildEnv, order: seq<string>)
    requires Normalize(m, fs, dir).outcome.Pass? ==> Enumerates(order, Normalize(m, fs, dir).value.grammars)
    ensures var b := Build(m, dir, release, cacheDir, fs, env, order);
      b.outcome.Pass? && b.manifest.lib.kind == Some(Rust) ==> b.manifest.lib.version.Some?
  {
    var n := Normalize(m, fs, dir).value;
    if Normalize(m, fs, dir).outcome.Pass? && IsAbsolute(dir) && env.cacheDirOk && n.lib.kind == Some(Rust) {
      RustStageVersion(dir, n.id, release, env.rust);
    }
  }

  /** When the cache directory cannot be created the build stops there, before any command, with the normalised manifest. */
  lemma BuildCacheDirFailure(m: ManifestData, dir: Path, release: bool, cacheDir: Path, fs: Fs, env: BuildEnv, order: seq<string>)
    requires Normalize(m, fs, dir).outcome.Pass? ==> Enumerates(order, Normalize(m, fs, dir).value.grammars)
    requires Normalize(m, fs, dir).outcome.Pass? && IsAbsolute(dir) && !env.cacheDirOk
    ensures Build(m, dir, release, cacheDir, fs, env, order)
      == BuildResult(Normalize(m, fs, dir).value, Fail(CacheDirFailed(cacheDir)), [MakeDir(cacheDir)])
  {
  }

  /** A successful build passed every stage: it is the grammar stage run after the cache directory and the library stage. */
  lemma BuildPassStages(m: ManifestData, dir: Path, release: bool, cacheDir: Path, fs: Fs, env: BuildEnv, order: seq<string>)
    requires Normalize(m, fs, dir).outcome.Pass? ==> Enumerates(order, Normalize(m, fs, dir).value.grammars)
    requires Build(m, dir, release, cacheDir, fs, env, order).outcome.Pass?
    ensures var n := Normalize(m, fs, dir); var b := Build(m, dir, release, cacheDir, fs, env, order);
      var rust := if n.value.lib.kind == Some(Rust) then RustStage(dir, n.value.id, release, env.rust) else RustRun(Pass, [], None);
      && n.outcome.Pass? && IsAbsolute(dir) && env.cacheDirOk && rust.outcome.Pass?
      && b.manifest == WithVersion(n.value, rust.version)
      && b.trace == CompileGrammars(dir, n.value.grammars, order, env, fs, [MakeDir(cacheDir)] + rust.trace).trace
  {
  }

  /**
    A successful build issued one clang run exporting `tree_sitter_<name>`
    for every grammar of the manifest, and, for a Rust extension, wrote
    `extension.wasm`.
  */
  lemma BuildCompilesEverything(m: ManifestData, dir: Path, release: bool, cacheDir: Path, fs: Fs, env: BuildEnv, order: seq<string>)
    requires Normalize(m, fs, dir).outcome.Pass? ==> Enumerates(order, Normalize(m, fs, dir).value.grammars)
    requires Build(m, dir, release, cacheDir, fs, env, order).outcome.Pass?
    ensures var b := Build(m, dir, release, cacheDir, fs, env, order);
      && (forall k :: k in b.manifest.grammars ==> Compiled(b.trace, dir, k))
      && (b.manifest.lib.kind == Some(Rust) ==> exists j :: 0 <= j < |b.trace| && b.trace[j].WriteFile? && b.trace[j].path == ExtensionWasmPath(dir))
  {
    BuildPassStages(m, dir, release, cacheDir, fs, env, order);
    var n := Normalize(m, fs, dir).value;
    var b := Build(m, dir, release, cacheDir, fs, env, order);
    var rust := if n.lib.kind == Some(Rust) then RustStage(dir, n.id, release, env.rust) else RustRun(Pass, [], None);
    var before := [MakeDir(cacheDir)] + rust.trace;
    assert b.manifest.grammars == n.grammars;
    CompileGrammarsPass(dir, n.grammars, order, env, fs, before);
    forall k | k in b.manifest.grammars
      ensures Compiled(b.trace, dir, k)
    {
      var i :| 0 <= i < |order| && order[i] == k;
    }
    if b.manifest.lib.kind == Some(Rust) {
      RustStageVersion(dir, n.id, release, env.rust);
      assert before[|before| - 1].WriteFile? && before[|before| - 1].path == ExtensionWasmPath(dir);
      assert b.trace[|before| - 1] == before[|before| - 1];
    }
  }

  /** A grammar failure names a grammar of the manifest and carries that grammar's own error. */
  lemma BuildGrammarFailureNamesGrammar(m: ManifestData, dir: Path, release: bool, cacheDir: Path, fs: Fs, env: BuildEnv, order: seq<string>)
    requires Normalize(m, fs, dir).outcome.Pass? ==> Enumerates(order, Normalize(m, fs, dir).value.grammars)
    ensures var b := Build(m, dir, release, cacheDir, fs, env, order);
      b.outcome.Fail? && b.outcome.error.GrammarFailed? ==>
        && b.outcome.error.grammar in b.manifest.grammars
        && Fail(b.outcome.error.cause) == CompileGrammar(dir, b.outcome.error.grammar, b.manifest.grammars[b.outcome.error.grammar],
             env.wasiLibcPath, env.grammar(b.outcome.error.grammar), fs).outcome
  {
    NormalizeErrors(m, fs, dir);
    var n := Normalize(m, fs, dir);
    var b := Build(m, dir, release, cacheDir, fs, env, order);
    if b.outcome.Fail? && b.outcome.error.GrammarFailed? {
      assert n.outcome.Pass? && IsAbsolute(dir) && env.cacheDirOk;
      var rust := if n.value.lib.kind == Some(Rust) then RustStage(dir, n.value.id, release, env.rust) else RustRun(Pass, [], None);
      assert rust.outcome.Pass?;
      var m1 := WithVersion(n.value, rust.version);
      assert m1.grammars == n.value.grammars;
      var before := [MakeDir(cacheDir)] + rust.trace;
      assert b == GrammarStage(m1, dir, fs, env, order, before);
      assert b.outcome == CompileGrammars(dir, m1.grammars, order, env, fs, before).outcome;
      assert b.manifest == m1;
      CompileGrammarsFailure(dir, m1.grammars, order, env, fs, before);
    }
  }

  /** Every command the library stage issues is the cargo build. */
  lemma RustStageRunsOnlyCargo(dir: Path, id: string, release: bool, w: RustWorld)
    ensures var r := RustStage(dir, id, release, w);
      forall j :: 0 <= j < |r.trace| && r.trace[j].Exec? ==> r.trace[j].command == CargoCommand(dir, release)
  {
  }

  /** A build that failed in the library stage created the cache directory and then ran the library stage, nothing else. */
  lemma RustFailureTrace(m: ManifestData, dir: Path, release: bool, cacheDir: Path, fs: Fs, env: BuildEnv, order: seq<string>)
    requires Normalize(m, fs, dir).outcome.Pass? ==> Enumerates(order, Normalize(m, fs, dir).value.grammars)
    ensures var b := Build(m, dir, release, cacheDir, fs, env, order); var n := Normalize(m, fs, dir).value;
      b.outcome.Fail? && b.outcome.error.RustExtensionFailed? ==>
        && n.lib.kind == Some(Rust)
        && b.trace == [MakeDir(cacheDir)] + RustStage(dir, n.id, release, env.rust).trace
  {
    NormalizeErrors(m, fs, dir);
    var n := Normalize(m, fs, dir);
    var b := Build(m, dir, release, cacheDir, fs, env, order);
    if b.outcome.Fail? && b.outcome.error.RustExtensionFailed? {
      assert n.outcome.Pass? && IsAbsolute(dir) && env.cacheDirOk;
      var rust := if n.value.lib.kind == Some(Rust) then RustStage(dir, n.value.id, release, env.rust) else RustRun(Pass, [], None);
      var before := [MakeDir(cacheDir)] + rust.trace;
      if rust.outcome.Pass? {
        var m1 := WithVersion(n.value, rust.version);
        assert b == GrammarStage(m1, dir, fs, env, order, before);
        if CompileGrammars(dir, m1.grammars, order, env, fs, before).outcome.Fail? {
          CompileGrammarsFailure(dir, m1.grammars, order, env, fs, before);
        }
        assert false;
      }
    }
  }

  /** A failed library stage stops the build: the only command issued is the cargo build. */
  lemma BuildStopsAtRustFailure(m: ManifestData, dir: Path, release: bool, cacheDir: Path, fs: Fs, env: BuildEnv, order: seq<string>)
    requires Normalize(m, fs, dir).outcome.Pass? ==> Enumerates(order, Normalize(m, fs, dir).value.grammars)
    ensures var b := Build(m, dir, release, cacheDir, fs, env, order);
      b.outcome.Fail? && b.outcome.error.RustExtensionFailed? ==>
        forall j :: 0 <= j < |b.trace| && b.trace[j].Exec? ==> b.trace[j].command == CargoCommand(dir, release)
  {
    var b := Build(m, dir, release, cacheDir, fs, env, order);
    if b.outcome.Fail? && b.outcome.error.RustExtensionFailed? {
      RustFailureTrace(m, dir, release, cacheDir, fs, env, order);
      var n := Normalize(m, fs, dir).value;
      var rust := RustStage(dir, n.id, release, env.rust);
      RustStageRunsOnlyCargo(dir, n.id, release, env.rust);
      forall j | 0 <= j < |b.trace| && b.trace[j].Exec?
        ensures b.trace[j].command == CargoCommand(dir, release)
      {
        assert j > 0 && b.trace[j] == rust.trace[j - 1];
      }
    }
  }
}
