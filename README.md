# Extension builder model

A Dafny model of the extension builder of the Zed editor,
`crates/extension/src/extension_builder.rs`. The builder turns an
extension directory and its manifest into build artefacts. It works in
three steps:

1. **Normalisation (`populate_defaults`).** The builder fills the manifest's
   computed fields from the directory, in place. Two things are detected:
   - `Cargo.toml` makes `lib.kind` Rust.
   - `snippets.json` becomes the snippets path.

   Three directories are scanned:
   - the children of `languages/` that hold a `config.toml`;
   - the `.json` files of `themes/`;
   - the `.json` files of `icon_themes/`.

   On the legacy v0 schema, the builder also reads the `.toml` files of
   `grammars/`. First it empties `languages`, `themes` and `grammars`.
2. **Library stage.** For a Rust extension the builder runs
   `cargo build --target wasm32-wasip2` with `--release` only for release
   builds. It reads the component from
   `target/wasm32-wasip2/<profile>/<package name with '-' as '_'>.wasm`,
   extracts the extension API version into `lib.version` and writes
   `extension.wasm`.
3. **Grammar stage.** For each grammar in map order, the builder fetches the
   repository into `grammars/<name>` unless that directory already exists.
   The fetch is `git init`, `remote add`, a shallow `fetch` and `checkout`;
   the checkout's result decides the outcome. The builder then compiles
   `src/parser.c`, plus `src/scanner.c` when it exists, with clang into
   `grammars/<name>.wasm`, exporting `tree_sitter_<name>`.

The first error stops everything. Changes made to the manifest before that
error stay in place.

How the model is laid out:

- **Manifest.** `Manifests.Manifest` is a class with the manifest's
  collection fields: `seq` for the path lists and `map` for the grammars.
- **Normalisation.** `Normalizer.PopulateDefaults` changes the manifest in
  place, loop by loop, as the source does. It is proved equal to the
  function `Normalizer.Normalize`.
- **Build.** `Builder.ExtensionBuilder.CompileExtension` is proved equal to
  the function `Builder.Build`.
- **Inputs.** The filesystem is a snapshot value `FileSystem.Fs`. Each
  subprocess is a result value `Outcomes.Proc` that the caller provides.
- **Effects.** Every command issued, directory created and file written is
  recorded in a trace of `Outcomes.Action`s. The properties are stated over
  that trace.

Where the code and its documented behaviour disagree, the model follows the code:

- **Missing `WASI_LIBC_PATH`.** The code panics (line 164 calls `expect`)
  rather than returning an error. The model takes the variable's
  value as the `BuildEnv.wasiLibcPath` string.
- **Declared grammars on v0.** The code empties the declared grammars first
  (line 288), so grammars declared in a v0 manifest are not kept over those
  found on disk. This is `NormalizerProperties.V0RederivesFromDisk`. For
  newer schemas the grammars are left untouched
  (`NormalizerProperties.NonV0OnlyAppends`).
- **`lib.version`.** Normalisation never resets it: if it was set and no
  library is built, it keeps its value (`NormalizerProperties.NormalizeLibAndSnippets`).
- **Grammar names containing `.`.** The grammar's `.wasm` path comes from
  `set_extension` on `grammars/<name>`, which replaces the text after the
  last dot. For example, `foo.bar` compiles to `grammars/foo.wasm`
  (`Commands.GrammarWasmPathLayout` states the stem is kept).

Paths are sequences of components. A leading `"/"` component marks an
absolute path. `Paths.Join` follows `PathBuf::join`: an absolute argument
replaces the base. `Paths.Extension`, `Paths.Stem` and
`Paths.SetExtension` follow the standard library's last-dot rules:
`".."` and dot-files have no extension.

## Model

| member | source | states |
|---|---|---|
| Paths.LastDot | crates/extension/src/extension_builder.rs:318 | the result is the index of the last '.' of the name, or None exactly when the name has no '.' |
| Paths.StemExtensionRoundTrip | crates/extension/src/extension_builder.rs:367-370 | a name with an extension is its stem, a dot, then the extension; the extension has no dot and the stem is never empty |
| Paths.StemWithoutExtension | crates/extension/src/extension_builder.rs:367-370 | a name without extension is its own stem |
| Paths.SetExtensionKeepsDir | crates/extension/src/extension_builder.rs:132 | setting an extension keeps the path's length and every component but the last |
| Paths.SetExtensionThenExtension | crates/extension/src/extension_builder.rs:169-170 | after setting a non-empty dot-free extension the path has a file name whose extension is that one and whose stem is the old stem |
| Paths.SetExtensionDotFree | crates/extension/src/extension_builder.rs:132 | for a dot-free file name, setting an extension appends "." and the extension to it (nothing for the empty extension) |
| Commands.CargoCommand | crates/extension/src/extension_builder.rs:99-107 | the program is `cargo`, there are exactly 6 arguments for a release build and 5 otherwise, and they start `build --target wasm32-wasip2`; `--release` is an argument iff the build is a release build; `--target` is followed by wasm32-wasip2 and `--target-dir` by `dir/target`; RUSTC_WRAPPER is set empty; the command runs in the extension directory |
| Commands.Underscored | crates/extension/src/extension_builder.rs:126-130 | same length, every '-' replaced by '_' and every other character kept, so no '-' remains |
| Commands.StemIsPrefix | crates/extension/src/extension_builder.rs:132 | the stem of a name is a prefix of it |
| Commands.ComponentPathLayout | crates/extension/src/extension_builder.rs:121-132 | the component lies directly under `dir/target/wasm32-wasip2/<release or debug>` and its file stem has no '-' for any package name |
| Commands.ComponentPathFileName | crates/extension/src/extension_builder.rs:121-132 | for an ordinary dot-free package name the component file is the underscored name followed by `.wasm` |
| Commands.DashedPackageName | crates/extension/src/extension_builder.rs:126-132 | a package name containing '-' never yields a file named after the package as written |
| Commands.GrammarWasmPathLayout | crates/extension/src/extension_builder.rs:166-170 | the grammar's wasm path is `dir/grammars/<file>` with extension wasm and the grammar name's stem; a dot-free name gives exactly `<name>.wasm` |
| Commands.SourceRootInsideRepo | crates/extension/src/extension_builder.rs:179-185 | with no subpath or a relative one, the grammar source root lies inside the repository directory |
| Commands.ClangCommand | crates/extension/src/extension_builder.rs:190-200 | clang is the program; there are exactly 12 arguments with a scanner and 11 without; the arguments start `--target=wasm32-wasi --sysroot=<wasi libc> -fPIC -shared -Os`; the export flag `-Wl,--export=tree_sitter_<name>` is an argument; `-o` is followed by the wasm path and `-I` by `src`; parser.c is always an argument and, unless the output path is scanner.c itself, scanner.c is one iff it exists |
| Commands.GrammarScannerArgument | crates/extension/src/extension_builder.rs:185-200 | for the paths the builder derives, scanner.c is an argument iff it exists and the export flag names the grammar |
| Fetcher.CheckoutRepo | crates/extension/src/extension_builder.rs:215-280 | the actions are a prefix of create-dir, init, remote add, fetch, checkout (a failed create still records the create); a success issued either nothing or all of them |
| Fetcher.ExistingDirectoryShortCircuits | crates/extension/src/extension_builder.rs:216-218 | an existing directory is a success that issues nothing |
| Fetcher.CheckoutDecides | crates/extension/src/extension_builder.rs:249-279 | once init and remote add succeeded, all five actions happen; success iff the checkout succeeded, even after a failed fetch; a failed checkout is the fetch error if the fetch failed, else the checkout error carrying its stderr |
| Fetcher.EarlyStageAborts | crates/extension/src/extension_builder.rs:222-247 | a failed init or remote add fails before any fetch, with the init or remote-add error respectively |
| Manifests.Manifest.PushIfAbsent | crates/extension/src/extension_builder.rs:306-308 | the path is appended to its collection only when absent; nothing else changes |
| Normalizer.ScanPathsFailureSticks | crates/extension/src/extension_builder.rs:299-300 | once a directory entry error stops a scan, later entries change nothing |
| Normalizer.ScanGrammarsFailureSticks | crates/extension/src/extension_builder.rs:352-370 | once a grammar file error stops a scan, later entries change nothing |
| Normalizer.CollectPathsInto | crates/extension/src/extension_builder.rs:297-340 | the in-place scan of one directory leaves the manifest and outcome that the value scan specifies, touching only that collection |
| Normalizer.CollectGrammarsInto | crates/extension/src/extension_builder.rs:349-384 | the in-place grammar scan leaves the grammars and outcome that the value scan specifies, touching nothing else |
| Normalizer.PopulateDefaults | crates/extension/src/extension_builder.rs:283-387 | the manifest afterwards and the outcome are exactly those of the normalisation function, including the partial changes before an error |
| NormalizerProperties.ScanPathsAppends | crates/extension/src/extension_builder.rs:299-310 | a directory scan only appends: the old collection is a prefix of the new |
| NormalizerProperties.ScanPathsNoDuplicates | crates/extension/src/extension_builder.rs:306-308 | a collection without duplicates has none after a scan |
| NormalizerProperties.ScanPathsSound | crates/extension/src/extension_builder.rs:302-308 | every path in the scanned collection was there before or comes from a listed qualifying entry |
| NormalizerProperties.ScanPathsComplete | crates/extension/src/extension_builder.rs:299-310 | after a successful scan every qualifying entry's path is in the collection |
| NormalizerProperties.ScanGrammarsKeepsExisting | crates/extension/src/extension_builder.rs:371-380 | an existing grammar key is kept with its entry unchanged |
| NormalizerProperties.ScanGrammarsSound | crates/extension/src/extension_builder.rs:355-380 | every new grammar comes from a parsed `.toml` entry whose stem is its key, with repository and path copied and commit as rev |
| NormalizerProperties.ScanGrammarsComplete | crates/extension/src/extension_builder.rs:352-380 | after a successful scan every `.toml` entry had a name, parsed, and its stem is a key of the map |
| NormalizerProperties.CollectPathsFacts | crates/extension/src/extension_builder.rs:297-340 | a directory's collection step only appends, keeps no-duplicates, and adds only qualifying listed entries |
| NormalizerProperties.NormalizeShape | crates/extension/src/extension_builder.rs:283-387 | each collection of the result is its scan from the reset value or the reset value itself; grammars change only on v0 |
| NormalizerProperties.CollectAllPathsShape | crates/extension/src/extension_builder.rs:296-340 | the languages, themes and icon-themes scans each replace only their own collection, in that order, leaving the grammars and the schema version alone |
| NormalizerProperties.NonV0OnlyAppends | crates/extension/src/extension_builder.rs:283-385 | on a non-v0 manifest the old languages, themes and icon themes are prefixes of the new ones and the grammars are unchanged |
| NormalizerProperties.V0RederivesFromDisk | crates/extension/src/extension_builder.rs:286-290 | on v0 the result does not depend on the old languages, themes or grammars, and the old icon themes are kept as a prefix |
| NormalizerProperties.NormalizeKeepsNoDuplicates | crates/extension/src/extension_builder.rs:306-337 | collections without duplicates stay without duplicates |
| NormalizerProperties.NormalizeAddsOnlyQualifying | crates/extension/src/extension_builder.rs:302-337 | a new language is a listed child of `languages/` holding config.toml; a new theme or icon theme is a listed `.json` file of its directory |
| NormalizerProperties.NormalizeLibAndSnippets | crates/extension/src/extension_builder.rs:292-345 | lib.kind is Rust iff Cargo.toml exists, else unchanged; lib.version, id and schema never change; snippets is `dir/snippets.json` when that exists (after success) and otherwise unchanged |
| NormalizerProperties.NormalizePassShape | crates/extension/src/extension_builder.rs:283-387 | a successful normalisation ran every directory scan to a successful end |
| NormalizerProperties.NormalizeAddsEveryQualifying | crates/extension/src/extension_builder.rs:297-340 | after success every qualifying language, theme and icon-theme entry is in its collection |
| NormalizerProperties.V0GrammarsFromFiles | crates/extension/src/extension_builder.rs:349-384 | on v0 every grammar comes from a listed `grammars/<key>.toml` file with commit as rev |
| NormalizerProperties.V0GrammarsComplete | crates/extension/src/extension_builder.rs:349-384 | on v0 after success every listed `.toml` file's stem is a grammar key |
| NormalizerProperties.ScanPathsErrors | crates/extension/src/extension_builder.rs:299-300 | a path scan fails only with that directory's entry error |
| NormalizerProperties.ScanGrammarsErrors | crates/extension/src/extension_builder.rs:352-370 | a grammar scan fails only with an entry, read, parse or grammar-name error |
| NormalizerProperties.NormalizeErrors | crates/extension/src/extension_builder.rs:283-387 | normalisation fails only with an error about reading the extension directory |
| Builder.ExtensionBuilder.constructor | crates/extension/src/extension_builder.rs:36-41 | the builder keeps the cache directory it is given |
| Builder.ExtensionBuilder.CompileRustExtension | crates/extension/src/extension_builder.rs:86-154 | the outcome and actions are those of the library stage; only lib.version changes, and only once a version was extracted |
| Builder.ExtensionBuilder.CompileExtension | crates/extension/src/extension_builder.rs:43-84 | the manifest, outcome and actions are exactly those of the build function |
| Builder.ExtensionBuilder.RunStages | crates/extension/src/extension_builder.rs:58-80 | cache directory, library and grammar stages leave the manifest, outcome and actions their function specifies |
| Builder.ExtensionBuilder.RunGrammars | crates/extension/src/extension_builder.rs:68-80 | the grammar loop's outcome and actions are those of compiling the grammars in order, stopping at the first failure |
| Builder.GrammarFailureSticks | crates/extension/src/extension_builder.rs:73-75 | once a grammar failed, later grammars change nothing |
| BuilderProperties.RustStageVersion | crates/extension/src/extension_builder.rs:134-145 | a version is recorded only after cargo succeeded and the component was read; it is the version parsed from those bytes; the actions are cargo then writing extension.wasm; success implies a version |
| BuilderProperties.CargoFailureCarriesStderr | crates/extension/src/extension_builder.rs:109-114 | a failing cargo run is reported with its stderr, after the single cargo action, with no version |
| BuilderProperties.CompileGrammarOk | crates/extension/src/extension_builder.rs:156-213 | a compiled grammar found clang and ended with the clang run: run by clang's path, exporting `tree_sitter_<name>`, writing `-o` the grammar's `.wasm`, with scanner.c iff it exists once the checkout is over |
| BuilderProperties.CompileGrammarRunsClang | crates/extension/src/extension_builder.rs:172-202 | once clang is found and the checkout succeeds, the grammar's actions are exactly the checkout's followed by the clang command built from the grammar's source root, `.wasm` path and scanner presence |
| BuilderProperties.ClangRunCompiles | crates/extension/src/extension_builder.rs:190-196 | the clang command built for a grammar exports `tree_sitter_<name>` and writes `-o` the grammar's `.wasm` path |
| BuilderProperties.CompileGrammarFetchFailure | crates/extension/src/extension_builder.rs:173-177 | a fetch failure is the grammar's result as it is, and only git commands were run |
| BuilderProperties.CompileGrammarsPass | crates/extension/src/extension_builder.rs:68-80 | the grammar loop only appends actions, and a successful loop issued, for every grammar listed, a run of a program found by path that exports `tree_sitter_<name>` and writes `-o` that grammar's `.wasm` path |
| BuilderProperties.CompileGrammarsStep | crates/extension/src/extension_builder.rs:68-80 | one loop step: after a failure nothing changes; otherwise the previous actions are a prefix, and a success ends with the new grammar's compiling clang run |
| BuilderProperties.CompileGrammarsFailure | crates/extension/src/extension_builder.rs:73-75 | a failing loop names one of its grammars and carries that grammar's own error |
| BuilderProperties.RelativeDirRejectedAfterNormalising | crates/extension/src/extension_builder.rs:49-56 | a relative directory still normalises the manifest, issues no action, and fails with the normalisation error or else NotAbsolute |
| BuilderProperties.BuildChangesOnlyVersion | crates/extension/src/extension_builder.rs:43-84 | after normalisation the build changes nothing but lib.version; grammars are never changed by compiling |
| BuilderProperties.BuildRecordsVersion | crates/extension/src/extension_builder.rs:60-66 | a successful build of a Rust extension has lib.version set |
| BuilderProperties.BuildCompilesEverything | crates/extension/src/extension_builder.rs:43-84 | a successful build issued, for every grammar of the manifest, a clang run (a program found by path) exporting `tree_sitter_<name>` with `-o` that grammar's `.wasm` path, and, for Rust, wrote extension.wasm |
| BuilderProperties.BuildGrammarFailureNamesGrammar | crates/extension/src/extension_builder.rs:68-75 | a grammar failure names a grammar of the manifest and carries that grammar's own error |
| BuilderProperties.RustStageRunsOnlyCargo | crates/extension/src/extension_builder.rs:99-145 | the only command the library stage issues is the cargo build |
| BuilderProperties.BuildStopsAtRustFailure | crates/extension/src/extension_builder.rs:60-64 | when the library stage fails no grammar is compiled: the only command issued is the cargo build |
| Paths.Extension | crates/extension/src/extension_builder.rs:318 | the text after the file name's last '.', none for a dot-free name, for `..` and for a name whose only '.' leads; its properties are Paths.LastDot, Paths.StemExtensionRoundTrip and Paths.StemWithoutExtension |
| Paths.Stem | crates/extension/src/extension_builder.rs:367-370 | the file name without its extension and the '.' before it; Paths.StemExtensionRoundTrip rebuilds the name from stem and extension, Commands.StemIsPrefix makes it a prefix |
| Paths.SetExtension | crates/extension/src/extension_builder.rs:170 | replaces what follows the file name's stem by the extension, and leaves a path without file name alone; Paths.SetExtensionKeepsDir, Paths.SetExtensionThenExtension and Paths.SetExtensionDotFree state what it does |
| Commands.ComponentPath | crates/extension/src/extension_builder.rs:121-132 | `dir/target/wasm32-wasip2/<profile>/<underscored name>` with extension wasm; Commands.ComponentPathLayout, Commands.ComponentPathFileName and Commands.DashedPackageName state its shape |
| Commands.GrammarRepoDir | crates/extension/src/extension_builder.rs:166-167 | the working tree `dir/grammars/<name>`; Commands.SourceRootInsideRepo keeps the sources inside it |
| Commands.GrammarWasmPath | crates/extension/src/extension_builder.rs:169-170 | the working tree's path with extension wasm; Commands.GrammarWasmPathLayout states it lies in `dir/grammars` with the name's stem |
| Commands.GrammarSourceRoot | crates/extension/src/extension_builder.rs:179-183 | the working tree joined with the entry's optional subpath; Commands.SourceRootInsideRepo and Commands.GrammarScannerArgument are about it |
| Fetcher.GitInit | crates/extension/src/extension_builder.rs:225-228 | `git init` run in the grammar directory, the second action of a fresh fetch (Fetcher.CheckoutDecides, Fetcher.EarlyStageAborts) |
| Fetcher.GitRemoteAdd | crates/extension/src/extension_builder.rs:236-241 | `git --git-dir <dir>/.git remote add origin <url>`, the third action of a fresh fetch (Fetcher.CheckoutDecides, Fetcher.EarlyStageAborts) |
| Fetcher.GitFetch | crates/extension/src/extension_builder.rs:249-254 | `git --git-dir <dir>/.git fetch --depth 1 origin <rev>`, the fourth action; Fetcher.EarlyStageAborts shows it is never issued after an early failure |
| Fetcher.GitCheckout | crates/extension/src/extension_builder.rs:256-262 | `git --git-dir <dir>/.git checkout <rev>` run in the grammar directory, the last action; Fetcher.CheckoutDecides makes its result the fetch's result |
| Normalizer.Candidate | crates/extension/src/extension_builder.rs:297-337 | the relative path a directory entry contributes: `languages/<name>` when it holds config.toml, `themes/<name>` or `icon_themes/<name>` for a json file, nothing otherwise; NormalizerProperties.NormalizeAddsOnlyQualifying and NormalizerProperties.NormalizeAddsEveryQualifying rest on it |
| Normalizer.GrammarStep | crates/extension/src/extension_builder.rs:355-380 | one legacy grammar entry: a `.toml` file is read, parsed and needs a name, then its stem is inserted unless taken, commit becoming rev; NormalizerProperties.ScanGrammarsKeepsExisting, NormalizerProperties.ScanGrammarsSound and NormalizerProperties.ScanGrammarsComplete state it |
| Normalizer.Normalize | crates/extension/src/extension_builder.rs:283-387 | the manifest after normalising and whether it failed, keeping the changes made before a failure; Normalizer.PopulateDefaults is proved equal to it and the NormalizerProperties lemmas state what it promises |
| Builder.RustStage | crates/extension/src/extension_builder.rs:86-154 | the library stage: read Cargo.toml, run cargo, read the component, extract the version, write extension.wasm, stopping at the first failure; BuilderProperties.RustStageVersion, BuilderProperties.CargoFailureCarriesStderr and BuilderProperties.RustStageRunsOnlyCargo state it |
| Builder.CompileGrammar | crates/extension/src/extension_builder.rs:156-213 | one grammar: find clang, fetch the repository, run clang; BuilderProperties.CompileGrammarOk, BuilderProperties.CompileGrammarNoClang, BuilderProperties.CompileGrammarFetchFailure and BuilderProperties.CompileGrammarClangFailure state its success and each of its failures |
| Builder.CompileGrammars | crates/extension/src/extension_builder.rs:68-80 | the grammars in order after the actions so far, stopping at the first failure and naming it; BuilderProperties.CompileGrammarsPass, BuilderProperties.CompileGrammarsFailure and Builder.GrammarFailureSticks state it |
| Builder.CompileStages | crates/extension/src/extension_builder.rs:58-80 | cache directory, library stage when lib.kind is Rust, then the grammars; Builder.ExtensionBuilder.RunStages is proved equal to it |
| Builder.Build | crates/extension/src/extension_builder.rs:43-84 | normalise, reject a relative directory, then the stages; Builder.ExtensionBuilder.CompileExtension is proved equal to it, and BuilderProperties.RelativeDirRejectedAfterNormalising, BuilderProperties.BuildCacheDirFailure, BuilderProperties.BuildStopsAtRustFailure, BuilderProperties.BuildGrammarFailureNamesGrammar and BuilderProperties.BuildCompilesEverything state its outcomes |
| BuilderProperties.BuildPassStages | crates/extension/src/extension_builder.rs:58-80 | a successful build passed normalisation, the directory check, the cache directory and the library stage, and its actions are the grammar loop's after those |
| BuilderProperties.RustFailureTrace | crates/extension/src/extension_builder.rs:60-64 | a build that failed in the library stage was a Rust extension whose actions are the cache directory followed by the library stage's |
| BuilderProperties.CompileGrammarNoClang | crates/extension/src/extension_builder.rs:162 | without clang on the path the grammar fails with ClangNotFound and issues nothing |
| BuilderProperties.CompileGrammarClangFailure | crates/extension/src/extension_builder.rs:204-209 | after a successful fetch, a clang run that exits with failure is reported as ClangFailed with the grammar name and clang's stderr, and the clang run (exporting the symbol, writing the `.wasm`) is the last action |
| BuilderProperties.BuildCacheDirFailure | crates/extension/src/extension_builder.rs:58 | once normalisation passed and the directory is absolute, a cache directory that cannot be created ends the build with CacheDirFailed, the create as the only action, and the normalised manifest |

## Left out

- Real I/O: files, directories and processes are not touched. The filesystem is a snapshot value (`Fs`) and each subprocess's result is an input (`Proc`). Effects are recorded as a trace and are not carried out. A file created during the build is therefore not seen by later existence checks in the same run. The one such check that follows a fetch, whether `src/scanner.c` exists, is an input observed after the checkout (`GrammarWorld.scannerExists`).
- TOML parsing of `Cargo.toml` and of the legacy grammar files: the parse result is an input (`CargoRead`, `TomlRead`).
- `parse_wasm_extension_version` is not part of this model. It is an input function, `RustWorld.apiVersion`.
- `which::which("clang")` is an input, `GrammarWorld.clang`.
- The `WASI_LIBC_PATH` lookup, together with the process abort when it is unset, is not modelled. The value is a parameter.
- Logging, `async`, the HTTP client field and the `ExtensionBuilder::new` HTTP argument are left out because they do not affect results.
- The iteration order of the grammar map is not modelled. The manifest type, and with it the key order of `grammars`, is defined outside `extension_builder.rs`. Callers pass that order as `order`, which must list every grammar key once (`Builder.Enumerates`).
- `strip_prefix` failure is not modelled: entries returned by `read_dir` always lie under the directory listed.
- Non-UTF-8 file names are reduced to one flag per directory entry. That flag only matters for the grammar name.
- The error messages' text and `anyhow` context chains are reduced to structured `Error` values.
- A grammar name and a package name are treated as single path components. Names containing `/` are not modelled. A `.` component is not collapsed the way the standard library does, so the model gives `dir/grammars/.` rather than `dir/grammars.wasm` as the wasm path of a grammar named `.` (from a v0 file `grammars/..toml`). Likewise an empty grammar key: the standard library treats `grammars/` followed by an empty name as `grammars` (the directory is `dir/grammars/`, which already exists, and the output `dir/grammars.wasm`), while the model keeps an empty last component.
- Builder.ExtensionBuilder.CompileExtension: the build function takes `order` from the caller. It is not derived from the map's ordering.
