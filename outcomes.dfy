/**
  What the builder reports and what it does to the outside world: the
  error taxonomy of `extension_builder.rs`, the outcome of a subprocess,
  and the trace of actions (commands run, directories created, files
  written) that a build issues.
*/
module Outcomes {
  import opened Base
  import opened Paths

  /** Which computed manifest collection a directory listing feeds. */
  datatype Collection = Languages | Themes | IconThemes | Grammars

  /** Every failure the builder can report, each carrying the context its message names. */
  datatype Error =
    // manifest normalisation
    | ListDirFailed(collection: Collection)
    | DirEntryFailed(collection: Collection)
    | GrammarTomlReadFailed(path: Path)
    | GrammarTomlParseFailed(path: Path)
    | NoGrammarName(path: Path)
    // orchestration
    | NotAbsolute(dir: Path)
    | CacheDirFailed(cacheDir: Path)
    | RustExtensionFailed(cause: Error)
    | GrammarFailed(grammar: string, cause: Error)
    // the Rust library
    | CargoTomlReadFailed(path: Path)
    | CargoTomlParseFailed(path: Path)
    | CommandNotRun(program: string)
    | CargoFailed(stderr: string)
    | ComponentReadFailed(path: Path)
    | NoExtensionApiVersion
    | ExtensionWriteFailed(path: Path)
    // grammars
    | ClangNotFound
    | ClangFailed(grammar: string, stderr: string)
    // the repository fetcher
    | GrammarDirCreateFailed(dir: Path)
    | GitInitFailed(dir: Path)
    | RemoteAddFailed(url: string, gitDir: Path)
    | FetchFailed(rev: string, dir: Path)
    | CheckoutFailed(rev: string, dir: Path, stderr: string)

  datatype Outcome = Pass | Fail(error: Error)

  /** What a subprocess did: it could not be started, or it exited with a status and stderr. */
  datatype Proc = SpawnFailed | Exited(success: bool, stderr: string) {
    /** Started and exited with a success status. */
    predicate Succeeded() { Exited? && success }
    /** Started and exited with a failure status. */
    predicate ExitedWithFailure() { Exited? && !success }
  }

  /** A command-line argument: literal text or a path. */
  datatype Arg = Lit(text: string) | PathArg(path: Path)

  /** A subprocess invocation: program, arguments, environment overrides and working directory. */
  datatype Command = Command(program: Arg, args: seq<Arg>, env: seq<(string, string)>, cwd: Option<Path>)

  /** One effect a build has on the outside world, in the order it happens. */
  datatype Action =
    | Exec(command: Command)
    | MakeDir(dir: Path)
    | WriteFile(path: Path, bytes: seq<Byte>)

  /** An outcome together with the actions issued before it was reached. */
  datatype Run = Run(outcome: Outcome, trace: seq<Action>)
}
