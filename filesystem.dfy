/**
  A snapshot of the extension's directory tree, as the builder observes
  it: which paths exist, what listing a directory yields, and what reading
  and parsing a legacy grammar TOML file yields.
*/
module FileSystem {
  import opened Base
  import opened Paths

  /** One item of `read_dir`: an error, or an entry whose name may or may not be valid Unicode. */
  datatype DirEntry = EntryFailed | Entry(name: string, unicode: bool)

  datatype Listing = ListFailed | Listed(entries: seq<DirEntry>)

  /** The contents of a legacy `grammars/<name>.toml` file. */
  datatype GrammarToml = GrammarToml(repository: string, commit: string, path: Option<Path>)

  /** Reading then parsing a grammar TOML file. */
  datatype TomlRead = ReadFailed | ParseFailed | Parsed(config: GrammarToml)

  datatype Fs = Fs(existing: set<Path>, dirs: map<Path, Listing>, grammarTomls: map<Path, TomlRead>)
  {
    predicate Exists(p: Path) { p in existing }

    /** A path the snapshot has no listing for cannot be listed. */
    function ListDir(p: Path): Listing {
      if p in dirs then dirs[p] else ListFailed
    }

    /** A path the snapshot has no contents for cannot be read. */
    function ReadGrammarToml(p: Path): TomlRead {
      if p in grammarTomls then grammarTomls[p] else ReadFailed
    }
  }
}
