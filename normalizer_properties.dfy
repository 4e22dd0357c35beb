/**
  What `populate_defaults` guarantees, proved about `Normalize`: the v0
  reset, append-only behaviour on newer schemas, de-duplication, which
  directory entries qualify, and how legacy grammar files become entries.
*/
module NormalizerProperties {
  import opened Base
  import opened Paths
  import opened Outcomes
  import opened Manifests
  import opened FileSystem
  import opened Normalizer

  predicate NoDuplicates(xs: seq<Path>) {
    forall i, j :: 0 <= i < j < |xs| ==> xs[i] != xs[j]
  }

  /** `name` is the name of an entry of the listing. */
  predicate IsListed(entries: seq<DirEntry>, name: string) {
    exists i :: 0 <= i < |entries| && entries[i].Entry? && entries[i].name == name
  }

  /** `p` is what a listed entry of `c`'s directory contributes. */
  predicate Qualifies(c: Collection, fs: Fs, dir: Path, entries: seq<DirEntry>, p: Path) {
    |p| == 2 && p[0] == DirName(c) && IsListed(entries, p[1]) && Candidate(c, fs, dir, p[1]) == Some(p)
  }

  // ---- one directory scan --------------------------------------------------

  /** Scanning only ever appends: the collection before is a prefix of the one after. */
  lemma {:induction false} ScanPathsAppends(xs: seq<Path>, entries: seq<DirEntry>, c: Collection, fs: Fs, dir: Path)
    ensures xs <= ScanPaths(xs, entries, c, fs, dir).value
    decreases |entries|
  {
    if entries != [] {
      ScanPathsAppends(xs, entries[..|entries| - 1], c, fs, dir);
    }
  }

  /** A path is appended only when absent, so a duplicate-free collection stays duplicate-free. */
  lemma {:induction false} ScanPathsNoDuplicates(xs: seq<Path>, entries: seq<DirEntry>, c: Collection, fs: Fs, dir: Path)
    requires NoDuplicates(xs)
    ensures NoDuplicates(ScanPaths(xs, entries, c, fs, dir).value)
    decreases |entries|
  {
    if entries != [] {
      ScanPathsNoDuplicates(xs, entries[..|entries| - 1], c, fs, dir);
    }
  }

  /** Everything in the scanned collection was there before or comes from a qualifying listed entry. */
  lemma {:induction false} ScanPathsSound(xs: seq<Path>, entries: seq<DirEntry>, c: Collection, fs: Fs, dir: Path)
    ensures forall p :: p in ScanPaths(xs, entries, c, fs, dir).value ==> p in xs || Qualifies(c, fs, dir, entries, p)
    decreases |entries|
  {
    if entries != [] {
      var init := entries[..|entries| - 1];
      ScanPathsSound(xs, init, c, fs, dir);
      forall p | p in ScanPaths(xs, entries, c, fs, dir).value
        ensures p in xs || Qualifies(c, fs, dir, entries, p)
      {
        if p !in xs {
          if p in ScanPaths(xs, init, c, fs, dir).value {
            assert Qualifies(c, fs, dir, init, p);
            var i :| 0 <= i < |init| && init[i].Entry? && init[i].name == p[1];
            assert entries[i] == init[i];
          } else {
            var last := entries[|entries| - 1];
            assert last.Entry? && Candidate(c, fs, dir, last.name) == Some(p);
            assert IsListed(entries, p[1]);
          }
        }
      }
    }
  }

  /** A scan that did not fail took in every qualifying entry of the listing. */
  lemma {:induction false} ScanPathsComplete(xs: seq<Path>, entries: seq<DirEntry>, c: Collection, fs: Fs, dir: Path)
    requires ScanPaths(xs, entries, c, fs, dir).outcome.Pass?
    ensures forall i :: 0 <= i < |entries| && entries[i].Entry? && Candidate(c, fs, dir, entries[i].name).Some? ==>
      Candidate(c, fs, dir, entries[i].name).value in ScanPaths(xs, entries, c, fs, dir).value
    decreases |entries|
  {
    if entries != [] {
      var init := entries[..|entries| - 1];
      ScanPathsComplete(xs, init, c, fs, dir);
      forall i | 0 <= i < |entries| && entries[i].Entry? && Candidate(c, fs, dir, entries[i].name).Some?
        ensures Candidate(c, fs, dir, entries[i].name).value in ScanPaths(xs, entries, c, fs, dir).value
      {
        if i < |init| {
          assert init[i] == entries[i];
        }
      }
    }
  }

  // ---- legacy grammar files ------------------------------------------------

  /** The entry `e` is a legacy grammar file that parsed and defines grammar `k` as `v`, `commit` becoming `rev`. */
  predicate DefinesGrammar(fs: Fs, dir: Path, e: DirEntry, k: string, v: GrammarEntry) {
    && e.Entry? && e.unicode && Extension(e.name) == Some("toml") && Stem(e.name) == k
    && fs.ReadGrammarToml(dir + ["grammars", e.name]).Parsed?
    && var config := fs.ReadGrammarToml(dir + ["grammars", e.name]).config;
       v == GrammarEntry(config.repository, config.commit, config.path)
  }

  /** A grammar already in the map is never overwritten. */
  lemma {:induction false} ScanGrammarsKeepsExisting(g: map<string, GrammarEntry>, entries: seq<DirEntry>, fs: Fs, dir: Path)
    ensures forall k :: k in g ==> k in ScanGrammars(g, entries, fs, dir).value && ScanGrammars(g, entries, fs, dir).value[k] == g[k]
    decreases |entries|
  {
    if entries != [] {
      ScanGrammarsKeepsExisting(g, entries[..|entries| - 1], fs, dir);
    }
  }

  /** Every grammar the scan adds is defined by a listed TOML file, with `commit` mapped to `rev`. */
  lemma {:induction false} ScanGrammarsSound(g: map<string, GrammarEntry>, entries: seq<DirEntry>, fs: Fs, dir: Path)
    ensures var r := ScanGrammars(g, entries, fs, dir).value;
      forall k :: k in r && k !in g ==> exists i :: 0 <= i < |entries| && DefinesGrammar(fs, dir, entries[i], k, r[k])
    decreases |entries|
  {
    if entries != [] {
      var init := entries[..|entries| - 1];
      ScanGrammarsSound(g, init, fs, dir);
      var prev := ScanGrammars(g, init, fs, dir).value;
      var r := ScanGrammars(g, entries, fs, dir).value;
      forall k | k in r && k !in g
        ensures exists i :: 0 <= i < |entries| && DefinesGrammar(fs, dir, entries[i], k, r[k])
      {
        if k in prev && r[k] == prev[k] {
          var i :| 0 <= i < |init| && DefinesGrammar(fs, dir, init[i], k, prev[k]);
          assert entries[i] == init[i];
        } else {
          assert DefinesGrammar(fs, dir, entries[|entries| - 1], k, r[k]);
        }
      }
    }
  }

  /**
    A grammar scan that did not fail met only readable, parseable TOML files
    with a usable name, and every one of them names a grammar of the result.
  */
  lemma {:induction false} ScanGrammarsComplete(g: map<string, GrammarEntry>, entries: seq<DirEntry>, fs: Fs, dir: Path)
    requires ScanGrammars(g, entries, fs, dir).outcome.Pass?
    ensures forall i :: 0 <= i < |entries| && entries[i].Entry? && Extension(entries[i].name) == Some("toml") ==>
      && entries[i].unicode
      && fs.ReadGrammarToml(dir + ["grammars", entries[i].name]).Parsed?
      && Stem(entries[i].name) in ScanGrammars(g, entries, fs, dir).value
    decreases |entries|
  {
    if entries != [] {
      var init := entries[..|entries| - 1];
      ScanGrammarsComplete(g, init, fs, dir);
      ScanGrammarsKeepsExisting(ScanGrammars(g, init, fs, dir).value, [entries[|entries| - 1]], fs, dir);
      forall i | 0 <= i < |entries| && entries[i].Entry? && Extension(entries[i].name) == Some("toml")
        ensures && entries[i].unicode
          && fs.ReadGrammarToml(dir + ["grammars", entries[i].name]).Parsed?
          && Stem(entries[i].name) in ScanGrammars(g, entries, fs, dir).value
      {
        if i < |init| {
          assert init[i] == entries[i];
        }
      }
    }
  }

  // ---- one directory ---------------------------------------------------------

  /** The entries of `c`'s directory, when it exists and can be listed. */
  function ListedEntries(c: Collection, fs: Fs, dir: Path): seq<DirEntry> {
    if fs.Exists(dir + [DirName(c)]) && fs.ListDir(dir + [DirName(c)]).Listed? then fs.ListDir(dir + [DirName(c)]).entries else []
  }

  lemma CollectPathsFacts(xs: seq<Path>, c: Collection, fs: Fs, dir: Path)
    ensures xs <= CollectPaths(xs, c, fs, dir).value
    ensures NoDuplicates(xs) ==> NoDuplicates(CollectPaths(xs, c, fs, dir).value)
    ensures forall p :: p in CollectPaths(xs, c, fs, dir).value ==> p in xs || Qualifies(c, fs, dir, ListedEntries(c, fs, dir), p)
  {
    if fs.Exists(dir + [DirName(c)]) && fs.ListDir(dir + [DirName(c)]).Listed? {
      var entries := fs.ListDir(dir + [DirName(c)]).entries;
      ScanPathsAppends(xs, entries, c, fs, dir);
      if NoDuplicates(xs) { ScanPathsNoDuplicates(xs, entries, c, fs, dir); }
      ScanPathsSound(xs, entries, c, fs, dir);
    }
  }

  // ---- the whole normalisation -------------------------------------------------

  /** Where each collection of the result comes from: its directory's scan, or left as reset. */
  lemma NormalizeShape(m: ManifestData, fs: Fs, dir: Path)
    ensures var m0 := ResetV0(m); var r := Normalize(m, fs, dir).value;
      && r.languages == CollectPaths(m0.languages, Languages, fs, dir).value
      && (r.themes == m0.themes || r.themes == CollectPaths(m0.themes, Themes, fs, dir).value)
      && (r.iconThemes == m0.iconThemes || r.iconThemes == CollectPaths(m0.iconThemes, IconThemes, fs, dir).value)
      && (r.grammars == m0.grammars || (m.IsV0() && r.grammars == CollectGrammars(m0.grammars, fs, dir).value))
  {
    var m0 := ResetV0(m);
    var m1 := DetectLib(m0, fs, dir);
    assert m1.languages == m0.languages && m1.themes == m0.themes && m1.iconThemes == m0.iconThemes;
    assert m1.grammars == m0.grammars && m1.schemaVersion == m.schemaVersion;
    CollectAllPathsShape(m1, fs, dir);
  }

  /** The three path scans replace their own collections and leave the rest of the manifest alone. */
  lemma CollectAllPathsShape(m: ManifestData, fs: Fs, dir: Path)
    ensures var r := CollectAllPaths(m, fs, dir).value;
      && r.languages == CollectPaths(m.languages, Languages, fs, dir).value
      && (r.themes == m.themes || r.themes == CollectPaths(m.themes, Themes, fs, dir).value)
      && (r.iconThemes == m.iconThemes || r.iconThemes == CollectPaths(m.iconThemes, IconThemes, fs, dir).value)
      && r.grammars == m.grammars
      && r.schemaVersion == m.schemaVersion
  {
  }

  /**
    On a schema newer than v0 nothing is removed or reordered: the old
    languages, themes and icon themes are prefixes of the new ones, and
    the grammars are left exactly as they were.
  */
  lemma NonV0OnlyAppends(m: ManifestData, fs: Fs, dir: Path)
    requires !m.IsV0()
    ensures var r := Normalize(m, fs, dir).value;
      && m.languages <= r.languages
      && m.themes <= r.themes
      && m.iconThemes <= r.iconThemes
      && r.grammars == m.grammars
  {
    NormalizeShape(m, fs, dir);
    var m1 := ResetV0(m);
    CollectPathsFacts(m1.languages, Languages, fs, dir);
    CollectPathsFacts(m1.themes, Themes, fs, dir);
    CollectPathsFacts(m1.iconThemes, IconThemes, fs, dir);
  }

  /**
    On the v0 schema the old languages, themes and grammars are discarded:
    the outcome does not depend on them at all. Icon themes, snippets and
    the library descriptor are not cleared.
  */
  lemma V0RederivesFromDisk(m: ManifestData, languages: seq<Path>, themes: seq<Path>, grammars: map<string, GrammarEntry>, fs: Fs, dir: Path)
    requires m.IsV0()
    ensures Normalize(m.(languages := languages, themes := themes, grammars := grammars), fs, dir) == Normalize(m, fs, dir)
    ensures m.iconThemes <= Normalize(m, fs, dir).value.iconThemes
  {
    var m' := m.(languages := languages, themes := themes, grammars := grammars);
    assert ResetV0(m') == ResetV0(m);
    var m1 := DetectLib(ResetV0(m), fs, dir);
    CollectPathsFacts(m1.iconThemes, IconThemes, fs, dir);
  }

  /** If the path collections had no duplicates before normalising, they have none after. */
  lemma NormalizeKeepsNoDuplicates(m: ManifestData, fs: Fs, dir: Path)
    requires NoDuplicates(m.languages) && NoDuplicates(m.themes) && NoDuplicates(m.iconThemes)
    ensures var r := Normalize(m, fs, dir).value;
      NoDuplicates(r.languages) && NoDuplicates(r.themes) && NoDuplicates(r.iconThemes)
  {
    NormalizeShape(m, fs, dir);
    var m1 := ResetV0(m);
    CollectPathsFacts(m1.languages, Languages, fs, dir);
    CollectPathsFacts(m1.themes, Themes, fs, dir);
    CollectPathsFacts(m1.iconThemes, IconThemes, fs, dir);
  }

  /**
    Only qualifying entries are added: a language is a listed child of
    `languages/` holding `config.toml`; a theme or icon theme is a listed
    `.json` file of `themes/` or `icon_themes/`.
  */
  lemma NormalizeAddsOnlyQualifying(m: ManifestData, fs: Fs, dir: Path)
    ensures var r := Normalize(m, fs, dir).value;
      var m0 := ResetV0(m);
      && (forall p :: p in r.languages && p !in m0.languages ==>
            |p| == 2 && p[0] == "languages" && IsListed(ListedEntries(Languages, fs, dir), p[1])
            && fs.Exists(dir + ["languages", p[1], "config.toml"]))
      && (forall p :: p in r.themes && p !in m0.themes ==>
            |p| == 2 && p[0] == "themes" && IsListed(ListedEntries(Themes, fs, dir), p[1]) && Extension(p[1]) == Some("json"))
      && (forall p :: p in r.iconThemes && p !in m0.iconThemes ==>
            |p| == 2 && p[0] == "icon_themes" && IsListed(ListedEntries(IconThemes, fs, dir), p[1]) && Extension(p[1]) == Some("json"))
  {
    NormalizeShape(m, fs, dir);
    var m1 := ResetV0(m);
    CollectPathsFacts(m1.languages, Languages, fs, dir);
    CollectPathsFacts(m1.themes, Themes, fs, dir);
    CollectPathsFacts(m1.iconThemes, IconThemes, fs, dir);
  }

  /**
    `lib.kind` is `Rust` exactly when `Cargo.toml` exists and is otherwise
    left as it was; `lib.version`, the id and the schema version never
    change; `snippets` is `dir/snippets.json` when that file exists and
    normalisation succeeded, and is otherwise untouched unless the failure
    came after it was set.
  */
  lemma NormalizeLibAndSnippets(m: ManifestData, fs: Fs, dir: Path)
    ensures var s := Normalize(m, fs, dir); var r := s.value;
      && r.lib.kind == (if fs.Exists(dir + ["Cargo.toml"]) then Some(Rust) else m.lib.kind)
      && r.lib.version == m.lib.version
      && r.id == m.id && r.schemaVersion == m.schemaVersion
      && (s.outcome.Pass? ==> r.snippets == if fs.Exists(SnippetsPath(dir)) then Some(SnippetsPath(dir)) else m.snippets)
      && (r.snippets == m.snippets || (fs.Exists(SnippetsPath(dir)) && r.snippets == Some(SnippetsPath(dir))))
  {
  }

  /** A normalisation that succeeded ran every scan to its end. */
  lemma NormalizePassShape(m: ManifestData, fs: Fs, dir: Path)
    requires Normalize(m, fs, dir).outcome.Pass?
    ensures var m0 := ResetV0(m); var r := Normalize(m, fs, dir).value;
      && CollectPaths(m0.languages, Languages, fs, dir) == Scan(r.languages, Pass)
      && CollectPaths(m0.themes, Themes, fs, dir) == Scan(r.themes, Pass)
      && CollectPaths(m0.iconThemes, IconThemes, fs, dir) == Scan(r.iconThemes, Pass)
      && (m.IsV0() ==> CollectGrammars(map[], fs, dir) == Scan(r.grammars, Pass))
  {
  }

  /**
    A successful normalisation took in every qualifying entry: each child of
    `languages/` holding `config.toml`, and each `.json` file of `themes/`
    and `icon_themes/`, is in its collection afterwards.
  */
  lemma NormalizeAddsEveryQualifying(m: ManifestData, fs: Fs, dir: Path)
    requires Normalize(m, fs, dir).outcome.Pass?
    ensures var r := Normalize(m, fs, dir).value;
      && (forall name :: IsListed(ListedEntries(Languages, fs, dir), name) && fs.Exists(dir + ["languages", name, "config.toml"])
            ==> ["languages", name] in r.languages)
      && (forall name :: IsListed(ListedEntries(Themes, fs, dir), name) && Extension(name) == Some("json")
            ==> ["themes", name] in r.themes)
      && (forall name :: IsListed(ListedEntries(IconThemes, fs, dir), name) && Extension(name) == Some("json")
            ==> ["icon_themes", name] in r.iconThemes)
  {
    NormalizePassShape(m, fs, dir);
    var m0 := ResetV0(m);
    var r := Normalize(m, fs, dir).value;
    forall c | c in {Languages, Themes, IconThemes}
      ensures forall name :: IsListed(ListedEntries(c, fs, dir), name) && Candidate(c, fs, dir, name).Some? ==>
                Candidate(c, fs, dir, name).value in CollectPaths(m0.Paths(c), c, fs, dir).value
    {
      var entries := ListedEntries(c, fs, dir);
      if entries != [] {
        ScanPathsComplete(m0.Paths(c), entries, c, fs, dir);
      }
    }
  }

  /** On v0, every grammar comes from a listed `grammars/<name>.toml` file, its `commit` becoming `rev`. */
  lemma V0GrammarsFromFiles(m: ManifestData, fs: Fs, dir: Path)
    requires m.IsV0()
    ensures var r := Normalize(m, fs, dir).value; var entries := ListedEntries(Grammars, fs, dir);
      forall k :: k in r.grammars ==> exists i :: 0 <= i < |entries| && DefinesGrammar(fs, dir, entries[i], k, r.grammars[k])
  {
    NormalizeShape(m, fs, dir);
    var entries := ListedEntries(Grammars, fs, dir);
    if entries != [] {
      ScanGrammarsSound(map[], entries, fs, dir);
    }
  }

  /**
    A successful v0 normalisation met only parseable TOML files with usable
    names in `grammars/`, and each of them names a grammar of the result.
  */
  lemma V0GrammarsComplete(m: ManifestData, fs: Fs, dir: Path)
    requires m.IsV0() && Normalize(m, fs, dir).outcome.Pass?
    ensures var r := Normalize(m, fs, dir).value; var entries := ListedEntries(Grammars, fs, dir);
      forall i :: 0 <= i < |entries| && entries[i].Entry? && Extension(entries[i].name) == Some("toml") ==>
        && entries[i].unicode
        && fs.ReadGrammarToml(dir + ["grammars", entries[i].name]).Parsed?
        && Stem(entries[i].name) in r.grammars
  {
    NormalizePassShape(m, fs, dir);
    var entries := ListedEntries(Grammars, fs, dir);
    if entries != [] {
      ScanGrammarsComplete(map[], entries, fs, dir);
    }
  }

  // ---- which errors normalisation reports ----------------------------------------

  /** The errors raised while reading the extension directory. */
  predicate ReadingError(e: Error) {
    e.ListDirFailed? || e.DirEntryFailed? || e.GrammarTomlReadFailed? || e.GrammarTomlParseFailed? || e.NoGrammarName?
  }

  lemma {:induction false} ScanPathsErrors(xs: seq<Path>, entries: seq<DirEntry>, c: Collection, fs: Fs, dir: Path)
    ensures var s := ScanPaths(xs, entries, c, fs, dir); s.outcome.Fail? ==> s.outcome.error == DirEntryFailed(c)
    decreases |entries|
  {
    if entries != [] {
      ScanPathsErrors(xs, entries[..|entries| - 1], c, fs, dir);
    }
  }

  lemma {:induction false} ScanGrammarsErrors(g: map<string, GrammarEntry>, entries: seq<DirEntry>, fs: Fs, dir: Path)
    ensures var s := ScanGrammars(g, entries, fs, dir); s.outcome.Fail? ==> ReadingError(s.outcome.error)
    decreases |entries|
  {
    if entries != [] {
      ScanGrammarsErrors(g, entries[..|entries| - 1], fs, dir);
    }
  }

  /** Normalisation fails only with an error about reading the extension directory. */
  lemma NormalizeErrors(m: ManifestData, fs: Fs, dir: Path)
    ensures var n := Normalize(m, fs, dir); n.outcome.Fail? ==> ReadingError(n.outcome.error)
  {
    var m1 := DetectLib(ResetV0(m), fs, dir);
    if fs.Exists(dir + ["languages"]) && fs.ListDir(dir + ["languages"]).Listed? {
      ScanPathsErrors(m1.languages, fs.ListDir(dir + ["languages"]).entries, Languages, fs, dir);
    }
    var m2 := m1.(languages := CollectPaths(m1.languages, Languages, fs, dir).value);
    if fs.Exists(dir + ["themes"]) && fs.ListDir(dir + ["themes"]).Listed? {
      ScanPathsErrors(m2.themes, fs.ListDir(dir + ["themes"]).entries, Themes, fs, dir);
    }
    var m3 := m2.(themes := CollectPaths(m2.themes, Themes, fs, dir).value);
    if fs.Exists(dir + ["icon_themes"]) && fs.ListDir(dir + ["icon_themes"]).Listed? {
      ScanPathsErrors(m3.iconThemes, fs.ListDir(dir + ["icon_themes"]).entries, IconThemes, fs, dir);
    }
    var paths := CollectAllPaths(m1, fs, dir);
    if paths.outcome.Pass? && fs.Exists(dir + ["grammars"]) && fs.ListDir(dir + ["grammars"]).Listed? {
      ScanGrammarsErrors(paths.value.grammars, fs.ListDir(dir + ["grammars"]).entries, fs, dir);
    }
  }
}
