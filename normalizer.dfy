/**
  The manifest normaliser, `populate_defaults`: fill in the manifest's
  computed fields from the extension's directory. `Normalize` specifies
  it on values; `PopulateDefaults` performs it in place on a `Manifest`,
  loop by loop, as the source does.
*/
module Normalizer {
  import opened Base
  import opened Paths
  import opened Outcomes
  import opened Manifests
  import opened FileSystem

  /** A value computed so far together with whether the computation went wrong. */
  datatype Scan<T> = Scan(value: T, outcome: Outcome)

  /** The directory under the extension root that feeds a collection. */
  function DirName(c: Collection): string {
    match c
    case Languages => "languages"
    case Themes => "themes"
    case IconThemes => "icon_themes"
    case Grammars => "grammars"
  }

  /**
    The relative path a directory entry contributes to a path collection:
    a language directory holding `config.toml`, or a theme or icon-theme
    file with extension `json`.
  */
  function Candidate(c: Collection, fs: Fs, dir: Path, name: string): Option<Path> {
    match c
    case Languages => if fs.Exists(dir + ["languages", name, "config.toml"]) then Some(["languages", name]) else None
    case Themes => if Extension(name) == Some("json") then Some(["themes", name]) else None
    case IconThemes => if Extension(name) == Some("json") then Some(["icon_themes", name]) else None
    case Grammars => None
  }

  function AddUnique(xs: seq<Path>, p: Path): seq<Path> {
    if p in xs then xs else xs + [p]
  }

  /** Feed the entries of a listing, in order, into a path collection; an entry error stops the scan. */
  function ScanPaths(xs: seq<Path>, entries: seq<DirEntry>, c: Collection, fs: Fs, dir: Path): Scan<seq<Path>>
    decreases |entries|
  {
    if entries == [] then Scan(xs, Pass)
    else
      var prev := ScanPaths(xs, entries[..|entries| - 1], c, fs, dir);
      if prev.outcome.Fail? then prev
      else match entries[|entries| - 1]
        case EntryFailed => Scan(prev.value, Fail(DirEntryFailed(c)))
        case Entry(name, _) =>
          match Candidate(c, fs, dir, name)
          case None => prev
          case Some(p) => Scan(AddUnique(prev.value, p), Pass)
  }

  /** A collection's directory: absent leaves the collection alone, unlistable is an error. */
  function CollectPaths(xs: seq<Path>, c: Collection, fs: Fs, dir: Path): Scan<seq<Path>> {
    if !fs.Exists(dir + [DirName(c)]) then Scan(xs, Pass)
    else match fs.ListDir(dir + [DirName(c)])
      case ListFailed => Scan(xs, Fail(ListDirFailed(c)))
      case Listed(entries) => ScanPaths(xs, entries, c, fs, dir)
  }

  /**
    One entry of the legacy `grammars` directory: a `.toml` file is read and
    parsed, its stem names the grammar, and the grammar is inserted unless
    the name is already taken.
  */
  function GrammarStep(g: map<string, GrammarEntry>, name: string, unicode: bool, fs: Fs, dir: Path): Scan<map<string, GrammarEntry>> {
    if Extension(name) != Some("toml") then Scan(g, Pass)
    else
      var path := dir + ["grammars", name];
      match fs.ReadGrammarToml(path)
      case ReadFailed => Scan(g, Fail(GrammarTomlReadFailed(path)))
      case ParseFailed => Scan(g, Fail(GrammarTomlParseFailed(path)))
      case Parsed(config) =>
        if !unicode then Scan(g, Fail(NoGrammarName(path)))
        else if Stem(name) in g then Scan(g, Pass)
        else Scan(g[Stem(name) := GrammarEntry(config.repository, config.commit, config.path)], Pass)
  }

  function ScanGrammars(g: map<string, GrammarEntry>, entries: seq<DirEntry>, fs: Fs, dir: Path): Scan<map<string, GrammarEntry>>
    decreases |entries|
  {
    if entries == [] then Scan(g, Pass)
    else
      var prev := ScanGrammars(g, entries[..|entries| - 1], fs, dir);
      if prev.outcome.Fail? then prev
      else match entries[|entries| - 1]
        case EntryFailed => Scan(prev.value, Fail(DirEntryFailed(Grammars)))
        case Entry(name, unicode) => GrammarStep(prev.value, name, unicode, fs, dir)
  }

  function CollectGrammars(g: map<string, GrammarEntry>, fs: Fs, dir: Path): Scan<map<string, GrammarEntry>> {
    if !fs.Exists(dir + ["grammars"]) then Scan(g, Pass)
    else match fs.ListDir(dir + ["grammars"])
      case ListFailed => Scan(g, Fail(ListDirFailed(Grammars)))
      case Listed(entries) => ScanGrammars(g, entries, fs, dir)
  }

  /** The v0 reset: languages, grammars and themes are emptied; nothing else is touched. */
  function ResetV0(m: ManifestData): ManifestData {
    if m.IsV0() then m.(languages := [], grammars := map[], themes := []) else m
  }

  /** `lib.kind` becomes `Rust` when `Cargo.toml` exists and is left alone otherwise. */
  function DetectLib(m: ManifestData, fs: Fs, dir: Path): ManifestData {
    if fs.Exists(dir + ["Cargo.toml"]) then m.(lib := m.lib.(kind := Some(Rust))) else m
  }

  function SnippetsPath(dir: Path): Path {
    dir + ["snippets.json"]
  }

  /** The three path collections, in the order the source fills them; the first failure stops. */
  function CollectAllPaths(m: ManifestData, fs: Fs, dir: Path): Scan<ManifestData> {
    var langs := CollectPaths(m.languages, Languages, fs, dir);
    var m1 := m.(languages := langs.value);
    if langs.outcome.Fail? then Scan(m1, langs.outcome)
    else
      var themes := CollectPaths(m1.themes, Themes, fs, dir);
      var m2 := m1.(themes := themes.value);
      if themes.outcome.Fail? then Scan(m2, themes.outcome)
      else
        var icons := CollectPaths(m2.iconThemes, IconThemes, fs, dir);
        Scan(m2.(iconThemes := icons.value), icons.outcome)
  }

  /**
    `populate_defaults(manifest, dir)`: the manifest afterwards, and whether
    it failed. The changes made before a failure stay in the manifest.
  */
  function Normalize(m: ManifestData, fs: Fs, dir: Path): Scan<ManifestData> {
    var m1 := DetectLib(ResetV0(m), fs, dir);
    var paths := CollectAllPaths(m1, fs, dir);
    if paths.outcome.Fail? then paths
    else
      var m2 := paths.value;
      var m3 := if fs.Exists(SnippetsPath(dir)) then m2.(snippets := Some(SnippetsPath(dir))) else m2;
      if !m3.IsV0() then Scan(m3, Pass)
      else
        var gs := CollectGrammars(m3.grammars, fs, dir);
        Scan(m3.(grammars := gs.value), gs.outcome)
  }

  /** Once a scan of a prefix has failed, scanning further entries changes nothing. */
  lemma {:induction false} ScanPathsFailureSticks(xs: seq<Path>, entries: seq<DirEntry>, k: nat, c: Collection, fs: Fs, dir: Path)
    requires k <= |entries|
    requires ScanPaths(xs, entries[..k], c, fs, dir).outcome.Fail?
    ensures ScanPaths(xs, entries, c, fs, dir) == ScanPaths(xs, entries[..k], c, fs, dir)
    decreases |entries|
  {
    if k < |entries| {
      var init := entries[..|entries| - 1];
      assert init[..k] == entries[..k];
      ScanPathsFailureSticks(xs, init, k, c, fs, dir);
    } else {
      assert entries[..k] == entries;
    }
  }

  lemma {:induction false} ScanGrammarsFailureSticks(g: map<string, GrammarEntry>, entries: seq<DirEntry>, k: nat, fs: Fs, dir: Path)
    requires k <= |entries|
    requires ScanGrammars(g, entries[..k], fs, dir).outcome.Fail?
    ensures ScanGrammars(g, entries, fs, dir) == ScanGrammars(g, entries[..k], fs, dir)
    decreases |entries|
  {
    if k < |entries| {
      var init := entries[..|entries| - 1];
      assert init[..k] == entries[..k];
      ScanGrammarsFailureSticks(g, init, k, fs, dir);
    } else {
      assert entries[..k] == entries;
    }
  }

  /** Scan one directory into one path collection of `manifest`, pushing as it goes. */
  method CollectPathsInto(manifest: Manifest, c: Collection, fs: Fs, dir: Path) returns (outcome: Outcome)
    requires c != Grammars
    modifies manifest
    ensures var s := CollectPaths(old(manifest.Data()).Paths(c), c, fs, dir);
      manifest.Data() == old(manifest.Data()).WithPaths(c, s.value) && outcome == s.outcome
  {
    ghost var m0 := manifest.Data();
    var sub := dir + [DirName(c)];
    if !fs.Exists(sub) {
      return Pass;
    }
    match fs.ListDir(sub)
    case ListFailed =>
      assert m0.WithPaths(c, m0.Paths(c)) == m0;
      return Fail(ListDirFailed(c));
    case Listed(entries) =>
      assert m0.WithPaths(c, m0.Paths(c)) == m0;
      var i := 0;
      while i < |entries|
        invariant 0 <= i <= |entries|
        invariant ScanPaths(m0.Paths(c), entries[..i], c, fs, dir).outcome == Pass
        invariant manifest.Data() == m0.WithPaths(c, ScanPaths(m0.Paths(c), entries[..i], c, fs, dir).value)
      {
        assert entries[..i + 1][..i] == entries[..i];
        match entries[i]
        case EntryFailed =>
          ScanPathsFailureSticks(m0.Paths(c), entries, i + 1, c, fs, dir);
          return Fail(DirEntryFailed(c));
        case Entry(name, _) =>
          ghost var prev := ScanPaths(m0.Paths(c), entries[..i], c, fs, dir);
          var candidate := Candidate(c, fs, dir, name);
          assert ScanPaths(m0.Paths(c), entries[..i + 1], c, fs, dir)
            == if candidate.Some? then Scan(AddUnique(prev.value, candidate.value), Pass) else prev;
          if candidate.Some? {
            manifest.PushIfAbsent(c, candidate.value);
          }
        i := i + 1;
      }
      assert entries[..i] == entries;
      return Pass;
  }

  /** Scan the legacy `grammars` directory into `manifest.grammars`, inserting as it goes. */
  method CollectGrammarsInto(manifest: Manifest, fs: Fs, dir: Path) returns (outcome: Outcome)
    modifies manifest
    ensures var s := CollectGrammars(old(manifest.grammars), fs, dir);
      manifest.Data() == old(manifest.Data()).(grammars := s.value) && outcome == s.outcome
  {
    ghost var m0 := manifest.Data();
    var sub := dir + ["grammars"];
    if !fs.Exists(sub) {
      return Pass;
    }
    match fs.ListDir(sub)
    case ListFailed =>
      return Fail(ListDirFailed(Grammars));
    case Listed(entries) =>
      var i := 0;
      while i < |entries|
        invariant 0 <= i <= |entries|
        invariant ScanGrammars(m0.grammars, entries[..i], fs, dir).outcome == Pass
        invariant manifest.Data() == m0.(grammars := ScanGrammars(m0.grammars, entries[..i], fs, dir).value)
      {
        assert entries[..i + 1][..i] == entries[..i];
        match entries[i]
        case EntryFailed =>
          ScanGrammarsFailureSticks(m0.grammars, entries, i + 1, fs, dir);
          return Fail(DirEntryFailed(Grammars));
        case Entry(name, unicode) =>
          ghost var prev := ScanGrammars(m0.grammars, entries[..i], fs, dir);
          assert ScanGrammars(m0.grammars, entries[..i + 1], fs, dir) == GrammarStep(prev.value, name, unicode, fs, dir);
          if Extension(name) == Some("toml") {
            var path := dir + ["grammars", name];
            match fs.ReadGrammarToml(path)
            case ReadFailed =>
              ScanGrammarsFailureSticks(m0.grammars, entries, i + 1, fs, dir);
              return Fail(GrammarTomlReadFailed(path));
            case ParseFailed =>
              ScanGrammarsFailureSticks(m0.grammars, entries, i + 1, fs, dir);
              return Fail(GrammarTomlParseFailed(path));
            case Parsed(config) =>
              if !unicode {
                ScanGrammarsFailureSticks(m0.grammars, entries, i + 1, fs, dir);
                return Fail(NoGrammarName(path));
              }
              var grammarName := Stem(name);
              if grammarName !in manifest.grammars {
                manifest.grammars := manifest.grammars[grammarName := GrammarEntry(config.repository, config.commit, config.path)];
              }
          }
        i := i + 1;
      }
      assert entries[..i] == entries;
      return Pass;
  }

  /** `populate_defaults`, in place: the manifest and outcome are those `Normalize` specifies. */
  method PopulateDefaults(manifest: Manifest, fs: Fs, dir: Path) returns (outcome: Outcome)
    modifies manifest
    ensures manifest.Data() == Normalize(old(manifest.Data()), fs, dir).value
    ensures outcome == Normalize(old(manifest.Data()), fs, dir).outcome
  {
    if manifest.schemaVersion == 0 {
      manifest.languages := [];
      manifest.grammars := map[];
      manifest.themes := [];
    }
    if fs.Exists(dir + ["Cargo.toml"]) {
      manifest.lib := manifest.lib.(kind := Some(Rust));
    }
    outcome := CollectPathsInto(manifest, Languages, fs, dir);
    if outcome.Fail? {
      return;
    }
    outcome := CollectPathsInto(manifest, Themes, fs, dir);
    if outcome.Fail? {
      return;
    }
    outcome := CollectPathsInto(manifest, IconThemes, fs, dir);
    if outcome.Fail? {
      return;
    }
    if fs.Exists(SnippetsPath(dir)) {
      manifest.snippets := Some(SnippetsPath(dir));
    }
    if manifest.schemaVersion == 0 {
      outcome := CollectGrammarsInto(manifest, fs, dir);
    }
  }
}
