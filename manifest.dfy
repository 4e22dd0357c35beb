/**
  The part of the extension manifest that the builder reads and writes.
  `Manifest` is the mutable record the builder is handed; `ManifestData`
  is its value at one moment, in terms of which the builder's steps are
  specified.
*/
module Manifests {
  import opened Base
  import opened Paths
  import opened Outcomes

  /** The only library kind there is: a Rust crate compiled to a WASM component. */
  datatype LibKind = Rust

  /** The extension API version found in a compiled component. */
  datatype Version = Version(major: nat, minor: nat, patch: nat)

  datatype Lib = Lib(kind: Option<LibKind>, version: Option<Version>)

  /** Where a grammar's sources come from: repository URL, revision and optional subpath. */
  datatype GrammarEntry = GrammarEntry(repository: string, rev: string, path: Option<Path>)

  datatype ManifestData = ManifestData(
    id: string,
    schemaVersion: int,
    lib: Lib,
    languages: seq<Path>,
    themes: seq<Path>,
    iconThemes: seq<Path>,
    grammars: map<string, GrammarEntry>,
    snippets: Option<Path>)
  {
    /** The legacy schema, whose computed fields are re-derived from disk. */
    predicate IsV0() { schemaVersion == 0 }

    /** The path collection a directory feeds (grammars are a map, not a path collection). */
    function Paths(c: Collection): seq<Path> {
      match c
      case Languages => languages
      case Themes => themes
      case IconThemes => iconThemes
      case Grammars => []
    }

    function WithPaths(c: Collection, xs: seq<Path>): (r: ManifestData)
      requires c != Grammars
      ensures r.Paths(c) == xs
      ensures forall d :: d != c ==> r.Paths(d) == Paths(d)
    {
      match c
      case Languages => this.(languages := xs)
      case Themes => this.(themes := xs)
      case IconThemes => this.(iconThemes := xs)
    }
  }

  class Manifest {
    var id: string
    var schemaVersion: int
    var lib: Lib
    var languages: seq<Path>
    var themes: seq<Path>
    var iconThemes: seq<Path>
    var grammars: map<string, GrammarEntry>
    var snippets: Option<Path>

    function Data(): ManifestData
      reads this
    {
      ManifestData(id, schemaVersion, lib, languages, themes, iconThemes, grammars, snippets)
    }

    constructor (d: ManifestData)
      ensures Data() == d
    {
      id, schemaVersion, lib := d.id, d.schemaVersion, d.lib;
      languages, themes, iconThemes := d.languages, d.themes, d.iconThemes;
      grammars, snippets := d.grammars, d.snippets;
    }

    /** `collection.push(p)` unless `collection.contains(p)`. */
    method PushIfAbsent(c: Collection, p: Path)
      requires c != Grammars
      modifies this
      ensures Data() == old(Data()).WithPaths(c, if p in old(Data()).Paths(c) then old(Data()).Paths(c) else old(Data()).Paths(c) + [p])
    {
      match c
      case Languages => if p !in languages { languages := languages + [p]; }
      case Themes => if p !in themes { themes := themes + [p]; }
      case IconThemes => if p !in iconThemes { iconThemes := iconThemes + [p]; }
    }
  }
}
