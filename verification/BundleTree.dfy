/** A profile directory, and the part of it a bundle carries. */
module BundleTree {
  import opened Wrappers

  type Content = seq<int>

  /** Anything a path can name. What is neither a file nor a directory is not archived. */
  datatype Node = File(content: Content) | Dir(entries: seq<Entry>) | Other
  datatype Entry = Entry(name: string, node: Node)

  type Path = seq<string>

  // ----- what is skipped -----

  const SKIP: set<string> := {"SingletonLock", "SingletonSocket", "SingletonCookie", "lockfile", "DevToolsActivePort"}

  const SKIP_COMPONENTS: set<string> := {
    "WasmTtsEngine", "OnDeviceHeadSuggestModel", "ActorSafetyLists", "AmountExtractionHeuristicRegexes",
    "CaptchaProviders", "Crowd Deny", "FileTypePolicies", "FirstPartySetsPreloaded", "MEIPreload",
    "OptimizationHints", "OriginTrials", "PKIMetadata", "PrivacySandboxAttestationsPreloaded",
    "SSLErrorAssistant", "SafetyTips", "TrustTokenKeyCommitments", "ZxcvbnData", "GPUPersistentCache",
    "extensions_crx_cache", "BrowserMetrics", "BrowserMetrics-spare.pma", "hyphen-data", "WidevineCdm"
  }

  const SKIP_CACHES: set<string> := {
    "download_cache", "GraphiteDawnCache", "component_crx_cache", "CertificateRevocation", "Subresource Filter",
    "segmentation_platform", "Cache", "Code Cache", "GPUCache", "DawnGraphiteCache", "DawnWebGPUCache",
    "ShaderCache", "GrShaderCache", "Shared Dictionary", "optimization_guide_hint_cache_store", "CacheStorage"
  }

  predicate EndsWith(s: string, suffix: string) {
    |s| >= |suffix| && s[|s| - |suffix|..] == suffix
  }

  /** An entry of this name is left behind. Components and dictionaries only at the top. */
  predicate Skipped(name: string, top: bool) {
    name in SKIP || name in SKIP_CACHES || (top && (name in SKIP_COMPONENTS || EndsWith(name, ".bdic")))
  }

  /** A path travels: no name on it is skipped. */
  predicate Travels(path: Path, top: bool) {
    path != [] && !Skipped(path[0], top) && (|path| == 1 || Travels(path[1..], false))
  }

  // ----- what a directory holds -----

  /** The file a path names. */
  function FileAt(entries: seq<Entry>, path: Path): Option<Content>
    decreases |path|, |entries|
  {
    if path == [] || entries == [] then None
    else if entries[0].name != path[0] then FileAt(entries[1..], path)
    else
      match entries[0].node
      case File(c) => if |path| == 1 then Some(c) else None
      case Dir(inside) => FileAt(inside, path[1..])
      case Other => None
  }

  /** No directory lists a name twice, and no name climbs. */
  ghost predicate Listed(entries: seq<Entry>) {
    && (forall i, j | 0 <= i < j < |entries| :: entries[i].name != entries[j].name)
    && (forall e <- entries :: e.name != ".." && (e.node.Dir? ==> Listed(e.node.entries)))
  }

  // ----- the archive -----

  /** One entry of an archive. Its path is relative, or begins at the root. */
  datatype Item = Item(path: Path, isFile: bool, content: Content) | Rooted(path: Path, isFile: bool, content: Content)

  /** What one entry of a directory adds to an archive. */
  function Added(e: Entry, prefix: Path): seq<Item>
    decreases e
  {
    if Skipped(e.name, prefix == []) then []
    else
      match e.node
      case Dir(inside) => Archived(inside, prefix + [e.name])
      case File(c) => [Item(prefix + [e.name], true, c)]
      case Other => []
  }

  function Archived(entries: seq<Entry>, prefix: Path): seq<Item>
    decreases entries
  {
    if entries == [] then [] else Added(entries[0], prefix) + Archived(entries[1..], prefix)
  }

  method AppendDir(archive: seq<Item>, entries: seq<Entry>, prefix: Path) returns (out: seq<Item>)
    ensures out == archive + Archived(entries, prefix)
    decreases entries
  {
    out := archive;
    for i := 0 to |entries|
      invariant out + Archived(entries[i..], prefix) == archive + Archived(entries, prefix)
    {
      var e := entries[i];
      ghost var was := out;
      assert entries[i..][0] == e && entries[i..][1..] == entries[i + 1..];
      if !Skipped(e.name, prefix == []) {
        match e.node {
          case Dir(inside) =>
            out := AppendDir(out, inside, prefix + [e.name]);
          case File(c) =>
            out := out + [Item(prefix + [e.name], true, c)];
          case Other =>
        }
      }
      assert out == was + Added(e, prefix);
      assert was + (Added(e, prefix) + Archived(entries[i + 1..], prefix)) == out + Archived(entries[i + 1..], prefix);
    }
  }

  lemma {:induction false} NotListed(entries: seq<Entry>, path: Path)
    requires path != [] && forall e <- entries :: e.name != path[0]
    ensures FileAt(entries, path) == None
    decreases |entries|
  {
    if entries != [] {
      NotListed(entries[1..], path);
    }
  }

  /** One step down a path. */
  lemma Deeper(prefix: Path, name: string, path: Path)
    ensures prefix + [name] < path <==> prefix < path && path[|prefix|] == name && |path| > |prefix| + 1
    ensures prefix + [name] < path ==> path[|prefix|..][1..] == path[|prefix + [name]|..]
    ensures path == prefix + [name] <==> prefix < path && path[|prefix|] == name && |path| == |prefix| + 1
  {
    if prefix < path && path[|prefix|] == name {
      assert path[..|prefix|] == prefix;
      assert path[..|prefix| + 1] == prefix + [name];
    }
  }

  /** The archive of a listing has an item for a path exactly when the path names a file and travels. */
  lemma {:induction false} ArchivedMeans(entries: seq<Entry>, prefix: Path, path: Path, c: Content)
    requires Listed(entries)
    ensures Item(path, true, c) in Archived(entries, prefix) <==>
            prefix < path && FileAt(entries, path[|prefix|..]) == Some(c) && Travels(path[|prefix|..], prefix == [])
    decreases entries
  {
    if entries != [] {
      var rest := entries[1..];
      assert Listed(rest) by {
        assert forall x <- rest :: x in entries;
      }
      ArchivedMeans(rest, prefix, path, c);
      AddedMeans(entries[0], prefix, path, c, entries);
      if prefix < path && path[|prefix|] == entries[0].name {
        NotListed(rest, path[|prefix|..]);
      }
    }
  }

  /** What the first entry of a listing adds are the files whose path begins with its name. */
  lemma {:induction false} AddedMeans(e: Entry, prefix: Path, path: Path, c: Content, entries: seq<Entry>)
    requires entries != [] && e == entries[0] && Listed(entries)
    ensures Item(path, true, c) in Added(e, prefix) <==>
            && prefix < path && path[|prefix|] == e.name
            && FileAt(entries, path[|prefix|..]) == Some(c) && Travels(path[|prefix|..], prefix == [])
    decreases e
  {
    assert e in entries;
    Deeper(prefix, e.name, path);
    if e.node.Dir? && !Skipped(e.name, prefix == []) {
      ArchivedMeans(e.node.entries, prefix + [e.name], path, c);
    }
  }

  /** Everything archived is a file with a relative path, under the prefix it was archived with. */
  lemma {:induction false} ArchivedAreFiles(entries: seq<Entry>, prefix: Path)
    requires Listed(entries)
    ensures forall item <- Archived(entries, prefix) ::
              item.Item? && item.isFile && (".." !in prefix ==> ".." !in item.path)
    decreases entries
  {
    if entries != [] {
      var e, rest := entries[0], entries[1..];
      assert e in entries;
      assert Listed(rest) by {
        assert forall x <- rest :: x in entries;
      }
      ArchivedAreFiles(rest, prefix);
      if e.node.Dir? {
        ArchivedAreFiles(e.node.entries, prefix + [e.name]);
      }
    }
  }
}
