/**
 * Registering a remote server by URL: the scheme picks the transport, a
 * fresh id is numbered after the largest one already in the scope's index,
 * and a manifest with fixed defaults is written before the index entry is
 * added.
 */
module Connect {
  import opened Wrappers
  import opened JsonValues
  import opened Text
  import opened FileSystem
  import opened Models
  import opened PathResolution
  import Discovery
  import Install

  datatype ConnectError =
    | InvalidUrl
    | CreateDir
    | Serialize
    | WriteManifest
    | ParseIndex
    | IndexError(cause: Install.InstallError)

  /** `"websocket"` for a `ws://` or `wss://` URL, `"sse"` for anything else. */
  function TransportKind(url: string): (r: string)
    ensures r == "websocket" <==> StartsWith(url, "ws://") || StartsWith(url, "wss://")
    ensures r != "websocket" ==> r == "sse"
  {
    if StartsWith(url, "wss://") || StartsWith(url, "ws://") then "websocket" else "sse"
  }

  /** The transport object written into the manifest: the URL goes under `wsUrl` or `url`. */
  function TransportJson(url: string): Json {
    if TransportKind(url) == "websocket" then Object(map["type" := Str("websocket"), "wsUrl" := Str(url)])
    else Object(map["type" := Str("sse"), "url" := Str(url)])
  }

  /** The transport object decodes to the typed transport of the chosen kind, carrying the URL. */
  lemma TransportJsonDecodes(url: string)
    ensures TransportKind(url) == "websocket" ==> DecodeTransport(TransportJson(url)) == Some(WebSocket(url, None))
    ensures TransportKind(url) == "sse" ==> DecodeTransport(TransportJson(url)) == Some(Sse(url, None))
  {
  }

  // ----- the id generator -----

  const CONNECTED_PREFIX: string := "com.user.connected.server"

  function ConnectedId(n: nat): string {
    CONNECTED_PREFIX + Decimal(n)
  }

  /** `id.strip_prefix(CONNECTED_PREFIX).and_then(|s| s.parse::<u32>().ok())`. */
  function Suffix(id: string): Option<nat> {
    if StartsWith(id, CONNECTED_PREFIX) then ParseU32(id[|CONNECTED_PREFIX|..]) else None
  }

  /** The number a generated id carries is read back from it. */
  lemma SuffixOfConnectedId(n: nat)
    requires n < U32_LIMIT
    ensures Suffix(ConnectedId(n)) == Some(n)
  {
    var id := ConnectedId(n);
    assert id[..|CONNECTED_PREFIX|] == CONNECTED_PREFIX;
    assert id[|CONNECTED_PREFIX|..] == Decimal(n);
    ParseDecimal(n);
  }

  /** `n` is the largest suffix among `keys`, or 0 when none has one. */
  ghost predicate IsMaxSuffix(keys: set<string>, n: nat) {
    && (forall k :: k in keys && Suffix(k).Some? ==> Suffix(k).value <= n)
    && (n == 0 || exists k :: k in keys && Suffix(k) == Some(n))
  }

  /** The maximum is unique, so the generated id does not depend on the order the keys are visited in. */
  lemma MaxSuffixUnique(keys: set<string>, a: nat, b: nat)
    requires IsMaxSuffix(keys, a) && IsMaxSuffix(keys, b)
    ensures a == b
  {
    if a != 0 {
      var k :| k in keys && Suffix(k) == Some(a);
    }
    if b != 0 {
      var k :| k in keys && Suffix(k) == Some(b);
    }
  }

  /** The id after the maximum is not yet a key. */
  lemma NextIdIsFresh(keys: set<string>, n: nat)
    requires IsMaxSuffix(keys, n) && n + 1 < U32_LIMIT
    ensures ConnectedId(n + 1) !in keys
  {
    SuffixOfConnectedId(n + 1);
  }

  /** Removing an entry whose suffix is not the maximum leaves the next id unchanged. */
  lemma RemoveNonMaximal(keys: set<string>, n: nat, gone: string)
    requires IsMaxSuffix(keys, n)
    requires Suffix(gone) != Some(n)
    ensures IsMaxSuffix(keys - {gone}, n)
  {
    if n != 0 {
      var k :| k in keys && Suffix(k) == Some(n);
      assert k in keys - {gone};
    }
  }

  /** After the generated id is added, the next one is numbered one higher. */
  lemma NextIdIncreases(keys: set<string>, n: nat)
    requires IsMaxSuffix(keys, n) && n + 1 < U32_LIMIT
    ensures IsMaxSuffix(keys + {ConnectedId(n + 1)}, n + 1)
  {
    SuffixOfConnectedId(n + 1);
  }

  /** The index keys the id scan looks at: none when `servers` is missing or not an object. */
  function ServerKeys(index: Json): set<string> {
    if Get(index, "servers").Some? && index.fields["servers"].Object? then index.fields["servers"].fields.Keys else {}
  }

  /** The index the id scan reads: the default one when the file cannot be read, nothing when it does not parse. */
  function ScannedIndex(fs: FileSystem, p: Path): Option<Json> {
    if p !in fs.docs then Some(Install.DEFAULT_INDEX)
    else if fs.docs[p].Unparsable? then None
    else Some(fs.docs[p].value)
  }

  /** `max_n + 1` does not overflow: no key already carries the suffix `u32::MAX`. */
  predicate SuffixesBelowMax(fs: FileSystem, p: Path) {
    ScannedIndex(fs, p).Some? ==>
      forall k :: k in ServerKeys(ScannedIndex(fs, p).value) && Suffix(k).Some? ==> Suffix(k).value + 1 < U32_LIMIT
  }

  /** The loop of `next_connected_server_id`: the largest suffix, visiting the keys in the map's own order. */
  method MaxSuffix(keys: set<string>) returns (n: nat)
    ensures IsMaxSuffix(keys, n)
  {
    n := 0;
    var pending := keys;
    while pending != {}
      invariant pending <= keys
      invariant forall k :: k in keys - pending && Suffix(k).Some? ==> Suffix(k).value <= n
      invariant n == 0 || exists k :: k in keys && Suffix(k) == Some(n)
      decreases pending
    {
      var id :| id in pending;
      var suffix := Suffix(id);
      if suffix.Some? && suffix.value > n {
        n := suffix.value;
      }
      pending := pending - {id};
    }
  }

  /**
   * `next_connected_server_id`: `CONNECTED_PREFIX` followed by one more than
   * the largest suffix in the scope's index; an unparsable index is an error.
   */
  method NextConnectedServerId(fs: FileSystem, paths: Paths, scope: Discovery.Scope)
    returns (r: Result<string, ConnectError>, ghost max: nat)
    requires SuffixesBelowMax(fs, Install.IndexPathFor(paths, scope))
    ensures var index := ScannedIndex(fs, Install.IndexPathFor(paths, scope));
      && (index.None? ==> r == Err(ParseIndex))
      && (index.Some? ==> IsMaxSuffix(ServerKeys(index.value), max) && max + 1 < U32_LIMIT
                          && r == Ok(ConnectedId(max + 1)))
  {
    var indexPath := Install.IndexPathFor(paths, scope);
    var index: Json;
    if indexPath !in fs.docs {
      index := Install.DEFAULT_INDEX;
    } else if fs.docs[indexPath].Unparsable? {
      return Err(ParseIndex), 0;
    } else {
      index := fs.docs[indexPath].value;
    }
    var keys := if Get(index, "servers").Some? && index.fields["servers"].Object? then index.fields["servers"].fields.Keys else {};
    var n := MaxSuffix(keys);
    max := n;
    if n != 0 {
      var k :| k in keys && Suffix(k) == Some(n);
    }
    r := Ok(CONNECTED_PREFIX + Decimal(n + 1));
  }

  /** An index that cannot be read numbers the first connected server 1. */
  lemma FirstConnectedId(fs: FileSystem, p: Path)
    requires p !in fs.docs
    ensures ScannedIndex(fs, p).Some? && IsMaxSuffix(ServerKeys(ScannedIndex(fs, p).value), 0)
  {
  }

  // ----- the manifest -----

  /** `config` pairs in order, a later pair overwriting an earlier one with the same key. */
  function ConfigMap(pairs: seq<(string, string)>): (m: map<string, Json>)
    ensures forall k :: k in m <==> exists i :: 0 <= i < |pairs| && pairs[i].0 == k
  {
    if pairs == [] then map[]
    else
      var last := pairs[|pairs| - 1];
      var init := pairs[..|pairs| - 1];
      var m := ConfigMap(init);
      assert forall i :: 0 <= i < |init| ==> init[i] == pairs[i];
      m[last.0 := Str(last.1)]
  }

  /** Each key holds the string value of its last pair. */
  lemma {:induction false} ConfigMapLastWins(pairs: seq<(string, string)>, i: nat)
    requires i < |pairs|
    requires forall j :: i < j < |pairs| ==> pairs[j].0 != pairs[i].0
    ensures ConfigMap(pairs)[pairs[i].0] == Str(pairs[i].1)
  {
    if i < |pairs| - 1 {
      ConfigMapLastWins(pairs[..|pairs| - 1], i);
    }
  }

  /** The loop that fills `config_obj`. */
  method BuildConfig(pairs: seq<(string, string)>) returns (m: map<string, Json>)
    ensures m == ConfigMap(pairs)
  {
    m := map[];
    for i := 0 to |pairs|
      invariant m == ConfigMap(pairs[..i])
    {
      assert pairs[..i + 1][..i] == pairs[..i];
      m := m[pairs[i].0 := Str(pairs[i].1)];
    }
    assert pairs[..|pairs|] == pairs;
  }

  /** The manifest `connect` writes: the given metadata or the fixed defaults, one transport, the install directory and the config. */
  function ConnectedManifest(id: string, name: Option<string>, summary: Option<string>, version: Option<string>,
                             url: string, installDir: Path, config: map<string, Json>): Json {
    Object(map[
      "id" := Str(id),
      "name" := Str(name.GetOr(id)),
      "summary" := Str(summary.GetOr("Connected via dmcp connect")),
      "version" := Str(version.GetOr("1.0.0")),
      "transports" := Array([TransportJson(url)]),
      "installDir" := Str(installDir),
      "config" := Object(config)])
  }

  /** The typed transport `connect` registers for `url`. */
  function ConnectedTransport(url: string): (t: Transport)
    ensures TransportsOf([TransportJson(url)]) == Some([t])
  {
    TransportJsonDecodes(url);
    var t := if TransportKind(url) == "websocket" then WebSocket(url, None) else Sse(url, None);
    assert [TransportJson(url)][1..] == [];
    assert TransportsOf([TransportJson(url)][1..]) == Some([]);
    assert [t] + [] == [t];
    t
  }

  /** The manifest `connect` writes, as the typed record it should decode to. */
  function ConnectedRecord(id: string, name: Option<string>, summary: Option<string>, version: Option<string>,
                           url: string, installDir: Path, config: map<string, Json>): Manifest {
    Manifest(Some(id), Some(name.GetOr(id)), Some(summary.GetOr("Connected via dmcp connect")),
             Some(version.GetOr("1.0.0")), None, None, None, Some([ConnectedTransport(url)]), config,
             Some(installDir), [], [], [], [])
  }

  lemma ConnectedNamesDecode(id: string, name: Option<string>, summary: Option<string>, version: Option<string>,
                             url: string, installDir: Path, config: map<string, Json>)
    ensures var f, m := ConnectedManifest(id, name, summary, version, url, installDir, config).fields,
                        ConnectedRecord(id, name, summary, version, url, installDir, config);
      && OptionalString(f, "id") == Some(m.id) && OptionalString(f, "name") == Some(m.name)
      && OptionalString(f, "summary") == Some(m.summary) && OptionalString(f, "version") == Some(m.version)
  {
    var f := ConnectedManifest(id, name, summary, version, url, installDir, config).fields;
    var m := ConnectedRecord(id, name, summary, version, url, installDir, config);
    assert f["id"] == Str(id) && f["name"] == Str(name.GetOr(id));
    assert f["summary"] == Str(summary.GetOr("Connected via dmcp connect"));
    assert f["version"] == Str(version.GetOr("1.0.0"));
  }

  lemma ConnectedDetailsDecode(id: string, name: Option<string>, summary: Option<string>, version: Option<string>,
                               url: string, installDir: Path, config: map<string, Json>)
    ensures var f, m := ConnectedManifest(id, name, summary, version, url, installDir, config).fields,
                        ConnectedRecord(id, name, summary, version, url, installDir, config);
      && OptionalString(f, "description") == Some(m.description) && OptionalString(f, "author") == Some(m.author)
      && OptionalString(f, "homepage") == Some(m.homepage) && OptionalString(f, "installDir") == Some(m.installDir)
  {
    var f := ConnectedManifest(id, name, summary, version, url, installDir, config).fields;
    assert f["installDir"] == Str(installDir);
  }

  lemma ConnectedCollectionsDecode(id: string, name: Option<string>, summary: Option<string>, version: Option<string>,
                                   url: string, installDir: Path, config: map<string, Json>)
    ensures var f, m := ConnectedManifest(id, name, summary, version, url, installDir, config).fields,
                        ConnectedRecord(id, name, summary, version, url, installDir, config);
      && OptionalTransports(f, "transports") == Some(m.transports) && DefaultMap(f, "config") == Some(m.config)
      && DefaultStrings(f, "categories") == Some(m.categories)
      && DefaultStrings(f, "capabilities") == Some(m.capabilities)
      && DefaultStrings(f, "permissions") == Some(m.permissions)
      && DefaultValues(f, "tools") == Some(m.tools)
  {
    var f := ConnectedManifest(id, name, summary, version, url, installDir, config).fields;
    var m := ConnectedRecord(id, name, summary, version, url, installDir, config);
    assert OptionalTransports(f, "transports") == Some(m.transports);
    assert DefaultMap(f, "config") == Some(m.config);
  }

  /**
   * The written manifest decodes: id, name (the id by default), summary,
   * version ("1.0.0" by default), the single transport, the install directory
   * and the config; nothing else is set.
   */
  lemma ConnectedManifestDecodes(id: string, name: Option<string>, summary: Option<string>, version: Option<string>,
                                 url: string, installDir: Path, config: map<string, Json>)
    ensures DecodeManifest(ConnectedManifest(id, name, summary, version, url, installDir, config))
         == Some(ConnectedRecord(id, name, summary, version, url, installDir, config))
  {
    ConnectedNamesDecode(id, name, summary, version, url, installDir, config);
    ConnectedDetailsDecode(id, name, summary, version, url, installDir, config);
    ConnectedCollectionsDecode(id, name, summary, version, url, installDir, config);
    DecodeFromFields(ConnectedManifest(id, name, summary, version, url, installDir, config).fields,
                     ConnectedRecord(id, name, summary, version, url, installDir, config));
  }

  /** Listed by discovery, the connected server shows its id, its name, its version and the transport chosen from the URL. */
  lemma ConnectedServerListed(key: string, id: string, name: Option<string>, summary: Option<string>,
                              version: Option<string>, url: string, installDir: Path, config: map<string, Json>,
                              scope: Discovery.Scope)
    ensures var m := DecodeManifest(ConnectedManifest(id, name, summary, version, url, installDir, config));
      m.Some? && Discovery.InfoOf(key, m.value, scope)
        == Discovery.ServerInfo(id, name.GetOr(id), version.GetOr("1.0.0"), TransportKind(url), scope)
  {
    ConnectedManifestDecodes(id, name, summary, version, url, installDir, config);
  }

  // ----- connect -----

  /** What `connect` needs of the scope's index: neither the id scan nor the index edit may fail on it. */
  predicate ConnectSafe(fs: FileSystem, p: Path) {
    SuffixesBelowMax(fs, p) && Install.AddSafe(fs, p)
  }

  /**
   * The steps of `connect` once the id is known: create the directory,
   * write the manifest, then add the index entry; a failed index update is
   * reported as `IndexError` with the installer's error.
   */
  function RegisterOutcome(fs: FileSystem, host: Host, paths: Paths, id: string, manifest: Json,
                           scope: Discovery.Scope): (Result<string, ConnectError>, FileSystem)
    requires Install.AddSafe(fs, Install.IndexPathFor(paths, scope))
  {
    var dir := Join(Install.InstallDirOf(paths, scope), id);
    var manifestPath := Join(dir, "manifest.json");
    if dir in host.faulty then (Err(CreateDir), fs)
    else if manifestPath in host.faulty then (Err(WriteManifest), MakeDirs(fs, dir))
    else
      Install.ManifestIsNotIndex(dir, Install.InstallDirOf(paths, scope));
      var (added, after) := Install.AddOutcome(WriteDoc(MakeDirs(fs, dir), manifestPath, manifest),
                                               host, paths, scope, id, manifestPath);
      (if added.Ok? then Ok(id) else Err(IndexError(added.error)), after)
  }

  /**
   * A registration that fails before the index step writes no document;
   * one that succeeds leaves the manifest in the new directory and the
   * entry in the scope's index, next to the entries it held.
   */
  lemma RegisterFacts(fs: FileSystem, host: Host, paths: Paths, id: string, manifest: Json, scope: Discovery.Scope)
    requires Install.AddSafe(fs, Install.IndexPathFor(paths, scope))
    requires host.tempIndex != Install.IndexPathFor(paths, scope)
    requires host.tempIndex != Join(Join(Install.InstallDirOf(paths, scope), id), "manifest.json")
    ensures var (r, fs') := RegisterOutcome(fs, host, paths, id, manifest, scope);
      var base, dir := Install.InstallDirOf(paths, scope), Join(Install.InstallDirOf(paths, scope), id);
      var manifestPath := Join(dir, "manifest.json");
      && (r == Err(CreateDir) || r == Err(WriteManifest) ==> fs'.docs == fs.docs)
      && (r.Ok? ==> r.value == id && dir in fs'.dirs && manifestPath in fs'.docs && fs'.docs[manifestPath] == Parsed(manifest))
      && (r.Ok? && Discovery.ReadIndex(fs, base).Loaded? ==>
            Discovery.ReadIndex(fs', base)
              == Discovery.Loaded(Index(Discovery.ReadIndex(fs, base).index.servers[id := IndexEntry(manifestPath)])))
  {
    var base, dir := Install.InstallDirOf(paths, scope), Join(Install.InstallDirOf(paths, scope), id);
    var manifestPath := Join(dir, "manifest.json");
    if dir !in host.faulty && manifestPath !in host.faulty {
      var written := WriteDoc(MakeDirs(fs, dir), manifestPath, manifest);
      Install.ManifestIsNotIndex(dir, base);
      assert Discovery.ReadIndex(written, base) == Discovery.ReadIndex(fs, base);
      var p := Install.IndexPathFor(paths, scope);
      if !(p in written.docs && written.docs[p].Unparsable?) {
        var current := if p in written.docs then written.docs[p].value else Install.DEFAULT_INDEX;
        Install.CommitFacts(written, host, scope == Discovery.System, p,
                            Install.AddedIndex(current, id, manifestPath, host.now));
      }
      Install.AddVisible(written, host, paths, scope, id, manifestPath);
    }
  }

  /** The directory, manifest and index steps of `connect`. */
  method Register(fs: FileSystem, host: Host, paths: Paths, id: string, name: Option<string>,
                  summary: Option<string>, version: Option<string>, url: string, config: seq<(string, string)>,
                  scope: Discovery.Scope)
    returns (r: Result<string, ConnectError>, fs': FileSystem)
    requires Install.AddSafe(fs, Install.IndexPathFor(paths, scope))
    ensures (r, fs') == RegisterOutcome(fs, host, paths, id,
      ConnectedManifest(id, name, summary, version, url, Join(Install.InstallDirOf(paths, scope), id), ConfigMap(config)),
      scope)
  {
    var installDir := Join(Install.InstallDirOf(paths, scope), id);
    if installDir in host.faulty {
      return Err(CreateDir), fs;
    }
    fs' := MakeDirs(fs, installDir);
    var configObj := BuildConfig(config);
    var manifest := ConnectedManifest(id, name, summary, version, url, installDir, configObj);
    var manifestPath := Join(installDir, "manifest.json");
    if manifestPath in host.faulty {
      return Err(WriteManifest), fs';
    }
    fs' := WriteDoc(fs', manifestPath, manifest);
    Install.ManifestIsNotIndex(installDir, Install.InstallDirOf(paths, scope));
    var added;
    added, fs' := Install.UpdateIndexAdd(fs', host, paths, id, manifestPath, scope);
    if added.Err? {
      return Err(IndexError(added.error)), fs';
    }
    r := Ok(id);
  }

  /**
   * What `connect` does with a non-empty trimmed URL, given the largest
   * suffix `max` in the index: an index that does not parse stops it, and
   * otherwise the server is registered as `ConnectedId(max + 1)`.
   */
  function ConnectOutcome(fs: FileSystem, host: Host, paths: Paths, url: string, name: Option<string>,
                          summary: Option<string>, version: Option<string>, config: seq<(string, string)>,
                          scope: Discovery.Scope, max: nat): (Result<string, ConnectError>, FileSystem)
    requires ConnectSafe(fs, Install.IndexPathFor(paths, scope))
  {
    if ScannedIndex(fs, Install.IndexPathFor(paths, scope)).None? then (Err(ParseIndex), fs)
    else
      var id := ConnectedId(max + 1);
      var dir := Join(Install.InstallDirOf(paths, scope), id);
      RegisterOutcome(fs, host, paths, id, ConnectedManifest(id, name, summary, version, url, dir, ConfigMap(config)), scope)
  }

  /** `max` is the largest suffix in the scope's index, when that parses, and `ConnectedId(max + 1)` is not yet a key. */
  ghost predicate NumberedAfter(fs: FileSystem, paths: Paths, scope: Discovery.Scope, max: nat) {
    ScannedIndex(fs, Install.IndexPathFor(paths, scope)).Some? ==>
      && IsMaxSuffix(ServerKeys(ScannedIndex(fs, Install.IndexPathFor(paths, scope)).value), max)
      && ConnectedId(max + 1) !in ServerKeys(ScannedIndex(fs, Install.IndexPathFor(paths, scope)).value)
  }

  /**
   * `connect`: an empty trimmed URL fails before anything is read or
   * written; otherwise `max` is the largest suffix found in the scope's
   * index, the generated id is not yet a key, and the trimmed URL is
   * registered under it.
   */
  method Connect(fs: FileSystem, host: Host, paths: Paths, url: string, name: Option<string>,
                 summary: Option<string>, version: Option<string>, config: seq<(string, string)>,
                 scope: Discovery.Scope)
    returns (r: Result<string, ConnectError>, fs': FileSystem, ghost max: nat)
    requires ConnectSafe(fs, Install.IndexPathFor(paths, scope))
    ensures Trim(url) == [] ==> r == Err(InvalidUrl) && fs' == fs
    ensures Trim(url) != [] ==> (r, fs') == ConnectOutcome(fs, host, paths, Trim(url), name, summary, version, config, scope, max)
    ensures Trim(url) != [] ==> NumberedAfter(fs, paths, scope, max)
  {
    max := 0;
    var trimmed := Trim(url);
    if trimmed == [] {
      return Err(InvalidUrl), fs, max;
    }
    r, fs', max := ConnectUrl(fs, host, paths, trimmed, name, summary, version, config, scope);
  }

  /** `connect` once the URL is known not to be empty: number the server, then register it. */
  method ConnectUrl(fs: FileSystem, host: Host, paths: Paths, url: string, name: Option<string>,
                    summary: Option<string>, version: Option<string>, config: seq<(string, string)>,
                    scope: Discovery.Scope)
    returns (r: Result<string, ConnectError>, fs': FileSystem, ghost max: nat)
    requires ConnectSafe(fs, Install.IndexPathFor(paths, scope))
    ensures (r, fs') == ConnectOutcome(fs, host, paths, url, name, summary, version, config, scope, max)
    ensures NumberedAfter(fs, paths, scope, max)
  {
    var next;
    next, max := NextConnectedServerId(fs, paths, scope);
    if next.Err? {
      return Err(next.error), fs, max;
    }
    NextIdIsFresh(ServerKeys(ScannedIndex(fs, Install.IndexPathFor(paths, scope)).value), max);
    var id := next.value;
    r, fs' := Register(fs, host, paths, id, name, summary, version, url, config, scope);
  }
}
