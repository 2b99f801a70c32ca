/**
 * Installing and uninstalling servers: the read-modify-write of a scope's
 * index.json, the three ways of committing it (direct write, elevated
 * direct write, temporary file copied by `pkexec cp`), the install and
 * uninstall sequences, and the first-match search of the registries.
 */
module Install {
  import opened Wrappers
  import opened JsonValues
  import opened Text
  import opened FileSystem
  import opened Models
  import opened PathResolution
  import opened Network
  import Discovery
  import Sources

  datatype InstallError =
    | NoSources
    | ServerNotFound
    | InvalidRegistry
    | UnsupportedTransport
    | HttpClient
    | FetchFailed
    | CreateDir
    | GitFailed
    | CopyFailed
    | Serialize
    | WriteManifest
    | ParseIndex
    | WriteIndex

  datatype UninstallError =
    | ServerNotFound
    | RmFailed
    | ReadIndex
    | ParseIndex
    | SerializeIndex
    | WriteIndex

  function InstallDirOf(paths: Paths, scope: Discovery.Scope): Path {
    match scope
    case User => paths.userInstallDir
    case System => paths.systemInstallDir
  }

  function IndexPathFor(paths: Paths, scope: Discovery.Scope): Path {
    Discovery.IndexPath(InstallDirOf(paths, scope))
  }

  /** `scope_from_registry_server`: only the string "system" selects the system scope; absent means user. */
  function ScopeFromRegistryServer(server: Json): (r: Discovery.Scope)
    ensures r == Discovery.System <==> GetStr(server, "scope") == Some("system")
    ensures GetStr(server, "scope").None? ==> r == Discovery.User
  {
    if GetStr(server, "scope").GetOr("user") == "system" then Discovery.System else Discovery.User
  }

  // ----- committing a document -----

  /**
   * Where the new index text ends up and whether that worked: a user-scope
   * or elevated write goes straight to `target`; otherwise the text is
   * written to the temporary file and `pkexec cp` copies it. When `pkexec`
   * cannot be started the error returns before the temporary file is
   * removed, so it stays behind; once `pkexec` has exited it is removed.
   */
  function CommitOutcome(fs: FileSystem, host: Host, system: bool, target: Path, doc: Json): (bool, FileSystem) {
    if !system || host.elevated then
      if target in host.faulty then (false, fs) else (true, WriteDoc(fs, target, doc))
    else if host.tempIndex in host.faulty then (false, fs)
    else
      var staged := WriteDoc(fs, host.tempIndex, doc);
      match host.copyStatus
      case SpawnFailed => (false, staged)
      case Exited(success) =>
        (success, RemoveDoc(if success then WriteDoc(staged, target, doc) else staged, host.tempIndex))
  }

  /**
   * A commit either puts `doc` at `target` or leaves `target` as it was, and
   * touches no file but `target` and the temporary one.
   */
  lemma CommitFacts(fs: FileSystem, host: Host, system: bool, target: Path, doc: Json)
    requires host.tempIndex != target
    ensures var (ok, fs') := CommitOutcome(fs, host, system, target, doc);
      && (ok ==> target in fs'.docs && fs'.docs[target] == Parsed(doc))
      && (!ok ==> (target in fs'.docs <==> target in fs.docs) && (target in fs.docs ==> fs'.docs[target] == fs.docs[target]))
      && (forall p :: p != target && p != host.tempIndex ==>
            (p in fs'.docs <==> p in fs.docs) && (p in fs.docs ==> fs'.docs[p] == fs.docs[p]))
      && fs'.texts == fs.texts && fs'.dirs == fs.dirs
      && (system && !host.elevated && host.tempIndex !in host.faulty ==>
            (host.copyStatus.Exited? ==> host.tempIndex !in fs'.docs)
            && (host.copyStatus.SpawnFailed? ==> host.tempIndex in fs'.docs && fs'.docs[host.tempIndex] == Parsed(doc)))
      && ((!system || host.elevated) ==> fs'.docs - {target} == fs.docs - {target})
      && (ok <==> if !system || host.elevated then target !in host.faulty
                  else host.tempIndex !in host.faulty && host.copyStatus == Exited(true))
  {
  }

  /** The commit sequence shared by `update_index_add` and `update_index_remove`. */
  method Commit(fs: FileSystem, host: Host, system: bool, target: Path, doc: Json) returns (ok: bool, fs': FileSystem)
    ensures (ok, fs') == CommitOutcome(fs, host, system, target, doc)
  {
    fs' := fs;
    ok := true;
    if system && host.elevated {
      // already root: write directly
      if target in host.faulty {
        return false, fs';
      }
      fs' := WriteDoc(fs', target, doc);
    } else if system {
      if host.tempIndex in host.faulty {
        return false, fs';
      }
      fs' := WriteDoc(fs', host.tempIndex, doc);
      var status := host.copyStatus;
      if status.SpawnFailed? {
        return false, fs';
      }
      if status.success {
        fs' := WriteDoc(fs', target, doc);
      }
      fs' := RemoveDoc(fs', host.tempIndex);
      ok := status.success;
    } else {
      if target in host.faulty {
        return false, fs';
      }
      fs' := WriteDoc(fs', target, doc);
    }
  }

  // ----- the index edits -----

  /** What `update_index_add` starts from when the index cannot be read. */
  const DEFAULT_INDEX: Json := Object(map["servers" := Object(map[]), "version" := Str("1.0")])

  /** Documents on which the add edit does not panic: `index` and `index["servers"]` must be objects or null. */
  predicate AddEditable(v: Json) {
    Indexable(v) && (Get(v, "servers").None? || Indexable(Get(v, "servers").value))
  }

  function EntryJson(location: Path): Json {
    Object(map["location" := Str(location)])
  }

  /** The JSON edit of `update_index_add`. */
  function AddedIndex(v: Json, id: string, location: Path, now: string): Json
    requires AddEditable(v)
  {
    var v1 := if Get(v, "servers").None? then Set(v, "servers", Object(map[])) else v;
    var servers := v1.fields["servers"];
    Set(Set(v1, "servers", Set(servers, id, EntryJson(location))), "updated", Str(now))
  }

  /** `servers[id]` is the new entry, every other entry and every other top-level key is kept, and `updated` is refreshed. */
  lemma AddedIndexFacts(v: Json, id: string, location: Path, now: string)
    requires AddEditable(v)
    ensures var r := AddedIndex(v, id, location, now);
      && r.Object?
      && Get(r, "updated") == Some(Str(now))
      && (forall k :: k != "servers" && k != "updated" ==> Get(r, k) == Get(v, k))
      && Get(r, "servers").Some?
      && Get(r.fields["servers"], id) == Some(EntryJson(location))
      && (forall k :: k != id ==>
            Get(r.fields["servers"], k) == (if Get(v, "servers").Some? then Get(v.fields["servers"], k) else None))
  {
  }

  /** Decoded, the edit adds (or replaces) exactly one entry. */
  lemma AddedIndexDecodes(v: Json, id: string, location: Path, now: string)
    requires DecodeIndex(v).Some?
    ensures AddEditable(v)
    ensures DecodeIndex(AddedIndex(v, id, location, now))
         == Some(Index(DecodeIndex(v).value.servers[id := IndexEntry(location)]))
  {
    var r := AddedIndex(v, id, location, now);
    var s := v.fields["servers"].fields;
    var s' := s[id := EntryJson(location)];
    assert r.fields["servers"] == Object(s');
    assert DecodeEntry(EntryJson(location)) == Some(IndexEntry(location));
    assert forall k :: k in s' ==> DecodeEntry(s'[k]).Some?;
    var after := DecodeIndex(r).value.servers;
    var want := DecodeIndex(v).value.servers[id := IndexEntry(location)];
    assert after.Keys == want.Keys;
    forall k | k in after ensures after[k] == want[k] {
      if k != id {
        assert Some(after[k]) == DecodeEntry(s[k]);
      }
    }
    assert after == want;
  }

  /** Installing into a scope whose index cannot be read yields an index holding just the new entry. */
  lemma FreshIndexHoldsOneEntry(id: string, location: Path, now: string)
    ensures DecodeIndex(AddedIndex(DEFAULT_INDEX, id, location, now)) == Some(Index(map[id := IndexEntry(location)]))
  {
    assert DecodeIndex(DEFAULT_INDEX) == Some(Index(map[]));
    AddedIndexDecodes(DEFAULT_INDEX, id, location, now);
  }

  /** The JSON edit of `update_index_remove`: drop `servers[id]` when `servers` is an object, and refresh `updated`. */
  function RemovedIndex(v: Json, id: string, now: string): Json
    requires Indexable(v)
  {
    var v1 := if Get(v, "servers").Some? && v.fields["servers"].Object?
      then Set(v, "servers", Object(v.fields["servers"].fields - {id})) else v;
    Set(v1, "updated", Str(now))
  }

  /** Only key `id` leaves `servers`, whether or not it was there; everything else but `updated` is kept. */
  lemma RemovedIndexFacts(v: Json, id: string, now: string)
    requires Indexable(v)
    ensures var r := RemovedIndex(v, id, now);
      && r.Object?
      && Get(r, "updated") == Some(Str(now))
      && (forall k :: k != "servers" && k != "updated" ==> Get(r, k) == Get(v, k))
      && (Get(v, "servers").Some? && v.fields["servers"].Object? ==>
            && Get(r, "servers").Some?
            && Get(r.fields["servers"], id).None?
            && forall k :: k != id ==> Get(r.fields["servers"], k) == Get(v.fields["servers"], k))
      && (!(Get(v, "servers").Some? && v.fields["servers"].Object?) ==> Get(r, "servers") == Get(v, "servers"))
  {
  }

  /** Decoded, the edit removes exactly one entry, if it was present. */
  lemma RemovedIndexDecodes(v: Json, id: string, now: string)
    requires DecodeIndex(v).Some?
    ensures Indexable(v)
    ensures DecodeIndex(RemovedIndex(v, id, now)) == Some(Index(DecodeIndex(v).value.servers - {id}))
  {
    var r := RemovedIndex(v, id, now);
    var s := v.fields["servers"].fields;
    assert r.fields["servers"] == Object(s - {id});
    assert forall k :: k in s - {id} ==> DecodeEntry((s - {id})[k]).Some?;
    var after := DecodeIndex(r).value.servers;
    var want := DecodeIndex(v).value.servers - {id};
    assert after.Keys == want.Keys;
    forall k | k in after ensures after[k] == want[k] {
      assert Some(after[k]) == DecodeEntry(s[k]);
    }
    assert after == want;
  }

  /** Removing the same id twice with the same timestamp is the same as removing it once. */
  lemma RemoveIdempotent(v: Json, id: string, now: string)
    requires Indexable(v)
    ensures Indexable(RemovedIndex(v, id, now))
    ensures RemovedIndex(RemovedIndex(v, id, now), id, now) == RemovedIndex(v, id, now)
  {
    var r := RemovedIndex(v, id, now);
    if Get(v, "servers").Some? && v.fields["servers"].Object? {
      assert r.fields["servers"].fields - {id} == r.fields["servers"].fields;
      assert r.fields["updated"] == Str(now);
      assert r.fields[ "servers" := r.fields["servers"]]["updated" := Str(now)] == r.fields;
    } else {
      assert r.fields["updated" := Str(now)] == r.fields;
    }
  }

  /** Adding an entry for a new id and then removing it gives back the decoded index it started from. */
  lemma AddThenRemove(v: Json, id: string, location: Path, t1: string, t2: string)
    requires DecodeIndex(v).Some? && id !in DecodeIndex(v).value.servers
    ensures AddEditable(v)
    ensures Indexable(AddedIndex(v, id, location, t1))
    ensures DecodeIndex(RemovedIndex(AddedIndex(v, id, location, t1), id, t2)) == DecodeIndex(v)
  {
    var before := DecodeIndex(v).value.servers;
    AddedIndexDecodes(v, id, location, t1);
    var added := AddedIndex(v, id, location, t1);
    assert DecodeIndex(added) == Some(Index(before[id := IndexEntry(location)]));
    RemovedIndexDecodes(added, id, t2);
    UpdateThenRemove(before, id, IndexEntry(location));
  }

  /** Updating a key absent from a map and then removing it gives back the map. */
  lemma UpdateThenRemove<K, V>(m: map<K, V>, k: K, x: V)
    requires k !in m
    ensures m[k := x] - {k} == m
  {
    assert (m[k := x] - {k}).Keys == m.Keys;
  }

  // ----- update_index_add and update_index_remove -----

  /** The add edit cannot panic on the index at `p`. */
  predicate AddSafe(fs: FileSystem, p: Path) {
    p in fs.docs && fs.docs[p].Parsed? ==> AddEditable(fs.docs[p].value)
  }

  /** The remove edit cannot panic on the index at `p`. */
  predicate RemoveSafe(fs: FileSystem, p: Path) {
    p in fs.docs && fs.docs[p].Parsed? ==> Indexable(fs.docs[p].value)
  }

  function AddOutcome(fs: FileSystem, host: Host, paths: Paths, scope: Discovery.Scope, id: string, location: Path)
    : (Result<(), InstallError>, FileSystem)
    requires AddSafe(fs, IndexPathFor(paths, scope))
  {
    var p := IndexPathFor(paths, scope);
    if p in fs.docs && fs.docs[p].Unparsable? then (Err(InstallError.ParseIndex), fs)
    else
      var current := if p in fs.docs then fs.docs[p].value else DEFAULT_INDEX;
      var c := CommitOutcome(fs, host, scope == Discovery.System, p, AddedIndex(current, id, location, host.now));
      (if c.0 then Ok(()) else Err(InstallError.WriteIndex), c.1)
  }

  /**
   * After a successful add, the scope's index as discovery reads it holds
   * the new entry and every entry it held before; a failed add leaves the
   * index file as it was.
   */
  lemma AddVisible(fs: FileSystem, host: Host, paths: Paths, scope: Discovery.Scope, id: string, location: Path)
    requires AddSafe(fs, IndexPathFor(paths, scope))
    requires host.tempIndex != IndexPathFor(paths, scope)
    ensures var (r, fs') := AddOutcome(fs, host, paths, scope, id, location);
      var p, base := IndexPathFor(paths, scope), InstallDirOf(paths, scope);
      && (r.Err? ==> (p in fs'.docs <==> p in fs.docs) && (p in fs.docs ==> fs'.docs[p] == fs.docs[p]))
      && (r.Ok? && p !in fs.docs ==>
            Discovery.ReadIndex(fs', base) == Discovery.Loaded(Index(map[id := IndexEntry(location)])))
      && (r.Ok? && Discovery.ReadIndex(fs, base).Loaded? ==>
            Discovery.ReadIndex(fs', base)
              == Discovery.Loaded(Index(Discovery.ReadIndex(fs, base).index.servers[id := IndexEntry(location)])))
  {
    var p := IndexPathFor(paths, scope);
    if !(p in fs.docs && fs.docs[p].Unparsable?) {
      var current := if p in fs.docs then fs.docs[p].value else DEFAULT_INDEX;
      CommitFacts(fs, host, scope == Discovery.System, p, AddedIndex(current, id, location, host.now));
      if p !in fs.docs {
        FreshIndexHoldsOneEntry(id, location, host.now);
      } else if DecodeIndex(current).Some? {
        AddedIndexDecodes(current, id, location, host.now);
      }
    }
  }

  /**
   * `update_index_add`: read the scope's index (a default one when it cannot
   * be read), set `servers[id]` and `updated`, and commit it.
   */
  method UpdateIndexAdd(fs: FileSystem, host: Host, paths: Paths, id: string, manifestPath: Path, scope: Discovery.Scope)
    returns (r: Result<(), InstallError>, fs': FileSystem)
    requires AddSafe(fs, IndexPathFor(paths, scope))
    ensures (r, fs') == AddOutcome(fs, host, paths, scope, id, manifestPath)
  {
    var indexPath := IndexPathFor(paths, scope);
    var index: Json;
    if indexPath !in fs.docs {
      index := DEFAULT_INDEX;
    } else if fs.docs[indexPath].Unparsable? {
      return Err(InstallError.ParseIndex), fs;
    } else {
      index := fs.docs[indexPath].value;
    }
    ghost var current := index;
    if Get(index, "servers").None? {
      index := Set(index, "servers", Object(map[]));
    }
    index := Set(index, "servers", Set(index.fields["servers"], id, EntryJson(manifestPath)));
    index := Set(index, "updated", Str(host.now));
    assert index == AddedIndex(current, id, manifestPath, host.now);
    var ok;
    ok, fs' := Commit(fs, host, scope == Discovery.System, indexPath, index);
    r := if ok then Ok(()) else Err(InstallError.WriteIndex);
  }

  function RemoveOutcome(fs: FileSystem, host: Host, indexPath: Path, id: string, scope: Discovery.Scope)
    : (Result<(), UninstallError>, FileSystem)
    requires RemoveSafe(fs, indexPath)
  {
    if indexPath !in fs.docs then (Err(UninstallError.ReadIndex), fs)
    else if fs.docs[indexPath].Unparsable? then (Err(UninstallError.ParseIndex), fs)
    else
      var c := CommitOutcome(fs, host, scope == Discovery.System, indexPath,
                             RemovedIndex(fs.docs[indexPath].value, id, host.now));
      (if c.0 then Ok(()) else Err(UninstallError.WriteIndex), c.1)
  }

  /** After a successful remove the index no longer lists `id` and still lists every other entry. */
  lemma RemoveVisible(fs: FileSystem, host: Host, base: Path, id: string, scope: Discovery.Scope)
    requires RemoveSafe(fs, Discovery.IndexPath(base))
    requires host.tempIndex != Discovery.IndexPath(base)
    ensures var (r, fs') := RemoveOutcome(fs, host, Discovery.IndexPath(base), id, scope);
      var p := Discovery.IndexPath(base);
      && (p !in fs.docs ==> r == Err(UninstallError.ReadIndex) && fs' == fs)
      && (r.Err? ==> (p in fs'.docs <==> p in fs.docs) && (p in fs.docs ==> fs'.docs[p] == fs.docs[p]))
      && (r.Ok? && Discovery.ReadIndex(fs, base).Loaded? ==>
            Discovery.ReadIndex(fs', base) == Discovery.Loaded(Index(Discovery.ReadIndex(fs, base).index.servers - {id})))
  {
    var p := Discovery.IndexPath(base);
    if p in fs.docs && fs.docs[p].Parsed? {
      var v := fs.docs[p].value;
      CommitFacts(fs, host, scope == Discovery.System, p, RemovedIndex(v, id, host.now));
      if DecodeIndex(v).Some? {
        RemovedIndexDecodes(v, id, host.now);
      }
    }
  }

  /** `update_index_remove`: unlike the add, an unreadable index is an error. */
  method UpdateIndexRemove(fs: FileSystem, host: Host, indexPath: Path, id: string, scope: Discovery.Scope)
    returns (r: Result<(), UninstallError>, fs': FileSystem)
    requires RemoveSafe(fs, indexPath)
    ensures (r, fs') == RemoveOutcome(fs, host, indexPath, id, scope)
  {
    if indexPath !in fs.docs {
      return Err(UninstallError.ReadIndex), fs;
    }
    if fs.docs[indexPath].Unparsable? {
      return Err(UninstallError.ParseIndex), fs;
    }
    var index := fs.docs[indexPath].value;
    ghost var current := index;
    if Get(index, "servers").Some? && index.fields["servers"].Object? {
      index := Set(index, "servers", Object(index.fields["servers"].fields - {id}));
    }
    index := Set(index, "updated", Str(host.now));
    assert index == RemovedIndex(current, id, host.now);
    var ok;
    ok, fs' := Commit(fs, host, scope == Discovery.System, indexPath, index);
    r := if ok then Ok(()) else Err(UninstallError.WriteIndex);
  }

  // ----- uninstall -----

  /** What the (separately defined) lookup of an installed server answers: manifest path, install directory, scope. */
  datatype InstalledAt = InstalledAt(manifestPath: Path, installDir: Path, scope: Discovery.Scope)

  /** Whether removing the install directory fails: a direct removal on a failing path, or `pkexec rm -rf` not succeeding. */
  predicate RemovalFails(host: Host, at: InstalledAt) {
    if at.scope == Discovery.System && !host.elevated then host.removeStatus != Exited(true)
    else at.installDir in host.faulty
  }

  /** The index an uninstall edits: chosen by where the manifest lies, not by the scope. */
  function UninstallIndexPath(paths: Paths, at: InstalledAt): Path {
    if PathStartsWith(at.manifestPath, paths.userInstallDir) then Discovery.IndexPath(paths.userInstallDir)
    else Discovery.IndexPath(paths.systemInstallDir)
  }

  /**
   * The choice follows `Path::starts_with`, not the directory on disk: with
   * the user install directory written as `./inst`, a manifest path written
   * as `inst/...` sends the edit to the system index.
   */
  lemma UninstallIndexCurDir(paths: Paths, at: InstalledAt)
    requires StartsWith(paths.userInstallDir, "./")
    requires !StartsWith(at.manifestPath, "/") && at.manifestPath != "." && !StartsWith(at.manifestPath, "./")
    ensures UninstallIndexPath(paths, at) == Discovery.IndexPath(paths.systemInstallDir)
  {
    CurDirTakesPart(at.manifestPath, paths.userInstallDir);
  }

  /**
   * `uninstall`: an unknown id fails before anything is removed; the
   * directory is removed before the index is touched, and when the removal
   * fails nothing has changed. The index file follows the manifest path,
   * while the way it is written follows the scope.
   */
  method Uninstall(fs: FileSystem, host: Host, paths: Paths, id: string, lookup: Option<InstalledAt>)
    returns (r: Result<(), UninstallError>, fs': FileSystem)
    requires lookup.Some? ==> RemoveSafe(fs, UninstallIndexPath(paths, lookup.value))
    ensures lookup.None? ==> r == Err(UninstallError.ServerNotFound) && fs' == fs
    ensures lookup.Some? && RemovalFails(host, lookup.value) ==> r == Err(UninstallError.RmFailed) && fs' == fs
    ensures lookup.Some? && !RemovalFails(host, lookup.value) ==>
      var at := lookup.value;
      var removed := RemoveTree(fs, at.installDir);
      RemoveSafe(removed, UninstallIndexPath(paths, at))
      && (r, fs') == RemoveOutcome(removed, host, UninstallIndexPath(paths, at), id, at.scope)
  {
    if lookup.None? {
      return Err(UninstallError.ServerNotFound), fs;
    }
    var at := lookup.value;
    fs' := fs;
    if at.scope == Discovery.System && host.elevated {
      if at.installDir in host.faulty {
        return Err(UninstallError.RmFailed), fs;
      }
      fs' := RemoveTree(fs', at.installDir);
    } else if at.scope == Discovery.System {
      var status := host.removeStatus;
      if status.SpawnFailed? || !status.success {
        return Err(UninstallError.RmFailed), fs;
      }
      fs' := RemoveTree(fs', at.installDir);
    } else {
      if at.installDir in host.faulty {
        return Err(UninstallError.RmFailed), fs;
      }
      fs' := RemoveTree(fs', at.installDir);
    }
    r, fs' := UpdateIndexRemove(fs', host, UninstallIndexPath(paths, at), id, at.scope);
  }

  // ----- fetching a server from the registries -----

  /** The first element of `servers` whose `id` is the string `id`. */
  function FirstWithId(servers: seq<Json>, id: string): (r: Option<Json>)
    ensures r.Some? ==> r.value in servers && GetStr(r.value, "id") == Some(id)
    ensures r.None? <==> forall j :: 0 <= j < |servers| ==> GetStr(servers[j], "id") != Some(id)
  {
    if servers == [] then None
    else if GetStr(servers[0], "id") == Some(id) then Some(servers[0])
    else
      var r := FirstWithId(servers[1..], id);
      assert forall j :: 1 <= j < |servers| ==> servers[j] == servers[1..][j - 1];
      r
  }

  /** The entry returned is the earliest match. */
  lemma {:induction false} FirstWithIdAt(servers: seq<Json>, id: string, i: nat)
    requires i < |servers| && GetStr(servers[i], "id") == Some(id)
    requires forall j :: 0 <= j < i ==> GetStr(servers[j], "id") != Some(id)
    ensures FirstWithId(servers, id) == Some(servers[i])
  {
    if i > 0 {
      FirstWithIdAt(servers[1..], id, i - 1);
    }
  }

  /**
   * One source of `fetch_server_from_registry`: a failed request or a body
   * that is not JSON stops the search with `FetchFailed`, a non-2xx reply is
   * passed over (`None`), a registry without a `servers` array stops it with
   * `InvalidRegistry`, and a registry with a matching entry ends it.
   */
  function Query(web: Web, url: string, id: string): (r: Option<Result<Json, InstallError>>)
    ensures r.Some? && r.value.Ok? ==> GetStr(r.value.value, "id") == Some(id)
  {
    match web.fetch(url)
    case SendFailed => Some(Err(InstallError.FetchFailed))
    case Reply(status, body) =>
      if !IsSuccess(status) then None
      else if body.None? then Some(Err(InstallError.FetchFailed))
      else match GetArray(body.value, "servers")
        case None => Some(Err(InstallError.InvalidRegistry))
        case Some(servers) =>
          match FirstWithId(servers, id)
          case Some(s) => Some(Ok(s))
          case None => None
  }

  /** The two errors that end the search, each exactly on the replies install.rs gives it for. */
  lemma QueryErrors(web: Web, url: string, id: string)
    ensures Query(web, url, id) == Some(Err(InstallError.FetchFailed)) <==>
      web.fetch(url).SendFailed? || (IsSuccess(web.fetch(url).status) && web.fetch(url).body.None?)
    ensures Query(web, url, id) == Some(Err(InstallError.InvalidRegistry)) <==>
      web.fetch(url).Reply? && IsSuccess(web.fetch(url).status) && web.fetch(url).body.Some?
      && GetArray(web.fetch(url).body.value, "servers").None?
  {
  }

  /** A source the search passes over: a non-2xx reply, or a registry whose servers do not include `id`. */
  predicate Skipped(web: Web, url: string, id: string) {
    match web.fetch(url)
    case SendFailed => false
    case Reply(status, body) =>
      !IsSuccess(status)
      || (body.Some? && GetArray(body.value, "servers").Some? && FirstWithId(GetArray(body.value, "servers").value, id).None?)
  }

  lemma SkippedIsNoAnswer(web: Web, url: string, id: string)
    ensures Skipped(web, url, id) <==> Query(web, url, id).None?
  {
  }

  /** The search over the source URLs in order: the first source that answers decides. */
  function Scan(web: Web, urls: seq<string>, id: string): (r: Result<Json, InstallError>)
    ensures r.Ok? ==> GetStr(r.value, "id") == Some(id)
  {
    if urls == [] then Err(InstallError.ServerNotFound)
    else match Query(web, urls[0], id)
      case Some(answer) => answer
      case None => Scan(web, urls[1..], id)
  }

  /** Sources passed over do not influence the result: the search goes on from the first one not skipped. */
  lemma {:induction false} ScanSkips(web: Web, urls: seq<string>, id: string, i: nat)
    requires i <= |urls|
    requires forall j :: 0 <= j < i ==> Skipped(web, urls[j], id)
    ensures Scan(web, urls, id) == Scan(web, urls[i..], id)
  {
    if i > 0 {
      SkippedIsNoAnswer(web, urls[0], id);
      ScanSkips(web, urls[1..], id, i - 1);
      assert urls[1..][i - 1..] == urls[i..];
    }
  }

  /** `ServerNotFound` is reported exactly when every source is passed over. */
  lemma {:induction false} ScanNotFound(web: Web, urls: seq<string>, id: string)
    ensures Scan(web, urls, id) == Err(InstallError.ServerNotFound) <==> forall j :: 0 <= j < |urls| ==> Skipped(web, urls[j], id)
  {
    if urls != [] {
      SkippedIsNoAnswer(web, urls[0], id);
      ScanNotFound(web, urls[1..], id);
      assert forall j :: 1 <= j < |urls| ==> urls[j] == urls[1..][j - 1];
    }
  }

  /** The result of `fetch_server_from_registry` over the deduplicated sources of both scopes. */
  function Fetch(fs: FileSystem, paths: Paths, web: Web, id: string): Result<Json, InstallError> {
    var sources := Sources.Merge(Sources.Included(fs, true, paths.userSources), Sources.Included(fs, true, paths.systemSources));
    if sources == [] then Err(InstallError.NoSources)
    else if !web.clientBuilds then Err(InstallError.HttpClient)
    else Scan(web, Sources.UrlsOf(sources), id)
  }

  /** The inner loop: the first entry of one registry whose `id` matches. */
  method FindServer(servers: seq<Json>, id: string) returns (r: Option<Json>)
    ensures r == FirstWithId(servers, id)
  {
    for i := 0 to |servers|
      invariant FirstWithId(servers, id) == FirstWithId(servers[i..], id)
    {
      assert servers[i..] == [servers[i]] + servers[i + 1..];
      if GetStr(servers[i], "id") == Some(id) {
        return Some(servers[i]);
      }
    }
    return None;
  }

  /** The body of the loop over sources. */
  method QuerySource(web: Web, url: string, id: string) returns (r: Option<Result<Json, InstallError>>)
    ensures r == Query(web, url, id)
  {
    var resp := web.fetch(url);
    if resp.SendFailed? {
      return Some(Err(InstallError.FetchFailed));
    }
    if !IsSuccess(resp.status) {
      return None;
    }
    if resp.body.None? {
      return Some(Err(InstallError.FetchFailed));
    }
    var servers := GetArray(resp.body.value, "servers");
    if servers.None? {
      return Some(Err(InstallError.InvalidRegistry));
    }
    var found := FindServer(servers.value, id);
    if found.Some? {
      return Some(Ok(found.value));
    }
    return None;
  }

  method FetchServerFromRegistry(fs: FileSystem, paths: Paths, web: Web, id: string)
    returns (r: Result<Json, InstallError>)
    ensures r == Fetch(fs, paths, web, id)
  {
    var sources := Sources.ListSources(fs, paths, true, true);
    if |sources| == 0 {
      return Err(InstallError.NoSources);
    }
    if !web.clientBuilds {
      return Err(InstallError.HttpClient);
    }
    r := ScanSources(web, Sources.UrlsOf(sources), id);
  }

  /** The loop of `fetch_server_from_registry` over the source URLs, in order. */
  method ScanSources(web: Web, urls: seq<string>, id: string) returns (r: Result<Json, InstallError>)
    ensures r == Scan(web, urls, id)
  {
    for i := 0 to |urls|
      invariant Scan(web, urls, id) == Scan(web, urls[i..], id)
    {
      assert urls[i..] == [urls[i]] + urls[i + 1..];
      var answer := QuerySource(web, urls[i], id);
      if answer.Some? {
        return answer.value;
      }
    }
    return Err(InstallError.ServerNotFound);
  }

  // ----- install -----

  /** What `install_stdio` reports after the registry entry's `source` has been checked: the git clone and copy, as an oracle. */
  datatype Staging = Staged | TempDirFailed | CloneFailed | SubpathMissing | CopyDenied

  /** `install_stdio`: `source` must be an object with a string `url`; the rest is the oracle's answer. */
  function StageStdio(server: Json, staging: Staging): (r: Option<InstallError>)
    ensures !(Get(server, "source").Some? && Get(server, "source").value.Object? && GetStr(Get(server, "source").value, "url").Some?)
            ==> r == Some(InstallError.InvalidRegistry)
    ensures Get(server, "source").Some? && GetStr(server.fields["source"], "url").Some? ==>
      match staging
      case Staged => r.None?
      case TempDirFailed => r == Some(InstallError.CreateDir)
      case CloneFailed => r == Some(InstallError.GitFailed)
      case SubpathMissing => r == Some(InstallError.InvalidRegistry)
      case CopyDenied => r == Some(InstallError.CopyFailed)
    ensures r.None? <==> Get(server, "source").Some? && GetStr(server.fields["source"], "url").Some? && staging == Staged
  {
    var source := Get(server, "source");
    if source.None? || !source.value.Object? || GetStr(source.value, "url").None? then Some(InstallError.InvalidRegistry)
    else match staging
      case Staged => None
      case TempDirFailed => Some(InstallError.CreateDir)
      case CloneFailed => Some(InstallError.GitFailed)
      case SubpathMissing => Some(InstallError.InvalidRegistry)
      case CopyDenied => Some(InstallError.CopyFailed)
  }

  /** The type of the first transport (`""` when it has none), or nothing when `transports` is absent, not an array or empty. */
  function FirstTransportType(server: Json): Option<string> {
    match GetArray(server, "transports")
    case Some(ts) => if ts == [] then None else Some(GetStr(ts[0], "type").GetOr(""))
    case None => None
  }

  /** The manifest written for a registry entry: `installDir` set, `config` added as `{}` only when absent. */
  function InstalledManifest(server: Json, installDir: Path): (m: Json)
    requires server.Object?
    ensures m.Object?
    ensures Get(m, "installDir") == Some(Str(installDir))
    ensures Get(server, "config").Some? ==> Get(m, "config") == Get(server, "config")
    ensures Get(server, "config").None? ==> Get(m, "config") == Some(Object(map[]))
    ensures forall k :: k != "installDir" && k != "config" ==> Get(m, k) == Get(server, k)
  {
    var m := Set(server, "installDir", Str(installDir));
    if Get(m, "config").None? then Set(m, "config", Object(map[])) else m
  }

  /** The installed manifest decodes with the install directory and, absent before, an empty config. */
  lemma InstalledManifestDecodes(server: Json, installDir: Path)
    requires server.Object?
    requires DecodeManifest(InstalledManifest(server, installDir)).Some?
    ensures var m := DecodeManifest(InstalledManifest(server, installDir)).value;
      m.installDir == Some(installDir) && (Get(server, "config").None? ==> m.config == map[])
  {
  }

  function Fetched(fs: FileSystem, paths: Paths, web: Web, id: string, serverOverride: Option<Json>): Result<Json, InstallError> {
    if serverOverride.Some? then Ok(serverOverride.value) else Fetch(fs, paths, web, id)
  }

  lemma ManifestIsNotIndex(dir: Path, base: Path)
    ensures Join(dir, "manifest.json") != Discovery.IndexPath(base)
  {
    var a, b := Join(dir, "manifest.json"), Join(base, "index.json");
    JoinEndsWith(dir, "manifest.json");
    JoinEndsWith(base, "index.json");
    assert a[|a| - 10..] == "manifest.json"[3..];
    assert b[|b| - 10..] == "index.json";
    assert a[|a| - 10..][1] != b[|b| - 10..][1];
  }

  /**
   * The outcome of installing registry entry `server`: the install directory
   * is created first; a missing, non-array or empty `transports` or an
   * unsupported first type fails after that, as does stdio staging; the
   * manifest is written next, and only then is the index entry added.
   */
  function InstallOutcome(fs: FileSystem, host: Host, staging: Staging, paths: Paths, id: string,
                          scope: Discovery.Scope, server: Json): (Result<(), InstallError>, FileSystem)
    requires AddSafe(fs, IndexPathFor(paths, scope))
  {
    var dir := Join(InstallDirOf(paths, scope), id);
    if dir in host.faulty then (Err(InstallError.CreateDir), fs)
    else
      var created := MakeDirs(fs, dir);
      var kind := FirstTransportType(server);
      if kind.None? then (Err(InstallError.InvalidRegistry), created)
      else if kind.value !in {"stdio", "sse", "websocket"} then (Err(InstallError.UnsupportedTransport), created)
      else if kind.value == "stdio" && StageStdio(server, staging).Some? then (Err(StageStdio(server, staging).value), created)
      else RecordOutcome(created, host, paths, id, scope, server)
  }

  /** The last two steps of an install: write the manifest into the install directory, then add the index entry. */
  function RecordOutcome(fs: FileSystem, host: Host, paths: Paths, id: string, scope: Discovery.Scope, server: Json)
    : (Result<(), InstallError>, FileSystem)
    requires AddSafe(fs, IndexPathFor(paths, scope))
    requires server.Object?
  {
    var dir := Join(InstallDirOf(paths, scope), id);
    var manifestPath := Join(dir, "manifest.json");
    if manifestPath in host.faulty then (Err(InstallError.WriteManifest), fs)
    else
      ManifestIsNotIndex(dir, InstallDirOf(paths, scope));
      AddOutcome(WriteDoc(fs, manifestPath, InstalledManifest(server, dir)), host, paths, scope, id, manifestPath)
  }

  /**
   * After the manifest step succeeds the manifest is in place and discovery
   * reads the scope's index with the new entry added to what it held.
   */
  lemma RecordFacts(fs: FileSystem, host: Host, paths: Paths, id: string, scope: Discovery.Scope, server: Json)
    requires AddSafe(fs, IndexPathFor(paths, scope))
    requires server.Object?
    requires host.tempIndex != IndexPathFor(paths, scope)
    requires host.tempIndex != Join(Join(InstallDirOf(paths, scope), id), "manifest.json")
    ensures var (r, fs') := RecordOutcome(fs, host, paths, id, scope, server);
      var base, dir := InstallDirOf(paths, scope), Join(InstallDirOf(paths, scope), id);
      var manifestPath := Join(dir, "manifest.json");
      && (r == Err(InstallError.WriteManifest) ==> fs' == fs)
      && fs'.dirs == fs.dirs
      && (r.Ok? ==> manifestPath in fs'.docs && fs'.docs[manifestPath] == Parsed(InstalledManifest(server, dir)))
      && (r.Ok? && Discovery.ReadIndex(fs, base).Loaded? ==>
            Discovery.ReadIndex(fs', base)
              == Discovery.Loaded(Index(Discovery.ReadIndex(fs, base).index.servers[id := IndexEntry(manifestPath)])))
      && (r.Ok? && IndexPathFor(paths, scope) !in fs.docs ==>
            Discovery.ReadIndex(fs', base) == Discovery.Loaded(Index(map[id := IndexEntry(manifestPath)])))
  {
    var base, dir := InstallDirOf(paths, scope), Join(InstallDirOf(paths, scope), id);
    var manifestPath := Join(dir, "manifest.json");
    if manifestPath !in host.faulty {
      var written := WriteDoc(fs, manifestPath, InstalledManifest(server, dir));
      ManifestIsNotIndex(dir, base);
      assert Discovery.ReadIndex(written, base) == Discovery.ReadIndex(fs, base);
      var p := IndexPathFor(paths, scope);
      if !(p in written.docs && written.docs[p].Unparsable?) {
        var current := if p in written.docs then written.docs[p].value else DEFAULT_INDEX;
        CommitFacts(written, host, scope == Discovery.System, p, AddedIndex(current, id, manifestPath, host.now));
      }
      AddVisible(written, host, paths, scope, id, manifestPath);
    }
  }

  /**
   * An install fails before anything is written unless the first transport
   * is supported and, for stdio, staged; only the directory is created by
   * then. A successful install ends with the manifest in place and the entry
   * in the scope's index, as `RecordFacts` states.
   */
  lemma InstallFacts(fs: FileSystem, host: Host, staging: Staging, paths: Paths, id: string,
                     scope: Discovery.Scope, server: Json)
    requires AddSafe(fs, IndexPathFor(paths, scope))
    ensures var (r, fs') := InstallOutcome(fs, host, staging, paths, id, scope, server);
      var dir := Join(InstallDirOf(paths, scope), id);
      var kind := FirstTransportType(server);
      && (dir in host.faulty ==> r == Err(InstallError.CreateDir) && fs' == fs)
      && (dir !in host.faulty && kind.None? ==> r == Err(InstallError.InvalidRegistry) && fs' == MakeDirs(fs, dir))
      && (dir !in host.faulty && kind.Some? && kind.value !in {"stdio", "sse", "websocket"} ==>
            r == Err(InstallError.UnsupportedTransport) && fs' == MakeDirs(fs, dir))
      && (dir !in host.faulty && kind.Some? && kind.value in {"stdio", "sse", "websocket"} ==>
            server.Object?
            && (kind.value == "stdio" && StageStdio(server, staging).Some? ==>
                  r == Err(StageStdio(server, staging).value) && fs' == MakeDirs(fs, dir))
            && (kind.value != "stdio" || StageStdio(server, staging).None? ==>
                  (r, fs') == RecordOutcome(MakeDirs(fs, dir), host, paths, id, scope, server)))
  {
  }

  /** The steps of `install` after the registry entry is known. */
  method InstallServer(fs: FileSystem, host: Host, staging: Staging, paths: Paths,
                       id: string, scope: Discovery.Scope, server: Json)
    returns (r: Result<(), InstallError>, fs': FileSystem)
    requires AddSafe(fs, IndexPathFor(paths, scope))
    ensures (r, fs') == InstallOutcome(fs, host, staging, paths, id, scope, server)
  {
    var installDir := Join(InstallDirOf(paths, scope), id);
    if installDir in host.faulty {
      return Err(InstallError.CreateDir), fs;
    }
    fs' := MakeDirs(fs, installDir);
    var transports := GetArray(server, "transports");
    if transports.None? || |transports.value| == 0 {
      return Err(InstallError.InvalidRegistry), fs';
    }
    var transportType := GetStr(transports.value[0], "type").GetOr("");
    if transportType == "stdio" {
      var staged := StageStdio(server, staging);
      if staged.Some? {
        return Err(staged.value), fs';
      }
    } else if transportType == "sse" || transportType == "websocket" {
      // remote: only the manifest is written
    } else {
      return Err(InstallError.UnsupportedTransport), fs';
    }
    r, fs' := Record(fs', host, paths, id, scope, server);
  }

  /** Writes the manifest, then adds the index entry. */
  method Record(fs: FileSystem, host: Host, paths: Paths, id: string, scope: Discovery.Scope, server: Json)
    returns (r: Result<(), InstallError>, fs': FileSystem)
    requires AddSafe(fs, IndexPathFor(paths, scope))
    requires server.Object?
    ensures (r, fs') == RecordOutcome(fs, host, paths, id, scope, server)
  {
    var installDir := Join(InstallDirOf(paths, scope), id);
    fs' := fs;
    var manifest := Set(server, "installDir", Str(installDir));
    if Get(manifest, "config").None? {
      manifest := Set(manifest, "config", Object(map[]));
    }
    assert manifest == InstalledManifest(server, installDir);
    var manifestPath := Join(installDir, "manifest.json");
    if manifestPath in host.faulty {
      return Err(InstallError.WriteManifest), fs';
    }
    fs' := WriteDoc(fs', manifestPath, manifest);
    ManifestIsNotIndex(installDir, InstallDirOf(paths, scope));
    r, fs' := UpdateIndexAdd(fs', host, paths, id, manifestPath, scope);
  }

  /**
   * `install`: fetch the registry entry unless one is given, then install
   * it. A failed fetch changes nothing.
   */
  method Install(fs: FileSystem, host: Host, web: Web, staging: Staging, paths: Paths,
                 id: string, scope: Discovery.Scope, serverOverride: Option<Json>)
    returns (r: Result<(), InstallError>, fs': FileSystem)
    requires AddSafe(fs, IndexPathFor(paths, scope))
    ensures Fetched(fs, paths, web, id, serverOverride).Err? ==>
      r == Err(Fetched(fs, paths, web, id, serverOverride).error) && fs' == fs
    ensures Fetched(fs, paths, web, id, serverOverride).Ok? ==>
      (r, fs') == InstallOutcome(fs, host, staging, paths, id, scope, Fetched(fs, paths, web, id, serverOverride).value)
  {
    var server: Json;
    if serverOverride.Some? {
      server := serverOverride.value;
    } else {
      var fetched := FetchServerFromRegistry(fs, paths, web, id);
      if fetched.Err? {
        return Err(fetched.error), fs;
      }
      server := fetched.value;
    }
    r, fs' := InstallServer(fs, host, staging, paths, id, scope, server);
  }
}
