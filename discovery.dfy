/**
 * Discovery: the installed servers of both scopes, read from each scope's
 * index.json and the manifests it points to, merged with user entries taking
 * precedence, sorted by id. Unreadable or malformed files shrink the result;
 * they never make the listing fail.
 */
module Discovery {
  import opened Wrappers
  import opened JsonValues
  import opened Text
  import opened FileSystem
  import opened Models
  import opened PathResolution

  datatype Scope = User | System

  /** What the listing shows for one installed server. */
  datatype ServerInfo = ServerInfo(id: string, name: string, version: string, transportType: string, scope: Scope)

  /** `transport_type_name`: the same text that the `"type"` tag of the transport carries on disk. */
  function TransportTypeName(t: Transport): (r: string)
    ensures EncodeTransport(t).fields["type"] == Str(r)
    ensures r == "stdio" || r == "sse" || r == "websocket"
  {
    match t
    case Stdio(_, _, _) => "stdio"
    case Sse(_, _) => "sse"
    case WebSocket(_, _) => "websocket"
  }

  function FirstTransportName(ts: Option<seq<Transport>>): string {
    if ts.Some? && |ts.value| > 0 then TransportTypeName(ts.value[0]) else "unknown"
  }

  /** The record for index key `key` whose manifest decoded as `m`. */
  function InfoOf(key: string, m: Manifest, scope: Scope): ServerInfo {
    ServerInfo(m.id.GetOr(key), m.name.GetOr("Unknown"), m.version.GetOr("?"), FirstTransportName(m.transports), scope)
  }

  /**
   * The record read off the manifest's JSON: the id is the document's `id`
   * string when there is one and the index key otherwise, the name defaults
   * to "Unknown", the version to "?", and the transport is the `"type"` of
   * the first transport, or "unknown".
   */
  lemma InfoMatchesDocument(key: string, v: Json, scope: Scope)
    requires DecodeManifest(v).Some?
    ensures var info := InfoOf(key, DecodeManifest(v).value, scope);
      && info.id == (if GetStr(v, "id").Some? then GetStr(v, "id").value else key)
      && info.name == (if GetStr(v, "name").Some? then GetStr(v, "name").value else "Unknown")
      && info.version == (if GetStr(v, "version").Some? then GetStr(v, "version").value else "?")
      && info.scope == scope
      && (match GetArray(v, "transports")
          case Some(ts) => info.transportType == (if ts == [] then "unknown" else ts[0].fields["type"].s)
          case None => info.transportType == "unknown")
  {
    var m := DecodeManifest(v).value;
    var ts := GetArray(v, "transports");
    if ts.Some? && ts.value != [] {
      var t := m.transports.value[0];
      assert DecodeTransport(ts.value[0]) == Some(t);
    }
  }

  // ----- reading one scope -----

  datatype IndexRead = Unreadable | Undecodable | Loaded(index: Index)

  function IndexPath(base: Path): Path {
    Join(base, "index.json")
  }

  /** `read_to_string` then `serde_json::from_str::<Index>` on the scope's index.json. */
  function ReadIndex(fs: FileSystem, base: Path): IndexRead {
    var p := IndexPath(base);
    if p !in fs.docs then Unreadable
    else match fs.docs[p]
      case Unparsable => Undecodable
      case Parsed(v) => (match DecodeIndex(v) case None => Undecodable case Some(i) => Loaded(i))
  }

  /** A manifest that can be read and decoded, or nothing. */
  function ReadManifest(fs: FileSystem, location: Path): Option<Manifest> {
    if location in fs.docs && fs.docs[location].Parsed? then DecodeManifest(fs.docs[location].value) else None
  }

  /** Whether index key `k` names a manifest that can be read and decoded. */
  predicate Loads(fs: FileSystem, index: Index, k: string) {
    k in index.servers && ReadManifest(fs, index.servers[k].location).Some?
  }

  function Record(fs: FileSystem, index: Index, k: string, scope: Scope): ServerInfo
    requires Loads(fs, index, k)
  {
    InfoOf(k, ReadManifest(fs, index.servers[k].location).value, scope)
  }

  /** The records of the index keys in `keys`, in that order, skipping every key whose manifest does not load. */
  function ListingOf(fs: FileSystem, index: Index, keys: seq<string>, scope: Scope): (r: seq<ServerInfo>)
    ensures |r| <= |keys|
    ensures forall i :: 0 <= i < |r| ==> r[i].scope == scope
  {
    if keys == [] then []
    else
      var k := keys[|keys| - 1];
      ListingOf(fs, index, keys[..|keys| - 1], scope) + (if Loads(fs, index, k) then [Record(fs, index, k, scope)] else [])
  }

  /** A record is listed exactly when it comes from a key whose manifest loads; failing keys do not disturb the rest. */
  lemma {:induction false} ListingMembers(fs: FileSystem, index: Index, keys: seq<string>, scope: Scope, x: ServerInfo)
    ensures x in ListingOf(fs, index, keys, scope) <==>
      exists i :: 0 <= i < |keys| && Loads(fs, index, keys[i]) && x == Record(fs, index, keys[i], scope)
  {
    if keys != [] {
      var n := |keys| - 1;
      var init := keys[..n];
      ListingMembers(fs, index, init, scope, x);
      if x in ListingOf(fs, index, keys, scope) {
        if x !in ListingOf(fs, index, init, scope) {
          assert Loads(fs, index, keys[n]) && x == Record(fs, index, keys[n], scope);
        } else {
          var i :| 0 <= i < |init| && Loads(fs, index, init[i]) && x == Record(fs, index, init[i], scope);
          assert keys[i] == init[i];
        }
      } else {
        forall i | 0 <= i < |keys| && Loads(fs, index, keys[i])
          ensures x != Record(fs, index, keys[i], scope)
        {
          if i < n {
            assert keys[i] == init[i];
          }
        }
      }
    }
  }

  /** `keys` visits every key of the index once, in some order (a HashMap's order is unspecified). */
  ghost predicate Enumerates(keys: seq<string>, index: Index) {
    && (forall i, j :: 0 <= i < j < |keys| ==> keys[i] != keys[j])
    && (forall k :: k in keys <==> k in index.servers)
  }

  /**
   * `load_from_scope`: an unreadable index is an empty scope, an index that
   * does not decode is a failure (`None`), otherwise one record per key whose
   * manifest loads.
   */
  method LoadFromScope(fs: FileSystem, base: Path, scope: Scope)
    returns (r: Option<seq<ServerInfo>>, ghost keys: seq<string>)
    ensures ReadIndex(fs, base).Unreadable? ==> r == Some([])
    ensures ReadIndex(fs, base).Undecodable? ==> r == None
    ensures ReadIndex(fs, base).Loaded? ==>
      && Enumerates(keys, ReadIndex(fs, base).index)
      && r == Some(ListingOf(fs, ReadIndex(fs, base).index, keys, scope))
  {
    keys := [];
    var read := ReadIndex(fs, base);
    if read.Unreadable? {
      return Some([]), keys;
    }
    if read.Undecodable? {
      return None, keys;
    }
    var index := read.index;
    var servers: seq<ServerInfo> := [];
    var pending := index.servers.Keys;
    while pending != {}
      invariant pending <= index.servers.Keys
      invariant forall k :: k in keys ==> k !in pending
      invariant forall i, j :: 0 <= i < j < |keys| ==> keys[i] != keys[j]
      invariant forall k :: k in index.servers ==> k in pending || k in keys
      invariant forall k :: k in keys ==> k in index.servers
      invariant servers == ListingOf(fs, index, keys, scope)
      decreases pending
    {
      var id :| id in pending;
      pending := pending - {id};
      keys := keys + [id];
      assert keys[..|keys| - 1] == keys[..|keys| - 1];
      var manifest := ReadManifest(fs, index.servers[id].location);
      if manifest.None? {
        continue;
      }
      servers := servers + [InfoOf(id, manifest.value, scope)];
    }
    r := Some(servers);
  }

  // ----- merging the scopes -----

  /** `seen.insert(s.id, s)` for each record in order: a later record replaces an earlier one with the same id. */
  function PutAll(m: map<string, ServerInfo>, s: seq<ServerInfo>): map<string, ServerInfo> {
    if s == [] then m
    else
      var last := s[|s| - 1];
      PutAll(m, s[..|s| - 1])[last.id := last]
  }

  /** `seen.entry(s.id).or_insert(s)` for each record in order: a record never replaces one already present. */
  function PutAbsent(m: map<string, ServerInfo>, s: seq<ServerInfo>): map<string, ServerInfo> {
    if s == [] then m
    else
      var last := s[|s| - 1];
      var before := PutAbsent(m, s[..|s| - 1]);
      if last.id in before then before else before[last.id := last]
  }

  /** User records inserted first, then system records that are not already present. */
  function Merged(user: seq<ServerInfo>, system: seq<ServerInfo>): map<string, ServerInfo> {
    PutAbsent(PutAll(map[], user), system)
  }

  predicate KeyedById(m: map<string, ServerInfo>) {
    forall k :: k in m ==> m[k].id == k
  }

  lemma {:induction false} PutAllFacts(m: map<string, ServerInfo>, s: seq<ServerInfo>)
    requires KeyedById(m)
    ensures KeyedById(PutAll(m, s))
    ensures forall k :: k in PutAll(m, s) <==> k in m || exists i :: 0 <= i < |s| && s[i].id == k
    ensures forall k :: k in PutAll(m, s) ==> (k in m && PutAll(m, s)[k] == m[k]) || PutAll(m, s)[k] in s
  {
    if s != [] {
      var init := s[..|s| - 1];
      PutAllFacts(m, init);
      assert forall i :: 0 <= i < |init| ==> init[i] == s[i];
      forall k | k in PutAll(m, s) && !(k in m && PutAll(m, s)[k] == m[k])
        ensures PutAll(m, s)[k] in s
      {
        if k != s[|s| - 1].id {
          assert PutAll(m, init)[k] in init;
        }
      }
    }
  }

  /** `or_insert` keeps every record already present and adds only records of `s`. */
  lemma {:induction false} PutAbsentFacts(m: map<string, ServerInfo>, s: seq<ServerInfo>)
    requires KeyedById(m)
    ensures KeyedById(PutAbsent(m, s))
    ensures forall k :: k in m ==> k in PutAbsent(m, s) && PutAbsent(m, s)[k] == m[k]
    ensures forall k :: k in PutAbsent(m, s) <==> k in m || exists i :: 0 <= i < |s| && s[i].id == k
    ensures forall k :: k in PutAbsent(m, s) && k !in m ==> PutAbsent(m, s)[k] in s
  {
    if s != [] {
      var init := s[..|s| - 1];
      PutAbsentFacts(m, init);
      assert forall i :: 0 <= i < |init| ==> init[i] == s[i];
      forall k | k in PutAbsent(m, s) && k !in m
        ensures PutAbsent(m, s)[k] in s
      {
        if k != s[|s| - 1].id || s[|s| - 1].id in PutAbsent(m, init) {
          assert PutAbsent(m, init)[k] in init;
        }
      }
    }
  }

  /**
   * Precedence: every id the user scope lists keeps its user record, a
   * system record appears only under an id the user scope does not list, and
   * nothing else appears.
   */
  lemma UserWins(user: seq<ServerInfo>, system: seq<ServerInfo>)
    ensures var m, u := Merged(user, system), PutAll(map[], user);
      && KeyedById(m)
      && (forall k :: k in u ==> k in m && m[k] == u[k] && m[k] in user)
      && (forall k :: k in m && k !in u ==> m[k] in system)
      && (forall k :: k in m <==>
            ((exists i :: 0 <= i < |user| && user[i].id == k) || (exists i :: 0 <= i < |system| && system[i].id == k)))
  {
    PutAllFacts(map[], user);
    PutAbsentFacts(PutAll(map[], user), system);
  }

  /** Within one scope whose records have distinct ids, each record is the one kept under its id. */
  lemma {:induction false} PutAllDistinct(s: seq<ServerInfo>, i: nat)
    requires i < |s|
    requires forall a, b :: 0 <= a < b < |s| ==> s[a].id != s[b].id
    ensures s[i].id in PutAll(map[], s) && PutAll(map[], s)[s[i].id] == s[i]
  {
    var init := s[..|s| - 1];
    if i < |s| - 1 {
      PutAllDistinct(init, i);
    }
  }

  // ----- sorting by id -----

  predicate SortedById(r: seq<ServerInfo>) {
    forall i, j :: 0 <= i < j < |r| ==> Less(r[i].id, r[j].id)
  }

  predicate DistinctIds(r: seq<ServerInfo>) {
    forall i, j :: 0 <= i < j < |r| ==> r[i].id != r[j].id
  }

  function InsertById(x: ServerInfo, s: seq<ServerInfo>): (r: seq<ServerInfo>)
    ensures multiset(r) == multiset(s) + multiset{x}
  {
    if s == [] then [x]
    else if Less(x.id, s[0].id) then [x] + s
    else
      assert s == [s[0]] + s[1..];
      [s[0]] + InsertById(x, s[1..])
  }

  /** Inserting a record with a new id into an ascending list keeps it ascending. */
  lemma {:induction false} InsertSorted(x: ServerInfo, s: seq<ServerInfo>)
    requires SortedById(s)
    requires forall y :: y in s ==> y.id != x.id
    ensures SortedById(InsertById(x, s))
  {
    if s == [] {
    } else if Less(x.id, s[0].id) {
      forall j | 0 < j < |s| ensures Less(x.id, s[j].id) {
        LessTransitive(x.id, s[0].id, s[j].id);
      }
    } else {
      var tail := InsertById(x, s[1..]);
      InsertSorted(x, s[1..]);
      LessTotal(x.id, s[0].id);
      assert s == [s[0]] + s[1..];
      forall j | 0 <= j < |tail| ensures Less(s[0].id, tail[j].id) {
        assert tail[j] in multiset(tail);
        if tail[j] != x {
          assert tail[j] in multiset(s[1..]);
          var k :| 0 <= k < |s[1..]| && s[1..][k] == tail[j];
          assert Less(s[0].id, s[k + 1].id);
        }
      }
    }
  }

  /** `sort_by(|a, b| a.id.cmp(&b.id))`: the same records. */
  function SortById(s: seq<ServerInfo>): (r: seq<ServerInfo>)
    ensures multiset(r) == multiset(s)
  {
    if s == [] then []
    else
      assert s == [s[0]] + s[1..];
      InsertById(s[0], SortById(s[1..]))
  }

  /** For records with distinct ids the sort is strictly ascending by id. */
  lemma {:induction false} SortedWhenDistinct(s: seq<ServerInfo>)
    requires DistinctIds(s)
    ensures SortedById(SortById(s))
  {
    if s != [] {
      var rest := SortById(s[1..]);
      SortedWhenDistinct(s[1..]);
      assert s == [s[0]] + s[1..];
      forall y | y in rest ensures y.id != s[0].id {
        assert y in multiset(s[1..]);
        var k :| 0 <= k < |s[1..]| && s[1..][k] == y;
        assert s[k + 1] == y;
      }
      InsertSorted(s[0], rest);
    }
  }

  // ----- the listing -----

  /** What a scope contributes: nothing when it is excluded or its index does not load. */
  ghost function ScopePart(fs: FileSystem, base: Path, scope: Scope, wanted: bool, keys: seq<string>): seq<ServerInfo> {
    if wanted && ReadIndex(fs, base).Loaded? then ListingOf(fs, ReadIndex(fs, base).index, keys, scope) else []
  }

  /** The user-scope loop of `list_servers`: `insert` each record. */
  method InsertAll(seen0: map<string, ServerInfo>, servers: seq<ServerInfo>) returns (seen: map<string, ServerInfo>)
    ensures seen == PutAll(seen0, servers)
  {
    seen := seen0;
    for i := 0 to |servers|
      invariant seen == PutAll(seen0, servers[..i])
    {
      assert servers[..i + 1][..i] == servers[..i];
      seen := seen[servers[i].id := servers[i]];
    }
    assert servers[..|servers|] == servers;
  }

  /** The system-scope loop of `list_servers`: `entry(..).or_insert(..)` each record. */
  method InsertAbsent(seen0: map<string, ServerInfo>, servers: seq<ServerInfo>) returns (seen: map<string, ServerInfo>)
    ensures seen == PutAbsent(seen0, servers)
  {
    seen := seen0;
    for i := 0 to |servers|
      invariant seen == PutAbsent(seen0, servers[..i])
    {
      assert servers[..i + 1][..i] == servers[..i];
      if servers[i].id !in seen {
        seen := seen[servers[i].id := servers[i]];
      }
    }
    assert servers[..|servers|] == servers;
  }

  /** `into_values().collect()`: every value once, in the map's own order. */
  method Values(seen: map<string, ServerInfo>) returns (values: seq<ServerInfo>)
    requires KeyedById(seen)
    ensures |values| == |seen|
    ensures DistinctIds(values)
    ensures forall i :: 0 <= i < |values| ==> values[i].id in seen && seen[values[i].id] == values[i]
  {
    values := [];
    var pending := seen.Keys;
    while pending != {}
      invariant pending <= seen.Keys
      invariant |values| + |pending| == |seen|
      invariant forall i :: 0 <= i < |values| ==>
        values[i].id in seen && seen[values[i].id] == values[i] && values[i].id !in pending
      invariant DistinctIds(values)
      decreases pending
    {
      var k :| k in pending;
      pending := pending - {k};
      values := values + [seen[k]];
    }
  }

  /**
   * `list_servers`: the merged records of the included scopes, user first,
   * sorted ascending by id. `userKeys` and `systemKeys` are the orders in
   * which the two index maps happened to be visited.
   */
  method ListServers(fs: FileSystem, paths: Paths, user: bool, system: bool)
    returns (r: seq<ServerInfo>, ghost userKeys: seq<string>, ghost systemKeys: seq<string>)
    ensures user && ReadIndex(fs, paths.userInstallDir).Loaded? ==> Enumerates(userKeys, ReadIndex(fs, paths.userInstallDir).index)
    ensures system && ReadIndex(fs, paths.systemInstallDir).Loaded? ==> Enumerates(systemKeys, ReadIndex(fs, paths.systemInstallDir).index)
    ensures var m := Merged(ScopePart(fs, paths.userInstallDir, User, user, userKeys),
                            ScopePart(fs, paths.systemInstallDir, System, system, systemKeys));
      && SortedById(r)
      && |r| == |m|
      && forall i :: 0 <= i < |r| ==> r[i].id in m && m[r[i].id] == r[i]
    ensures !user ==> forall i :: 0 <= i < |r| ==> r[i].scope == System
    ensures !system ==> forall i :: 0 <= i < |r| ==> r[i].scope == User
  {
    var seen: map<string, ServerInfo> := map[];
    userKeys, systemKeys := [], [];
    if user {
      var loaded;
      loaded, userKeys := LoadFromScope(fs, paths.userInstallDir, User);
      if loaded.Some? {
        seen := InsertAll(seen, loaded.value);
      }
    }
    ghost var u := ScopePart(fs, paths.userInstallDir, User, user, userKeys);
    if system {
      var loaded;
      loaded, systemKeys := LoadFromScope(fs, paths.systemInstallDir, System);
      if loaded.Some? {
        seen := InsertAbsent(seen, loaded.value);
      }
    }
    ghost var s := ScopePart(fs, paths.systemInstallDir, System, system, systemKeys);
    assert seen == Merged(u, s);
    UserWins(u, s);
    var values := Values(seen);
    r := SortById(values);
    SortedWhenDistinct(values);
    forall i | 0 <= i < |r|
      ensures r[i].id in seen && seen[r[i].id] == r[i]
    {
      assert r[i] in multiset(values);
    }
    assert |r| == |values| by {
      assert |multiset(r)| == |multiset(values)|;
    }
    if !user {
      forall i | 0 <= i < |r| ensures r[i].scope == System {
        assert seen[r[i].id] in s;
      }
    }
    if !system {
      forall i | 0 <= i < |r| ensures r[i].scope == User {
        assert seen[r[i].id] in u;
      }
    }
  }
}
