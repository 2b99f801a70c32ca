/**
 * Browsing the registries: each source URL is fetched, every entry of its
 * `servers` array is turned into a display record with defaults for missing
 * fields, and the records of all sources are concatenated while failing
 * sources are collected as errors.
 */
module Browse {
  import opened Wrappers
  import opened JsonValues
  import opened FileSystem
  import opened PathResolution
  import opened Models
  import opened Network
  import Discovery
  import Sources

  /** A registry entry as displayed, with the URL of the registry it came from. */
  datatype RegistryServer = RegistryServer(id: string, name: string, summary: string, version: string,
                                           transport: string, source: string)

  /** The underlying HTTP error is not modelled; a failed fetch keeps its URL. */
  datatype BrowseError = HttpClient | FetchFailed(url: string)

  // ----- one registry -----

  /** The `"type"` string of the first element of `transports`, or "?". */
  function TransportLabel(server: Json): string {
    match GetArray(server, "transports")
    case Some(ts) => if ts == [] then "?" else GetStr(ts[0], "type").GetOr("?")
    case None => "?"
  }

  /** The display record of one registry entry: "?" for a missing id, name, version or transport, "" for a missing summary. */
  function Shape(server: Json, url: string): RegistryServer {
    RegistryServer(GetStr(server, "id").GetOr("?"), GetStr(server, "name").GetOr("?"),
                   GetStr(server, "summary").GetOr(""), GetStr(server, "version").GetOr("?"),
                   TransportLabel(server), url)
  }

  /**
   * An entry without string `id`, `name`, `summary` and `version` fields and
   * without a `transports` array is still listed, with every default and the
   * registry's URL.
   */
  lemma ShapeDefaults(server: Json, url: string)
    requires GetStr(server, "id").None? && GetStr(server, "name").None?
    requires GetStr(server, "summary").None? && GetStr(server, "version").None?
    requires GetArray(server, "transports").None?
    ensures Shape(server, url) == RegistryServer("?", "?", "", "?", "?", url)
  {
  }

  /** The transport label of a serialised manifest is the tag of its first transport, or "?". */
  lemma TransportLabelOfManifest(m: Manifest)
    ensures TransportLabel(EncodeManifest(m))
      == if m.transports.Some? && m.transports.value != [] then Discovery.TransportTypeName(m.transports.value[0]) else "?"
  {
    if m.transports.Some? && m.transports.value != [] {
      var ts := EncodeTransports(m.transports.value);
      assert GetArray(EncodeManifest(m), "transports") == Some(ts);
      assert ts[0] == EncodeTransport(m.transports.value[0]);
    }
  }

  /**
   * The record of an entry that is a serialised manifest carries the
   * manifest's own fields, and the transport is the tag of its first transport.
   */
  lemma ShapeOfManifest(m: Manifest, url: string)
    ensures var r := Shape(EncodeManifest(m), url);
      && r.id == m.id.GetOr("?") && r.name == m.name.GetOr("?")
      && r.summary == m.summary.GetOr("") && r.version == m.version.GetOr("?")
      && r.transport == (if m.transports.Some? && m.transports.value != [] then Discovery.TransportTypeName(m.transports.value[0]) else "?")
      && r.source == url
  {
    var v := EncodeManifest(m);
    assert v.fields["id"] == EncodeOption(m.id) && v.fields["name"] == EncodeOption(m.name);
    assert v.fields["summary"] == EncodeOption(m.summary) && v.fields["version"] == EncodeOption(m.version);
    TransportLabelOfManifest(m);
  }

  /** The records of a registry's `servers` array, one per element, in order. */
  function Shaped(servers: seq<Json>, url: string): (r: seq<RegistryServer>)
    ensures |r| == |servers|
    ensures forall i :: 0 <= i < |r| ==> r[i] == Shape(servers[i], url)
  {
    if servers == [] then [] else Shaped(servers[..|servers| - 1], url) + [Shape(servers[|servers| - 1], url)]
  }

  /**
   * What `fetch_registry` gives for `url`: an error when the request fails,
   * the status is not 2xx or the body is not JSON; no records when the body
   * has no `servers` array; otherwise one record per entry.
   */
  function Registry(web: Web, url: string): (r: Result<seq<RegistryServer>, ()>)
    ensures r.Err? <==> web.fetch(url).SendFailed? || !IsSuccess(web.fetch(url).status) || web.fetch(url).body.None?
    ensures r.Ok? ==> forall i :: 0 <= i < |r.value| ==> r.value[i].source == url
    ensures r.Ok? && GetArray(web.fetch(url).body.value, "servers").None? ==> r.value == []
    ensures r.Ok? && GetArray(web.fetch(url).body.value, "servers").Some? ==>
      |r.value| == |GetArray(web.fetch(url).body.value, "servers").value|
  {
    match web.fetch(url)
    case SendFailed => Err(())
    case Reply(status, body) =>
      if !IsSuccess(status) || body.None? then Err(())
      else match GetArray(body.value, "servers")
        case None => Ok([])
        case Some(servers) => Ok(Shaped(servers, url))
  }

  /** `fetch_registry`. */
  method FetchRegistry(web: Web, url: string) returns (r: Result<seq<RegistryServer>, ()>)
    ensures r == Registry(web, url)
  {
    var resp := web.fetch(url);
    if resp.SendFailed? || !IsSuccess(resp.status) {
      return Err(());
    }
    if resp.body.None? {
      return Err(());
    }
    var servers := GetArray(resp.body.value, "servers");
    if servers.None? {
      return Ok([]);
    }
    var result: seq<RegistryServer> := [];
    for i := 0 to |servers.value|
      invariant result == Shaped(servers.value[..i], url)
    {
      assert servers.value[..i + 1][..i] == servers.value[..i];
      result := result + [Shape(servers.value[i], url)];
    }
    assert servers.value[..|servers.value|] == servers.value;
    return Ok(result);
  }

  /** `list_registry_servers_from_url`: one registry, its failure tagged with the URL. */
  method ListRegistryServersFromUrl(web: Web, url: string) returns (r: Result<seq<RegistryServer>, BrowseError>)
    ensures !web.clientBuilds ==> r == Err(HttpClient)
    ensures web.clientBuilds && Registry(web, url).Err? ==> r == Err(FetchFailed(url))
    ensures web.clientBuilds && Registry(web, url).Ok? ==> r == Ok(Registry(web, url).value)
  {
    if !web.clientBuilds {
      return Err(HttpClient);
    }
    var fetched := FetchRegistry(web, url);
    if fetched.Err? {
      return Err(FetchFailed(url));
    }
    return Ok(fetched.value);
  }

  // ----- all registries -----

  /** The records and the errors of the source URLs in order, without removing duplicates. */
  function Browsed(web: Web, urls: seq<string>): (seq<RegistryServer>, seq<BrowseError>) {
    if urls == [] then ([], [])
    else
      var (servers, errors) := Browsed(web, urls[..|urls| - 1]);
      var last := urls[|urls| - 1];
      match Registry(web, last)
      case Ok(found) => (servers + found, errors)
      case Err(_) => (servers, errors + [FetchFailed(last)])
  }

  /** Browsing a list of sources is browsing its two halves one after the other. */
  lemma {:induction false} BrowsedAppend(web: Web, a: seq<string>, b: seq<string>)
    ensures Browsed(web, a + b).0 == Browsed(web, a).0 + Browsed(web, b).0
    ensures Browsed(web, a + b).1 == Browsed(web, a).1 + Browsed(web, b).1
    decreases |b|
  {
    if b == [] {
      assert a + b == a;
    } else {
      var b' := b[..|b| - 1];
      assert (a + b)[..|a + b| - 1] == a + b';
      assert (a + b)[|a + b| - 1] == b[|b| - 1];
      BrowsedAppend(web, a, b');
    }
  }

  /** The source URLs whose fetch fails, in order. */
  function Failing(web: Web, urls: seq<string>): (r: seq<string>)
    ensures |r| <= |urls|
    ensures forall i :: 0 <= i < |r| ==> r[i] in urls && Registry(web, r[i]).Err?
    ensures forall u :: u in urls && Registry(web, u).Err? ==> u in r
  {
    if urls == [] then []
    else
      var rest := Failing(web, urls[..|urls| - 1]);
      if Registry(web, urls[|urls| - 1]).Err? then rest + [urls[|urls| - 1]] else rest
  }

  /** One `FetchFailed` per failing source, in source order, carrying its URL. */
  lemma {:induction false} BrowsedErrors(web: Web, urls: seq<string>)
    ensures var errors, failing := Browsed(web, urls).1, Failing(web, urls);
      |errors| == |failing| && forall i :: 0 <= i < |errors| ==> errors[i] == FetchFailed(failing[i])
  {
    if urls != [] {
      BrowsedErrors(web, urls[..|urls| - 1]);
    }
  }

  /** Every record comes from a source that answered, and names that source. */
  lemma {:induction false} BrowsedSources(web: Web, urls: seq<string>)
    ensures forall s :: s in Browsed(web, urls).0 ==> s.source in urls && Registry(web, s.source).Ok?
  {
    if urls != [] {
      var front := urls[..|urls| - 1];
      BrowsedSources(web, front);
      forall s | s in Browsed(web, urls).0
        ensures s.source in urls && Registry(web, s.source).Ok?
      {
        if s !in Browsed(web, front).0 {
          var found := Registry(web, urls[|urls| - 1]).value;
          var i :| 0 <= i < |found| && found[i] == s;
        } else {
          assert s.source in front;
        }
      }
    }
  }

  /** A source listed twice contributes its records twice: nothing is deduplicated. */
  lemma RepeatedSourceRepeats(web: Web, urls: seq<string>, url: string)
    requires Registry(web, url).Ok?
    ensures Browsed(web, urls + [url, url]).0 == Browsed(web, urls).0 + Registry(web, url).value + Registry(web, url).value
  {
    assert [url][..0] == [];
    assert Browsed(web, [url]).0 == Registry(web, url).value;
    BrowsedAppend(web, urls, [url]);
    BrowsedAppend(web, urls + [url], [url]);
    assert urls + [url, url] == (urls + [url]) + [url];
  }

  /** The source URLs `list_sources` gives for the included scopes. */
  function SourceUrls(fs: FileSystem, paths: Paths, includeUser: bool, includeSystem: bool): seq<string> {
    Sources.UrlsOf(Sources.Merge(Sources.Included(fs, includeUser, paths.userSources),
                                 Sources.Included(fs, includeSystem, paths.systemSources)))
  }

  /**
   * `list_registry_servers`: no records and one `HttpClient` error when the
   * client cannot be built; otherwise the records and errors of every
   * source in order.
   */
  method ListRegistryServers(fs: FileSystem, paths: Paths, web: Web, includeUser: bool, includeSystem: bool)
    returns (servers: seq<RegistryServer>, errors: seq<BrowseError>)
    ensures !web.clientBuilds ==> servers == [] && errors == [HttpClient]
    ensures web.clientBuilds ==> (servers, errors) == Browsed(web, SourceUrls(fs, paths, includeUser, includeSystem))
  {
    var sources := Sources.ListSources(fs, paths, includeUser, includeSystem);
    servers, errors := [], [];
    if !web.clientBuilds {
      errors := errors + [HttpClient];
      return;
    }
    servers, errors := BrowseAll(web, Sources.UrlsOf(sources));
  }

  /** The loop of `list_registry_servers` over the source URLs. */
  method BrowseAll(web: Web, urls: seq<string>) returns (servers: seq<RegistryServer>, errors: seq<BrowseError>)
    ensures (servers, errors) == Browsed(web, urls)
  {
    servers, errors := [], [];
    for i := 0 to |urls|
      invariant (servers, errors) == Browsed(web, urls[..i])
    {
      assert urls[..i + 1][..i] == urls[..i];
      var fetched := FetchRegistry(web, urls[i]);
      match fetched
      case Ok(found) => servers := servers + found;
      case Err(_) => errors := errors + [FetchFailed(urls[i])];
    }
    assert urls[..|urls|] == urls;
  }
}
