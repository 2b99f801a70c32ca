/**
 * The typed records of the on-disk state (index.json and manifest.json) and
 * their JSON encodings as serde derives them: which key each field is read
 * from, which fields are optional, which have defaults, and how the
 * `"type"` tag selects a transport.
 */
module Models {
  import opened Wrappers
  import opened JsonValues

  /** One way of reaching a server; the `"type"` member of its JSON names the variant. */
  datatype Transport =
    | Stdio(command: string, args: Option<seq<string>>, description: Option<string>)
    | Sse(url: string, description: Option<string>)
    | WebSocket(wsUrl: string, description: Option<string>)

  datatype IndexEntry = IndexEntry(location: string)

  /** The typed view of index.json: server id to manifest location. */
  datatype Index = Index(servers: map<string, IndexEntry>)

  datatype Manifest = Manifest(
    id: Option<string>,
    name: Option<string>,
    summary: Option<string>,
    version: Option<string>,
    description: Option<string>,
    author: Option<string>,
    homepage: Option<string>,
    transports: Option<seq<Transport>>,
    config: map<string, Json>,
    installDir: Option<string>,
    categories: seq<string>,
    capabilities: seq<string>,
    permissions: seq<string>,
    tools: seq<Json>)

  // ----- field decoders (None means the whole record fails to decode) -----

  /** An `Option<String>` field: absent or null is `None`, a string is `Some`, anything else fails. */
  function OptionalString(f: map<string, Json>, key: string): Option<Option<string>> {
    if key !in f then Some(None)
    else match f[key]
      case Null => Some(None)
      case Str(s) => Some(Some(s))
      case _ => None
  }

  /** A required `String` field. */
  function RequiredString(f: map<string, Json>, key: string): Option<string> {
    if key in f && f[key].Str? then Some(f[key].s) else None
  }

  function StringsOf(items: seq<Json>): (r: Option<seq<string>>)
    ensures r.Some? ==> |r.value| == |items|
    ensures r.Some? ==> forall i :: 0 <= i < |items| ==> items[i] == Str(r.value[i])
  {
    if items == [] then Some([])
    else if !items[0].Str? then None
    else match StringsOf(items[1..])
      case None => None
      case Some(rest) => Some([items[0].s] + rest)
  }

  /** An `Option<Vec<String>>` field. */
  function OptionalStrings(f: map<string, Json>, key: string): Option<Option<seq<string>>> {
    if key !in f then Some(None)
    else match f[key]
      case Null => Some(None)
      case Array(a) => (match StringsOf(a) case None => None case Some(ss) => Some(Some(ss)))
      case _ => None
  }

  /** A `#[serde(default)] Vec<String>` field: absent is the empty list. */
  function DefaultStrings(f: map<string, Json>, key: string): Option<seq<string>> {
    if key !in f then Some([])
    else match f[key]
      case Array(a) => StringsOf(a)
      case _ => None
  }

  /** A `#[serde(default)] Vec<Value>` field. */
  function DefaultValues(f: map<string, Json>, key: string): Option<seq<Json>> {
    if key !in f then Some([])
    else match f[key]
      case Array(a) => Some(a)
      case _ => None
  }

  /** A `#[serde(default)] HashMap<String, Value>` field: absent is the empty map. */
  function DefaultMap(f: map<string, Json>, key: string): Option<map<string, Json>> {
    if key !in f then Some(map[])
    else match f[key]
      case Object(m) => Some(m)
      case _ => None
  }

  // ----- Transport -----

  /** Deserialises an internally tagged transport: the `"type"` string picks the variant. */
  function DecodeTransport(v: Json): (r: Option<Transport>)
    ensures r.Some? ==> v.Object? && "type" in v.fields
    ensures r.Some? && r.value.Stdio? ==> v.fields["type"] == Str("stdio")
    ensures r.Some? && r.value.Sse? ==> v.fields["type"] == Str("sse")
    ensures r.Some? && r.value.WebSocket? ==> v.fields["type"] == Str("websocket")
    ensures r.Some? && r.value.WebSocket? ==> Get(v, "wsUrl") == Some(Str(r.value.wsUrl))
    ensures v.Object? && "type" in v.fields && v.fields["type"] !in {Str("stdio"), Str("sse"), Str("websocket")}
            ==> r.None?
  {
    if !v.Object? || "type" !in v.fields then None
    else
      var f := v.fields;
      var desc := OptionalString(f, "description");
      if desc.None? then None
      else if f["type"] == Str("stdio") then
        match (RequiredString(f, "command"), OptionalStrings(f, "args"))
        case (Some(c), Some(a)) => Some(Stdio(c, a, desc.value))
        case _ => None
      else if f["type"] == Str("sse") then
        match RequiredString(f, "url")
        case Some(u) => Some(Sse(u, desc.value))
        case None => None
      else if f["type"] == Str("websocket") then
        match RequiredString(f, "wsUrl")
        case Some(u) => Some(WebSocket(u, desc.value))
        case None => None
      else None
  }

  function EncodeOption(o: Option<string>): Json {
    match o
    case None => Null
    case Some(s) => Str(s)
  }

  function EncodeStrings(ss: seq<string>): (r: seq<Json>)
    ensures |r| == |ss| && forall i :: 0 <= i < |ss| ==> r[i] == Str(ss[i])
  {
    if ss == [] then [] else [Str(ss[0])] + EncodeStrings(ss[1..])
  }

  /** Serialises a transport the way serde does: the tag under `"type"`, `None` as null. */
  function EncodeTransport(t: Transport): (r: Json)
    ensures r.Object? && "type" in r.fields && r.fields["type"].Str?
  {
    match t
    case Stdio(c, a, d) =>
      Object(map["type" := Str("stdio"), "command" := Str(c),
                 "args" := (match a case None => Null case Some(ss) => Array(EncodeStrings(ss))),
                 "description" := EncodeOption(d)])
    case Sse(u, d) =>
      Object(map["type" := Str("sse"), "url" := Str(u), "description" := EncodeOption(d)])
    case WebSocket(u, d) =>
      Object(map["type" := Str("websocket"), "wsUrl" := Str(u), "description" := EncodeOption(d)])
  }

  lemma {:induction false} StringsRoundTrip(ss: seq<string>)
    ensures StringsOf(EncodeStrings(ss)) == Some(ss)
  {
    if ss != [] {
      StringsRoundTrip(ss[1..]);
      var e := EncodeStrings(ss);
      assert e == [Str(ss[0])] + EncodeStrings(ss[1..]);
      assert e[1..] == EncodeStrings(ss[1..]);
      assert ss == [ss[0]] + ss[1..];
    }
  }

  /** Every transport reads back as itself: the tags and key names of both directions agree. */
  lemma TransportRoundTrip(t: Transport)
    ensures DecodeTransport(EncodeTransport(t)) == Some(t)
  {
    if t.Stdio? && t.args.Some? {
      StringsRoundTrip(t.args.value);
    }
  }

  function TransportsOf(items: seq<Json>): (r: Option<seq<Transport>>)
    ensures r.Some? ==> |r.value| == |items|
    ensures r.Some? ==> forall i :: 0 <= i < |items| ==> DecodeTransport(items[i]) == Some(r.value[i])
  {
    if items == [] then Some([])
    else match (DecodeTransport(items[0]), TransportsOf(items[1..]))
      case (Some(t), Some(rest)) => Some([t] + rest)
      case _ => None
  }

  function EncodeTransports(ts: seq<Transport>): (r: seq<Json>)
    ensures |r| == |ts| && forall i :: 0 <= i < |ts| ==> r[i] == EncodeTransport(ts[i])
  {
    if ts == [] then [] else [EncodeTransport(ts[0])] + EncodeTransports(ts[1..])
  }

  lemma {:induction false} TransportsRoundTrip(ts: seq<Transport>)
    ensures TransportsOf(EncodeTransports(ts)) == Some(ts)
  {
    if ts != [] {
      TransportRoundTrip(ts[0]);
      TransportsRoundTrip(ts[1..]);
      var e := EncodeTransports(ts);
      assert e == [EncodeTransport(ts[0])] + EncodeTransports(ts[1..]);
      assert e[1..] == EncodeTransports(ts[1..]);
      assert ts == [ts[0]] + ts[1..];
    }
  }

  // ----- Manifest -----

  /** An `Option<Vec<Transport>>` field. */
  function OptionalTransports(f: map<string, Json>, key: string): Option<Option<seq<Transport>>> {
    if key !in f then Some(None)
    else match f[key]
      case Null => Some(None)
      case Array(a) => (match TransportsOf(a) case None => None case Some(ts) => Some(Some(ts)))
      case _ => None
  }

  /**
   * Deserialises a manifest. Keys are camelCase (`installDir`); every
   * `Option` field may be absent; `config` and the four lists default to
   * empty; unknown keys are ignored.
   */
  function DecodeManifest(v: Json): (r: Option<Manifest>)
    ensures r.Some? ==> v.Object?
    ensures r.Some? && "config" !in v.fields ==> r.value.config == map[]
    ensures r.Some? && "categories" !in v.fields ==> r.value.categories == []
    ensures r.Some? && "capabilities" !in v.fields ==> r.value.capabilities == []
    ensures r.Some? && "permissions" !in v.fields ==> r.value.permissions == []
    ensures r.Some? && "tools" !in v.fields ==> r.value.tools == []
    ensures r.Some? && "installDir" !in v.fields ==> r.value.installDir == None
    ensures r.Some? ==> (r.value.installDir.Some? <==> Get(v, "installDir").Some? && Get(v, "installDir").value.Str?)
    ensures r.Some? && r.value.installDir.Some? ==> Get(v, "installDir") == Some(Str(r.value.installDir.value))
  {
    if !v.Object? then None
    else
      var f := v.fields;
      var id, name, summary, version := OptionalString(f, "id"), OptionalString(f, "name"),
        OptionalString(f, "summary"), OptionalString(f, "version");
      var description, author, homepage := OptionalString(f, "description"),
        OptionalString(f, "author"), OptionalString(f, "homepage");
      var transports, config, installDir := OptionalTransports(f, "transports"),
        DefaultMap(f, "config"), OptionalString(f, "installDir");
      var categories, capabilities, permissions, tools := DefaultStrings(f, "categories"),
        DefaultStrings(f, "capabilities"), DefaultStrings(f, "permissions"), DefaultValues(f, "tools");
      if id.None? || name.None? || summary.None? || version.None? || description.None?
         || author.None? || homepage.None? || transports.None? || config.None? || installDir.None?
         || categories.None? || capabilities.None? || permissions.None? || tools.None?
      then None
      else Some(Manifest(id.value, name.value, summary.value, version.value, description.value,
                         author.value, homepage.value, transports.value, config.value, installDir.value,
                         categories.value, capabilities.value, permissions.value, tools.value))
  }

  /** Every field may be absent: the empty object is a manifest with nothing set and every list empty. */
  lemma EmptyManifest()
    ensures DecodeManifest(Object(map[])) == Some(Manifest(None, None, None, None, None, None, None, None,
                                                            map[], None, [], [], [], []))
  {
  }

  /** Serialises a manifest with camelCase keys; `None` becomes null, as serde writes it. */
  function EncodeManifest(m: Manifest): (r: Json)
    ensures r.Object?
  {
    Object(map[
      "id" := EncodeOption(m.id), "name" := EncodeOption(m.name),
      "summary" := EncodeOption(m.summary), "version" := EncodeOption(m.version),
      "description" := EncodeOption(m.description), "author" := EncodeOption(m.author),
      "homepage" := EncodeOption(m.homepage),
      "transports" := (match m.transports case None => Null case Some(ts) => Array(EncodeTransports(ts))),
      "config" := Object(m.config), "installDir" := EncodeOption(m.installDir),
      "categories" := Array(EncodeStrings(m.categories)),
      "capabilities" := Array(EncodeStrings(m.capabilities)),
      "permissions" := Array(EncodeStrings(m.permissions)),
      "tools" := Array(m.tools)])
  }

  lemma OptionRoundTrip(f: map<string, Json>, key: string, o: Option<string>)
    requires key in f && f[key] == EncodeOption(o)
    ensures OptionalString(f, key) == Some(o)
  {
  }

  /** The decoder only looks at the fourteen fields; when each reads back, so does the record. */
  lemma DecodeFromFields(f: map<string, Json>, m: Manifest)
    requires OptionalString(f, "id") == Some(m.id) && OptionalString(f, "name") == Some(m.name)
    requires OptionalString(f, "summary") == Some(m.summary) && OptionalString(f, "version") == Some(m.version)
    requires OptionalString(f, "description") == Some(m.description) && OptionalString(f, "author") == Some(m.author)
    requires OptionalString(f, "homepage") == Some(m.homepage) && OptionalString(f, "installDir") == Some(m.installDir)
    requires OptionalTransports(f, "transports") == Some(m.transports) && DefaultMap(f, "config") == Some(m.config)
    requires DefaultStrings(f, "categories") == Some(m.categories)
    requires DefaultStrings(f, "capabilities") == Some(m.capabilities)
    requires DefaultStrings(f, "permissions") == Some(m.permissions)
    requires DefaultValues(f, "tools") == Some(m.tools)
    ensures DecodeManifest(Object(f)) == Some(m)
  {
  }

  /** The converse of `DecodeFromFields`: a decoded record holds what each field reads as. */
  lemma FieldsOfDecoded(f: map<string, Json>)
    requires DecodeManifest(Object(f)).Some?
    ensures var m := DecodeManifest(Object(f)).value;
      && OptionalString(f, "id") == Some(m.id) && OptionalString(f, "name") == Some(m.name)
      && OptionalString(f, "summary") == Some(m.summary) && OptionalString(f, "version") == Some(m.version)
      && OptionalString(f, "description") == Some(m.description) && OptionalString(f, "author") == Some(m.author)
      && OptionalString(f, "homepage") == Some(m.homepage) && OptionalString(f, "installDir") == Some(m.installDir)
      && OptionalTransports(f, "transports") == Some(m.transports) && DefaultMap(f, "config") == Some(m.config)
      && DefaultStrings(f, "categories") == Some(m.categories)
      && DefaultStrings(f, "capabilities") == Some(m.capabilities)
      && DefaultStrings(f, "permissions") == Some(m.permissions)
      && DefaultValues(f, "tools") == Some(m.tools)
  {
  }

  /** The keys of the manifest's `Option` fields. */
  const OptionalKeys: set<string> := {"id", "name", "summary", "version", "description", "author", "homepage", "transports", "installDir"}

  /** Removing `Option` keys leaves the defaulted fields as they read before. */
  lemma DefaultedFieldsKept(f: map<string, Json>, absent: set<string>)
    requires absent <= OptionalKeys
    ensures DefaultMap(f - absent, "config") == DefaultMap(f, "config")
    ensures DefaultStrings(f - absent, "categories") == DefaultStrings(f, "categories")
    ensures DefaultStrings(f - absent, "capabilities") == DefaultStrings(f, "capabilities")
    ensures DefaultStrings(f - absent, "permissions") == DefaultStrings(f, "permissions")
    ensures DefaultValues(f - absent, "tools") == DefaultValues(f, "tools")
  {
    assert "config" !in OptionalKeys && "categories" !in OptionalKeys && "capabilities" !in OptionalKeys;
    assert "permissions" !in OptionalKeys && "tools" !in OptionalKeys;
  }

  /** An `Option` field reads as `None` once its key is removed, and as before otherwise. */
  lemma OptionalFieldCleared(f: map<string, Json>, absent: set<string>, k: string)
    ensures OptionalString(f - absent, k) == if k in absent then Some(None) else OptionalString(f, k)
    ensures OptionalTransports(f - absent, k) == if k in absent then Some(None) else OptionalTransports(f, k)
  {
  }

  /** `m` with the `Option` fields named in `absent` set to `None`. */
  function Cleared(m: Manifest, absent: set<string>): Manifest {
    m.(id := if "id" in absent then None else m.id,
       name := if "name" in absent then None else m.name,
       summary := if "summary" in absent then None else m.summary,
       version := if "version" in absent then None else m.version,
       description := if "description" in absent then None else m.description,
       author := if "author" in absent then None else m.author,
       homepage := if "homepage" in absent then None else m.homepage,
       transports := if "transports" in absent then None else m.transports,
       installDir := if "installDir" in absent then None else m.installDir)
  }

  /**
   * Dropping any of the `Option` fields' keys from a manifest leaves it
   * decodable, with the dropped fields `None` and every other field as before.
   */
  lemma OptionalKeysMayBeAbsent(f: map<string, Json>, absent: set<string>)
    requires absent <= OptionalKeys
    requires DecodeManifest(Object(f)).Some?
    ensures DecodeManifest(Object(f - absent)) == Some(Cleared(DecodeManifest(Object(f)).value, absent))
  {
    FieldsOfDecoded(f);
    DefaultedFieldsKept(f, absent);
    OptionalFieldCleared(f, absent, "id");
    OptionalFieldCleared(f, absent, "name");
    OptionalFieldCleared(f, absent, "summary");
    OptionalFieldCleared(f, absent, "version");
    OptionalFieldCleared(f, absent, "description");
    OptionalFieldCleared(f, absent, "author");
    OptionalFieldCleared(f, absent, "homepage");
    OptionalFieldCleared(f, absent, "transports");
    OptionalFieldCleared(f, absent, "installDir");
    DecodeFromFields(f - absent, Cleared(DecodeManifest(Object(f)).value, absent));
  }

  lemma EncodedNamesDecode(m: Manifest)
    ensures var f := EncodeManifest(m).fields;
      && OptionalString(f, "id") == Some(m.id) && OptionalString(f, "name") == Some(m.name)
      && OptionalString(f, "summary") == Some(m.summary) && OptionalString(f, "version") == Some(m.version)
  {
    var f := EncodeManifest(m).fields;
    OptionRoundTrip(f, "id", m.id);
    OptionRoundTrip(f, "name", m.name);
    OptionRoundTrip(f, "summary", m.summary);
    OptionRoundTrip(f, "version", m.version);
  }

  lemma EncodedDetailsDecode(m: Manifest)
    ensures var f := EncodeManifest(m).fields;
      && OptionalString(f, "description") == Some(m.description) && OptionalString(f, "author") == Some(m.author)
      && OptionalString(f, "homepage") == Some(m.homepage) && OptionalString(f, "installDir") == Some(m.installDir)
  {
    var f := EncodeManifest(m).fields;
    OptionRoundTrip(f, "description", m.description);
    OptionRoundTrip(f, "author", m.author);
    OptionRoundTrip(f, "homepage", m.homepage);
    OptionRoundTrip(f, "installDir", m.installDir);
  }

  lemma ListRoundTrip(f: map<string, Json>, key: string, ss: seq<string>)
    requires key in f && f[key] == Array(EncodeStrings(ss))
    ensures DefaultStrings(f, key) == Some(ss)
  {
    StringsRoundTrip(ss);
  }

  lemma TransportListRoundTrip(f: map<string, Json>, key: string, o: Option<seq<Transport>>)
    requires key in f
    requires f[key] == (match o case None => Null case Some(ts) => Array(EncodeTransports(ts)))
    ensures OptionalTransports(f, key) == Some(o)
  {
    if o.Some? {
      TransportsRoundTrip(o.value);
    }
  }

  lemma EncodedSettingsDecode(m: Manifest)
    ensures var f := EncodeManifest(m).fields;
      && OptionalTransports(f, "transports") == Some(m.transports) && DefaultMap(f, "config") == Some(m.config)
      && DefaultValues(f, "tools") == Some(m.tools)
  {
    var f := EncodeManifest(m).fields;
    TransportListRoundTrip(f, "transports", m.transports);
  }

  lemma EncodedListsDecode(m: Manifest)
    ensures var f := EncodeManifest(m).fields;
      && DefaultStrings(f, "categories") == Some(m.categories)
      && DefaultStrings(f, "capabilities") == Some(m.capabilities)
      && DefaultStrings(f, "permissions") == Some(m.permissions)
  {
    var f := EncodeManifest(m).fields;
    ListRoundTrip(f, "categories", m.categories);
    ListRoundTrip(f, "capabilities", m.capabilities);
    ListRoundTrip(f, "permissions", m.permissions);
  }

  /** Every manifest reads back as itself from what serde writes for it. */
  lemma ManifestRoundTrip(m: Manifest)
    ensures DecodeManifest(EncodeManifest(m)) == Some(m)
  {
    EncodedNamesDecode(m);
    EncodedDetailsDecode(m);
    EncodedSettingsDecode(m);
    EncodedListsDecode(m);
    DecodeFromFields(EncodeManifest(m).fields, m);
  }

  // ----- Index -----

  /** An entry needs a string `location`; other keys are ignored. */
  function DecodeEntry(v: Json): (r: Option<IndexEntry>)
    ensures r.Some? <==> v.Object? && "location" in v.fields && v.fields["location"].Str?
    ensures r.Some? ==> r.value.location == v.fields["location"].s
  {
    if v.Object? then
      match RequiredString(v.fields, "location")
      case Some(l) => Some(IndexEntry(l))
      case None => None
    else None
  }

  /**
   * Deserialises an index: `servers` is required and must be an object whose
   * every member decodes as an entry; one bad entry fails the whole index.
   * Keys other than `servers` (`version`, `updated`) are ignored.
   */
  function DecodeIndex(v: Json): (r: Option<Index>)
    ensures r.Some? <==> v.Object? && "servers" in v.fields && v.fields["servers"].Object?
                         && forall k :: k in v.fields["servers"].fields ==> DecodeEntry(v.fields["servers"].fields[k]).Some?
    ensures r.Some? ==> r.value.servers.Keys == v.fields["servers"].fields.Keys
    ensures r.Some? ==> forall k :: k in r.value.servers ==>
              Some(r.value.servers[k]) == DecodeEntry(v.fields["servers"].fields[k])
  {
    if v.Object? && "servers" in v.fields && v.fields["servers"].Object? then
      var s := v.fields["servers"].fields;
      if forall k :: k in s ==> DecodeEntry(s[k]).Some? then
        Some(Index(map k | k in s :: DecodeEntry(s[k]).value))
      else None
    else None
  }

  /** Extra top-level keys, such as the `version` and `updated` the installer writes, do not change the decoded index. */
  lemma IndexIgnoresExtraKeys(f: map<string, Json>, key: string, x: Json)
    requires key != "servers"
    ensures DecodeIndex(Object(f[key := x])) == DecodeIndex(Object(f))
  {
  }

  /** An entry without a string `location` makes the whole index undecodable. */
  lemma IndexEntryWithoutLocation(v: Json, id: string)
    requires v.Object? && "servers" in v.fields && v.fields["servers"].Object?
    requires id in v.fields["servers"].fields
    requires Get(v.fields["servers"].fields[id], "location").None?
    ensures DecodeIndex(v) == None
  {
  }
}
