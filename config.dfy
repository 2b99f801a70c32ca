/**
 * Setting one configuration value of an installed server. The manifest is
 * edited as untyped JSON, so every field the typed manifest does not know
 * survives the edit.
 */
module Config {
  import opened Wrappers
  import opened JsonValues
  import opened FileSystem
  import opened Models

  datatype SetConfigError =
    | ServerNotFound
    | InvalidManifest
    | ReadFailed
    | ParseFailed
    | SerializeFailed
    | WriteFailed(path: Path)

  /**
   * The JSON edit: a missing `config` is first created as `{}`; a `config`
   * that is present but not an object (null included) makes the edit fail
   * (`None`); otherwise `config[key]` becomes the string `value`.
   */
  function WithConfigValue(v: Json, key: string, value: string): Option<Json>
    requires Indexable(v)
  {
    var m := if Get(v, "config").None? then Set(v, "config", Object(map[])) else v;
    if !m.fields["config"].Object? then None
    else Some(Set(m, "config", Object(m.fields["config"].fields[key := Str(value)])))
  }

  /**
   * The edit fails exactly when `config` is present and not an object; when
   * it succeeds, `config[key]` is `value`, every other config entry is kept
   * and every top-level field other than `config` is untouched.
   */
  lemma WithConfigValueFacts(v: Json, key: string, value: string)
    requires Indexable(v)
    ensures var r := WithConfigValue(v, key, value);
      && (r.None? <==> Get(v, "config").Some? && !Get(v, "config").value.Object?)
      && (r.Some? ==>
            && r.value.Object?
            && Get(r.value, "config").Some? && r.value.fields["config"].Object?
            && Get(r.value.fields["config"], key) == Some(Str(value))
            && (forall k :: k != key ==>
                  Get(r.value.fields["config"], k) == (if Get(v, "config").Some? then Get(v.fields["config"], k) else None))
            && (forall k :: k != "config" ==> Get(r.value, k) == Get(v, k)))
  {
  }

  /** Setting the same key to the same value twice gives the manifest that setting it once gives. */
  lemma WithConfigValueIdempotent(v: Json, key: string, value: string)
    requires Indexable(v)
    requires WithConfigValue(v, key, value).Some?
    ensures var once := WithConfigValue(v, key, value).value;
      Indexable(once) && WithConfigValue(once, key, value) == Some(once)
  {
    var once := WithConfigValue(v, key, value).value;
    var c := once.fields["config"].fields;
    assert c[key := Str(value)] == c;
    assert once.fields["config" := Object(c)] == once.fields;
  }

  /** Two member maps that differ at most in `config` decode to the same other manifest fields. */
  lemma OtherFieldsDecodeAlike(f: map<string, Json>, g: map<string, Json>)
    requires forall k :: k != "config" ==> (k in g <==> k in f) && (k in f ==> g[k] == f[k])
    ensures OptionalString(g, "id") == OptionalString(f, "id") && OptionalString(g, "name") == OptionalString(f, "name")
    ensures OptionalString(g, "summary") == OptionalString(f, "summary") && OptionalString(g, "version") == OptionalString(f, "version")
    ensures OptionalString(g, "description") == OptionalString(f, "description") && OptionalString(g, "author") == OptionalString(f, "author")
    ensures OptionalString(g, "homepage") == OptionalString(f, "homepage") && OptionalString(g, "installDir") == OptionalString(f, "installDir")
    ensures OptionalTransports(g, "transports") == OptionalTransports(f, "transports")
    ensures DefaultStrings(g, "categories") == DefaultStrings(f, "categories")
    ensures DefaultStrings(g, "capabilities") == DefaultStrings(f, "capabilities")
    ensures DefaultStrings(g, "permissions") == DefaultStrings(f, "permissions")
    ensures DefaultValues(g, "tools") == DefaultValues(f, "tools")
  {
  }

  /** Read back through the typed manifest, the edit changes only `config`, and there only `key`. */
  lemma WithConfigValueDecodes(v: Json, key: string, value: string)
    requires DecodeManifest(v).Some?
    ensures Indexable(v)
    ensures WithConfigValue(v, key, value).Some?
    ensures DecodeManifest(WithConfigValue(v, key, value).value)
         == Some(DecodeManifest(v).value.(config := DecodeManifest(v).value.config[key := Str(value)]))
  {
    var f := v.fields;
    var c := DecodeManifest(v).value.config;
    var f' := f["config" := Object(c[key := Str(value)])];
    if "config" !in f {
      assert f["config" := Object(map[])]["config" := Object(c[key := Str(value)])] == f';
    }
    assert WithConfigValue(v, key, value) == Some(Object(f'));
    assert forall k :: k != "config" ==> (k in f' <==> k in f) && (k in f ==> f'[k] == f[k]);
    assert DefaultMap(f', "config") == Some(c[key := Str(value)]);
    OtherFieldsDecodeAlike(f, f');
  }

  /** The edit cannot panic on the manifest at `p`. */
  predicate ConfigSafe(fs: FileSystem, p: Path) {
    p in fs.docs && fs.docs[p].Parsed? ==> Indexable(fs.docs[p].value)
  }

  /**
   * `set_config_value`. `manifestPath` is what the (separately defined)
   * manifest lookup answers for the server id. An unknown server, an
   * unreadable or unparsable manifest and an invalid `config` fail before
   * anything is written; a failed write names the manifest path.
   */
  method SetConfigValue(fs: FileSystem, host: Host, manifestPath: Option<Path>, key: string, value: string)
    returns (r: Result<(), SetConfigError>, fs': FileSystem)
    requires manifestPath.Some? ==> ConfigSafe(fs, manifestPath.value)
    ensures manifestPath.None? ==> r == Err(ServerNotFound) && fs' == fs
    ensures manifestPath.Some? ==>
      var p := manifestPath.value;
      && (p !in fs.docs ==> r == Err(ReadFailed) && fs' == fs)
      && (p in fs.docs && fs.docs[p].Unparsable? ==> r == Err(ParseFailed) && fs' == fs)
      && (p in fs.docs && fs.docs[p].Parsed? ==>
            var edited := WithConfigValue(fs.docs[p].value, key, value);
            && (edited.None? ==> r == Err(InvalidManifest) && fs' == fs)
            && (edited.Some? && p in host.faulty ==> r == Err(WriteFailed(p)) && fs' == fs)
            && (edited.Some? && p !in host.faulty ==> r == Ok(()) && fs' == WriteDoc(fs, p, edited.value)))
  {
    if manifestPath.None? {
      return Err(ServerNotFound), fs;
    }
    var p := manifestPath.value;
    if p !in fs.docs {
      return Err(ReadFailed), fs;
    }
    if fs.docs[p].Unparsable? {
      return Err(ParseFailed), fs;
    }
    var manifest := fs.docs[p].value;
    ghost var original := manifest;
    if Get(manifest, "config").None? {
      manifest := Set(manifest, "config", Object(map[]));
    }
    var config := manifest.fields["config"];
    if !config.Object? {
      return Err(InvalidManifest), fs;
    }
    manifest := Set(manifest, "config", Object(config.fields[key := Str(value)]));
    assert WithConfigValue(original, key, value) == Some(manifest);
    if p in host.faulty {
      return Err(WriteFailed(p)), fs;
    }
    return Ok(()), WriteDoc(fs, p, manifest);
  }
}
