# dmcp installation state, in Dafny

A model of the local installation-state engine of `dmcp`, a command-line
manager for MCP servers. Servers are installed per scope, either the user
scope or the system scope. Each scope keeps an `index.json` that maps server
ids to manifest locations, and each server has one `manifest.json`. The model
covers the following:

- **Discovery** (`discovery.dfy`). Reads both scopes, tolerates unreadable
  files, lets user entries win and sorts by id.
- **Index edits and their commit** (`install.dfy`). Covers the direct write,
  the elevated write and the temporary file copied by `pkexec cp`, plus
  `install`, `uninstall` and the registry search.
- **Timestamp arithmetic** (`datetime.dfy`). The arithmetic behind the
  `updated` timestamp.
- **Config-set** (`config.dfy`). Sets one key of a raw JSON manifest.
- **Connect** (`connect.dfy`). Picks the transport from the URL scheme,
  generates the next numbered id and writes a fixed-default manifest.
- **Sources** (`sources.dfy`). Reads the line-oriented sources files and
  merges them, keeping the first occurrence of each URL.
- **Typed records** (`models.dfy`). The records and their JSON form.
- **Browse** (`browse.dfy`). Shapes and aggregates registry listings.
- **Paths** (`paths.dfy`). The rule that picks each path.

The host is a value.

- A `FileSystem` maps paths to parsed JSON documents or an `Unparsable`
  marker. It also holds the text of the sources lists and the set of created
  directories.
- Every operation takes the file system and returns the new one.
- The operating system's answers are a `Host` record: privilege level, the
  paths on which a write or removal fails, the temporary file, the exit status
  of `pkexec` and the current time text.
- HTTP is a `Web` record: whether the client builds, and what a GET of each
  URL answers.

The loops of the source are methods. Each method is proved equal to a
specification function. The properties are then proved about that function.
For example, `Install.Commit` computes the same result as
`Install.CommitOutcome`, and `Install.CommitFacts` states what a commit
changes.

`text.dfy`, `json.dfy`, `filesystem.dfy`, `network.dfy` and `wrappers.dfy`
model the parts of the Rust standard library, serde_json and reqwest that
the program relies on:

- `str::trim`, `str::lines`, `u32::from_str` and `String` ordering;
- `Value::get` and `v[k] = x`;
- `PathBuf::join`;
- `StatusCode::is_success`.

### Behaviour of the code worth knowing

- **Temporary file on spawn failure.** When `pkexec` cannot be started, the
  `?` at `src/install.rs:190` (and again at `:305`) returns before the
  `remove_file` at `:191` (`:306`), so the temporary index file stays behind.
  `Install.CommitOutcome` models this, and `Install.CommitFacts` states it.
- **Connect takes only a URL.** `connect` takes only a URL
  (`src/connect.rs:9-17`). There is no manifest-fetching mode and no id
  override, and `Connect.Connect` models exactly that.

## Model

| member | source | states |
|---|---|---|
| Models.DecodeTransport | src/models.rs:44-65 | Among JSON objects, a transport decodes only from one with a `"type"` tag. The variant is the tag `"stdio"`, `"sse"` or `"websocket"`. A websocket's URL comes from `"wsUrl"`. Any other tag fails. |
| Models.TransportRoundTrip | src/models.rs:44-65 | Every transport, written with its tag and renamed keys, decodes back to itself. |
| Models.TransportsRoundTrip | src/models.rs:30 | A list of transports decodes back to itself, element by element. |
| Models.StringsRoundTrip | src/models.rs:35-39 | A list of strings decodes back to itself. |
| Models.DecodeManifest | src/models.rs:17-42 | Among JSON objects (the array form is not modelled), a manifest decodes as follows. A missing `config` is an empty map. Missing `categories`, `capabilities`, `permissions` and `tools` are empty lists. The install directory is read from the camelCase key `installDir`, and a missing one is `None`. |
| Models.EmptyManifest | src/models.rs:17-42 | The empty object decodes: every `Option` field is `None`, `config` is empty and every list is empty. |
| Models.OptionalKeysMayBeAbsent | src/models.rs:20-33 | Removing any of the keys of the `Option` fields (`id`, `name`, `summary`, `version`, `description`, `author`, `homepage`, `transports`, `installDir`) from a decodable manifest leaves it decodable, with just those fields `None`. |
| Models.ManifestRoundTrip | src/models.rs:17-42 | Every manifest, written with camelCase keys, decodes back to itself, with every optional field kept as it was. |
| Models.DecodeEntry | src/models.rs:11-14 | Among JSON objects, an index entry decodes exactly when it has a string `location`. Arrays are rejected. |
| Models.DecodeIndex | src/models.rs:6-9 | Among JSON objects, an index decodes exactly when `servers` is an object whose every member decodes as an entry. The decoded map has the same keys, and each value is that member decoded. |
| Models.IndexIgnoresExtraKeys | src/models.rs:6-9 | Top-level keys other than `servers` (the `version` and `updated` the installer writes) do not change the decoded index. |
| Models.IndexEntryWithoutLocation | src/models.rs:11-14 | With entries decoded from objects only, one entry without a string `location` makes the whole index undecodable. |
| Discovery.TransportTypeName | src/discovery.rs:130-137 | The name shown for a transport is one of `stdio`, `sse` and `websocket`. It is exactly the `"type"` tag the transport carries on disk. |
| Discovery.InfoMatchesDocument | src/discovery.rs:107-120 | The listed record is read off the manifest document. The id is the document's `id` string, else the index key. The name is `name`, else `"Unknown"`. The version is `version`, else `"?"`. The transport is the first transport's tag, else `"unknown"`. |
| Discovery.ListingOf | src/discovery.rs:83-121 | A scope lists at most one record per index key, and every record carries that scope. |
| Discovery.ListingMembers | src/discovery.rs:84-105 | A record is listed exactly when it comes from a key whose manifest can be read and decoded. A failing key is skipped without affecting the others. |
| Discovery.LoadFromScope | src/discovery.rs:56-128 | An unreadable index gives an empty list. An index that does not parse or decode gives `None`. Otherwise the result is the listing of the index keys, in the order the map is visited. |
| Discovery.PutAllFacts | src/discovery.rs:33-35 | Inserting records keeps the map keyed by id and holds exactly the old keys plus the records' ids. Each value is an old one or one of the records. |
| Discovery.PutAbsentFacts | src/discovery.rs:43-45 | `or_insert` never replaces a present entry, and adds only ids that were absent, with one of the records. |
| Discovery.UserWins | src/discovery.rs:26-49 | Precedence: every user id keeps its user record. A system record appears only under an id the user scope lacks. The merged ids are exactly the ids of both scopes. |
| Discovery.PutAllDistinct | src/discovery.rs:33-35 | When ids are distinct, every record is found under its own id after insertion. |
| Discovery.InsertById | src/discovery.rs:52 | Inserting into the sorted output adds exactly that record (as a multiset). |
| Discovery.InsertSorted | src/discovery.rs:52 | Inserting a record with a new id into a list sorted by id keeps it sorted. |
| Discovery.SortById | src/discovery.rs:52 | Sorting is a permutation of its input. |
| Discovery.SortedWhenDistinct | src/discovery.rs:51-52 | A list with distinct ids comes out strictly ascending by id. |
| Discovery.InsertAll | src/discovery.rs:33-35 | The user loop builds exactly the map of repeated inserts. |
| Discovery.InsertAbsent | src/discovery.rs:43-45 | The system loop builds exactly the map of repeated `or_insert`s. |
| Discovery.Values | src/discovery.rs:51 | Collecting the map's values gives one record per key, with distinct ids, each stored under its own id. |
| Discovery.ListServers | src/discovery.rs:28-54 | The output is sorted ascending by id. It is exactly the merge of the included scopes, with each id once and user entries winning. Without `user` no user record appears, and without `system` no system record appears. |
| Install.ScopeFromRegistryServer | src/install.rs:65-72 | The system scope is chosen exactly when `scope` is the string `"system"`. An absent `scope` means user. |
| Install.CommitFacts | src/install.rs:179-200 | A commit either puts the document at the target or leaves the target as it was. It touches no other file except the temporary one. A user-scope or elevated commit changes only the target. After `pkexec` exits the temporary file is gone, and after a spawn failure it is left with the new content. The commit succeeds exactly when the direct write's target is not failing, or, through `pkexec`, when the temporary file can be written and `pkexec cp` exits with success; a non-zero exit or a spawn failure is a failure, which the callers report as `WriteIndex`. |
| Install.Commit | src/install.rs:179-200 | The commit method computes `CommitOutcome`. |
| Install.AddedIndexFacts | src/install.rs:171-175 | The add edit sets `servers[id]` to `{"location": path}` and refreshes `updated`. It keeps every other entry and every other top-level key. A missing `servers` is created. |
| Install.AddedIndexDecodes | src/install.rs:168-175 | Decoded, the add edit inserts or replaces exactly the one entry. |
| Install.FreshIndexHoldsOneEntry | src/install.rs:168 | Starting from the default `{"servers":{},"version":"1.0"}`, the index holds just the new entry. |
| Install.RemovedIndexFacts | src/install.rs:286-291 | The remove edit drops only `servers[id]`, whether or not it was there, and still refreshes `updated`. Every other key is kept, and a non-object `servers` is left alone. |
| Install.RemovedIndexDecodes | src/install.rs:286-291 | Decoded, the remove edit removes exactly the one entry, if present. |
| Install.RemoveIdempotent | src/install.rs:286-291 | Removing the same id twice with the same time is the same as removing it once. |
| Install.AddThenRemove | src/install.rs:168-175 | Adding a new id and then removing it gives back the decoded index it started from. |
| Install.AddVisible | src/install.rs:157-203 | After `update_index_add` succeeds, discovery reads the scope's index as the old entries plus the new one. From an unreadable index it reads just the new entry. A failed add leaves the index file unchanged. |
| Install.UpdateIndexAdd | src/install.rs:157-203 | The method computes `AddOutcome`. An unparsable index is `ParseIndex` with nothing written. A failed commit is `WriteIndex`. |
| Install.RemoveVisible | src/install.rs:281-318 | An unreadable index is `ReadIndex` with nothing changed. A failed remove leaves the index file unchanged. After success, discovery reads the old entries minus `id`. |
| Install.UpdateIndexRemove | src/install.rs:281-318 | The method computes `RemoveOutcome`. Unlike the add, an unreadable index is an error. |
| Install.Uninstall | src/install.rs:245-279 | An unknown id is `ServerNotFound` with nothing changed. A failed directory removal is `RmFailed` with nothing changed. Otherwise the directory tree is removed first. Then the index is edited: the user index when the manifest path starts with the user install directory by `Path::starts_with`, the system index otherwise, written the way the scope demands. |
| Install.UninstallIndexCurDir | src/install.rs:270-274 | The index choice compares components as `Path::components` gives them, so a leading `.` counts: with the user install directory written `./inst`, a manifest path written `inst/...` sends the edit to the system index. |
| Install.FirstWithId | src/install.rs:96-100 | The entry found has the wanted string `id`. None is found exactly when no entry has it. |
| Install.FirstWithIdAt | src/install.rs:96-100 | The entry found is the earliest match. |
| Install.Query | src/install.rs:86-100 | An answer from one source is always a server with the wanted id. |
| Install.QueryErrors | src/install.rs:85-93 | A source ends the search with `FetchFailed` exactly when the request fails to send or a 2xx body is not JSON, and with `InvalidRegistry` exactly when a 2xx JSON body has no `servers` array. |
| Install.SkippedIsNoAnswer | src/install.rs:87-100 | A source is passed over exactly when its reply is not 2xx, or its registry has no matching entry. |
| Install.Scan | src/install.rs:85-103 | A server returned by the search has the wanted id. |
| Install.ScanSkips | src/install.rs:85-103 | Sources that are passed over do not affect the result. |
| Install.ScanNotFound | src/install.rs:85-103 | `ServerNotFound` is returned exactly when every source is passed over. |
| Install.FindServer | src/install.rs:96-100 | The inner loop returns the first entry with the wanted id. |
| Install.QuerySource | src/install.rs:86-100 | The body of the source loop: a send failure or non-JSON body is `FetchFailed`, a non-2xx reply is skipped, a registry without a `servers` array is `InvalidRegistry`, and a match ends the search. |
| Install.FetchServerFromRegistry | src/install.rs:74-104 | No sources is `NoSources`. A client that cannot be built is `HttpClient`. Otherwise the sources of both scopes are searched in order, and the first answer decides. |
| Install.ScanSources | src/install.rs:85-103 | The source loop computes the in-order search. |
| Install.StageStdio | src/install.rs:105-139 | Staging fails with `InvalidRegistry` whenever `source` is not an object with a string `url`: absent, null, a number, an array, a string, or an object without one. With a valid `source`, a failed temporary directory is `CreateDir`, a failed clone `GitFailed`, a missing subpath `InvalidRegistry` and a failed copy `CopyFailed`. It succeeds exactly when the source is valid and every step succeeds. |
| Install.InstalledManifest | src/install.rs:48-52 | The installed manifest has `installDir` set. `config` is kept when present, and set to `{}` when absent. Every other field is kept. |
| Install.InstalledManifestDecodes | src/install.rs:48-52 | The installed manifest decodes with that install directory and, when absent before, an empty config. |
| Install.ManifestIsNotIndex | src/install.rs:54 | A server's manifest path is never the scope's index path. |
| Install.RecordFacts | src/install.rs:54-59 | A failed manifest write changes nothing. After success the manifest is in place, and discovery reads the index with the new entry added to what it held (or with just that entry). |
| Install.InstallFacts | src/install.rs:24-59 | A failed directory creation changes nothing. A missing, non-array or empty `transports` is `InvalidRegistry`, and a first type other than `stdio`, `sse` and `websocket` is `UnsupportedTransport`, both with only the directory created. Failed stdio staging returns the staging error, again with only the directory created. Otherwise the manifest and index steps follow. |
| Install.InstallServer | src/install.rs:24-61 | The steps after fetching compute `InstallOutcome`. |
| Install.Record | src/install.rs:54-59 | The manifest write followed by the index add computes `RecordOutcome`. |
| Install.Install | src/install.rs:13-62 | A failed fetch is returned with nothing changed. Otherwise the given or fetched entry is installed as `InstallOutcome` describes. |
| DateTime.Rem | src/install.rs:357 | Rust's signed `%`: the remainder takes the sign of the dividend and is smaller in size than the divisor. |
| DateTime.AsU32 | src/install.rs:358-360 | `as u32` gives a value below 2^32, and leaves a value already in range unchanged. |
| DateTime.MonthDayBounds | src/install.rs:376-386 | `doy_to_md` gives a month in 1..12 and a day within that month's non-leap length. The fallback `(12, 31)` is included. |
| DateTime.MonthDayExact | src/install.rs:376-386 | Below 365 the day number is the days of the earlier months plus the day, less one. |
| DateTime.MonthDayFallback | src/install.rs:385 | From day number 365 on, the answer is `(12, 31)`. |
| DateTime.DaysBeforeYear | src/install.rs:377 | The month table adds up to 365 days. |
| DateTime.DoyToMd | src/install.rs:376-386 | The loop that subtracts month lengths computes the month and day function. |
| DateTime.DaysToYmd | src/install.rs:365-374 | The month and day are in range. |
| DateTime.DayOfYearRange | src/install.rs:366-371 | From the epoch on, the day of the era is in 0..146096, the day of the year in 0..365, and nothing overflows. |
| DateTime.EraDayRange | src/install.rs:369-371 | The civil-from-days step keeps the day of the year in 0..365 for every day of an era. |
| DateTime.EpochToDateTime | src/install.rs:355-363 | hour < 24, minute < 60, second < 60, and the month and day are in range. |
| DateTime.EpochFieldBounds | src/install.rs:355-363 | Every non-negative `i64` second count converts, with every field in range and a year of at least 0. |
| Config.WithConfigValueFacts | src/config.rs:14-24 | The edit fails exactly when `config` is present and not an object, null included. On success, `config[key]` is the string value. Every other config key and every other top-level field is unchanged. |
| Config.WithConfigValueIdempotent | src/config.rs:24 | Setting the same key and value twice gives the manifest that setting it once gives. |
| Config.WithConfigValueDecodes | src/config.rs:6-24 | Read through the typed manifest, the edit changes only `config[key]`. |
| Config.SetConfigValue | src/config.rs:8-30 | An unknown server is `ServerNotFound`, an unreadable manifest `ReadFailed`, an unparsable one `ParseFailed` and a bad `config` `InvalidManifest`. In all four cases nothing is written. A failed write is `WriteFailed` carrying the manifest path. Success writes exactly the edited manifest. |
| Connect.TransportKind | src/connect.rs:23-27 | The kind is `websocket` exactly for a `ws://` or `wss://` URL, and `sse` otherwise. |
| Connect.TransportJsonDecodes | src/connect.rs:37-47 | The transport object decodes to a websocket transport carrying the URL under `wsUrl`, or to an SSE transport under `url`. |
| Connect.SuffixOfConnectedId | src/connect.rs:88-95 | The number in a generated id is read back by the suffix parse. |
| Connect.MaxSuffixUnique | src/connect.rs:86-93 | The maximum suffix is unique, so the id does not depend on the map's visiting order. |
| Connect.NextIdIsFresh | src/connect.rs:86-95 | The id after the maximum is not yet a key. |
| Connect.RemoveNonMaximal | src/connect.rs:86-95 | Removing an entry that does not carry the maximum leaves the next id unchanged. |
| Connect.NextIdIncreases | src/connect.rs:86-95 | After the generated id is added, the next one is numbered one higher. |
| Connect.MaxSuffix | src/connect.rs:86-93 | The loop finds the largest suffix among the keys, or 0 when there is none. |
| Connect.NextConnectedServerId | src/connect.rs:74-96 | An unparsable index is `ParseIndex`. Otherwise the result is the prefix followed by one more than the largest suffix in the index. An unreadable index and a missing or non-object `servers` count as empty. |
| Connect.FirstConnectedId | src/connect.rs:80 | An unreadable index numbers the first connected server 1. |
| Connect.ConfigMap | src/connect.rs:49-52 | The config holds exactly the given keys. |
| Connect.ConfigMapLastWins | src/connect.rs:49-52 | Each key holds the string value of its last pair. |
| Connect.BuildConfig | src/connect.rs:49-52 | The loop computes `ConfigMap`. |
| Connect.ConnectedTransport | src/connect.rs:37-47 | The written transport list decodes to the one typed transport. |
| Connect.ConnectedManifestDecodes | src/connect.rs:54-62 | The synthesised manifest decodes to the given metadata or the defaults: the name defaults to the id, the summary to `"Connected via dmcp connect"` and the version to `"1.0.0"`. It also holds the one transport, the install directory and the config. |
| Connect.ConnectedServerListed | src/connect.rs:54-62 | Discovery lists a connected server with its id, its name (default: the id), its version (default `"1.0.0"`) and the transport chosen from the URL. |
| Connect.RegisterFacts | src/connect.rs:35-71 | A failed directory creation or manifest write leaves every document unchanged. On success the result is the id, the directory and manifest exist, and the index holds the entry beside its old ones. |
| Connect.Register | src/connect.rs:35-71 | The directory, manifest and index steps compute `RegisterOutcome`. A failed index update is an `IndexError` carrying the installer's error. |
| Connect.ConnectUrl | src/connect.rs:29-71 | The id is the next free numbered id (the maximum suffix plus one, not yet a key), and the URL is registered under it. |
| Connect.Connect | src/connect.rs:9-72 | A URL that trims to nothing is `InvalidUrl` before anything is read or written. Otherwise the trimmed URL is registered under a fresh id, one above the largest suffix. |
| Text.TrimIdempotent | src/sources.rs:47-48 | A trimmed line is left alone by a second trim, so the kept lines are already trimmed. |
| Text.ParseDecimal | src/connect.rs:88-95 | `u32::from_str` reads back what `{}` prints for every u32, so the suffix of a generated id parses to its number. |
| Text.LessIrreflexive | src/discovery.rs:52 | The `String` ordering used by the sort is irreflexive. |
| Text.LessTransitive | src/discovery.rs:52 | The `String` ordering used by the sort is transitive. |
| Text.LessAsymmetric | src/discovery.rs:52 | The `String` ordering used by the sort is asymmetric. |
| Text.LessTotal | src/discovery.rs:52 | Two different strings are ordered one way or the other. |
| Sources.KeptLinesTrimmed | src/sources.rs:45-50 | Every line kept is trimmed already, not empty and does not start with `#`. |
| Sources.KeptLinesAppend | src/sources.rs:45-50 | Filtering respects concatenation, so kept lines stay in file order. |
| Sources.KeptLinesMembers | src/sources.rs:45-50 | A URL is kept exactly when some line of the file trims to it and it is not empty or a comment. |
| Sources.ReadSourcesFile | src/sources.rs:39-51 | An unreadable file gives no URLs. Otherwise the kept lines of its text. |
| Sources.AddNewExtends | src/sources.rs:14-28 | A merge step keeps what was there and adds only new URLs, tagged with its scope. |
| Sources.AddNewDistinct | src/sources.rs:14-28 | A merge step keeps the URLs distinct and loses none. |
| Sources.PushUnseen | src/sources.rs:15-19 | Each loop of `list_sources` computes its merge step, with `seen` holding the URLs pushed so far. |
| Sources.MergeDistinct | src/sources.rs:10-31 | Every URL of the included files appears exactly once. |
| Sources.MergeScopes | src/sources.rs:10-31 | An entry is tagged `User` exactly when its URL is in the user file, so the user scope wins. All user entries come first. |
| Sources.ListSources | src/sources.rs:10-31 | `list_sources` is the merge of the user file's URLs, then the system file's. An excluded scope's file is not read. |
| PathResolution.ResolvePath | src/paths.rs:69-81 | A variable set to something that is not blank wins, trimmed and tilde-expanded. Otherwise the XDG default is used, and failing that, the expanded fallback. |
| PathResolution.Resolve | src/paths.rs:18-46 | Without overrides the system paths are `/etc/mcp/sources.list` and `/usr/share/mcp/installed/`. The user paths are under the platform directories, or the expanded `~/` fallbacks. |
| PathResolution.FieldsUseOwnVariable | src/paths.rs:18-46 | Each of the four paths depends only on its own variable. |
| Browse.ShapeDefaults | src/browse.rs:88-125 | An entry with none of the fields is listed with `"?"`, `"?"`, `""`, `"?"` and `"?"`, and with the registry URL. |
| Browse.ShapeOfManifest | src/browse.rs:88-125 | An entry that is a serialised manifest is shown with the manifest's id, name, summary and version, and its first transport's tag. |
| Browse.TransportLabelOfManifest | src/browse.rs:110-116 | The transport shown for a serialised manifest is its first transport's tag, or `"?"` without one. |
| Browse.Shaped | src/browse.rs:87-126 | One record per element of `servers`, in order. |
| Browse.Registry | src/browse.rs:73-129 | A failed request, a non-2xx status or a body that is not JSON is an error. Without a `servers` array the result is `Ok([])`. Otherwise there is one record per entry, each with `source` equal to the URL. |
| Browse.FetchRegistry | src/browse.rs:73-129 | The loop computes `Registry`. |
| Browse.ListRegistryServersFromUrl | src/browse.rs:29-35 | A client failure is `HttpClient`. A fetch failure is `FetchFailed` with the URL. Otherwise the records. |
| Browse.BrowsedAppend | src/browse.rs:56-68 | Browsing a list of sources is browsing its two halves one after the other. |
| Browse.Failing | src/browse.rs:56-68 | The failing sources are exactly the sources whose fetch fails. |
| Browse.BrowsedErrors | src/browse.rs:61-66 | There is one `FetchFailed` per failing source, in source order, carrying its URL. |
| Browse.BrowsedSources | src/browse.rs:56-68 | Every record comes from a source that answered, and names it. |
| Browse.RepeatedSourceRepeats | src/browse.rs:37-68 | A source listed twice contributes its records twice: nothing is deduplicated. |
| Browse.ListRegistryServers | src/browse.rs:39-71 | A client that cannot be built gives no records and exactly one `HttpClient` error. Otherwise the records and errors of every source, in order. |
| Browse.BrowseAll | src/browse.rs:56-68 | The source loop computes the records and errors of every source. |

## Left out

- JSON text: documents are stored parsed or as `Unparsable`. `to_string_pretty` and `from_str` are not modelled, so the `Serialize`, `SerializeFailed` and `SerializeIndex` errors cannot occur in the model.
- Numbers in JSON are integers: no modelled code inspects one.
- Models.DecodeTransport: only the object form is decoded. The array form that serde's internally tagged visitor also accepts (the tag first, then the variant's fields in order, as in `["sse", "http://h"]`) is rejected.
- Models.DecodeManifest: only the object form is decoded. The array form that a derived struct also accepts (fields in declaration order) is rejected.
- Models.DecodeEntry: only the object form is decoded. The array form `["/path"]` that the derived `IndexEntry` also accepts is rejected.
- Models.DecodeIndex: only the object forms of the index and of its entries are decoded. An index or an entry written as a JSON array is undecodable in the model, so discovery lists nothing from such a scope where the source would.
- Models.IndexEntryWithoutLocation: holds of the object-only decoders. An entry written as the array `["/path"]` has no `location` key, yet the source decodes it.
- `git clone`, the temporary clone directory and `copy_dir_all` in `install_stdio` (`src/install.rs:110-139`): one staging answer (`Staged`, `TempDirFailed`, `CloneFailed`, `SubpathMissing`, `CopyDenied`) stands for them. Files copied into the install directory are not represented.
- Failing writes, directory creations and removals are a set of failing paths on the host. A failing removal changes nothing: partial `remove_dir_all` failures are not modelled.
- The error payloads (`std::io::Error`, `reqwest::Error`, `serde_json::Error`) are dropped. Only the error kind, and the path or URL where the source keeps one, are modelled. `IndexError` keeps the installer's error kind rather than its text.
- `get_uninstall_info` and `get_manifest_path` are not part of this model: their answers are parameters of `Install.Uninstall` and `Config.SetConfigValue`.
- `expand_tilde` (`shellexpand::tilde`) is a function parameter, and the platform directories are parameters of `PathResolution.Resolve`.
- `src/main.rs` (argument parsing, printing, the re-exec under `pkexec` after a permission failure) and `src/elevation.rs` are not part of this model. Elevation is the boolean `Host.elevated`.
- `rfc3339_now`: the clock and the text formatting are not modelled. The timestamp is the text `Host.now`, and only the arithmetic of `epoch_to_datetime` is modelled.
- DateTime.DaysToYmd: only field ranges are claimed, not the calendar date, because the code reads a March-based day of the year off a January table without leap days.
- Concurrency: the read-modify-write of an index has no lock, and the lost update between the read and the write is not modelled.
- Temporary file names are a single `Host.tempIndex`; uniqueness by process id is not modelled.
- Text.Lines splits at every `'\n'` rather than following `str::lines`. That changes only empty pieces and a trailing `'\r'`, and every caller trims each line and drops empty ones.
- Connect.NextConnectedServerId: `max_n + 1` overflowing `u32` is excluded by a precondition that no key carries the suffix `u32::MAX`.
- Discovery.ListServers: the visiting order of a `HashMap` is a ghost out-parameter. Duplicate manifest ids within one scope are resolved by that order, as in the source.
- The debug logging of `list_servers` and `load_from_scope` is left out.
- Panics of serde_json's `v[k] = x` on a non-object document are preconditions: `Install.AddSafe`, `Install.RemoveSafe`, `Config.ConfigSafe` and `Connect.ConnectSafe`.
- The HTTP timeouts and user agent of the client are not modelled.
