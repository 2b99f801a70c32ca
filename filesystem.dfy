/**
 * The part of the host the program reads and changes: files, directories,
 * and the answers of the operating system (privilege level, failing paths,
 * exit status of `pkexec`). The file system is a value threaded through the
 * operations; each operation returns the new one.
 */
module FileSystem {
  import opened Wrappers
  import opened JsonValues
  import opened Text

  type Path = string

  /** A JSON file as the program sees it after `read_to_string` and `serde_json::from_str`. */
  datatype Doc = Parsed(value: Json) | Unparsable

  /**
   * `docs` holds the JSON files (index.json, manifest.json, temporary copies),
   * `texts` the plain-text source lists, `dirs` the directories the program
   * created. A path that is in neither map cannot be read.
   */
  datatype FileSystem = FileSystem(docs: map<Path, Doc>, texts: map<Path, string>, dirs: set<Path>)

  /** Outcome of running an external command: it could not be started, or it exited. */
  datatype Spawn = SpawnFailed | Exited(success: bool)

  /**
   * What the host answers. `faulty` are the paths on which a direct write,
   * `create_dir_all` or `remove_dir_all` fails (missing parent, permission,
   * absent directory). `tempIndex` is the process-unique temporary file,
   * `copyStatus` and `removeStatus` the result of `pkexec cp` and
   * `pkexec rm -rf`, `now` the text of the current RFC 3339 time.
   */
  datatype Host = Host(
    elevated: bool,
    faulty: set<Path>,
    tempIndex: Path,
    copyStatus: Spawn,
    removeStatus: Spawn,
    now: string)

  /** `PathBuf::join`: an absolute name replaces the base, otherwise one '/' separates them. */
  function Join(base: Path, name: string): (r: Path)
    ensures StartsWith(name, "/") ==> r == name
    ensures !StartsWith(name, "/") ==> |r| >= |base| && r[..|base|] == base
  {
    if |name| > 0 && name[0] == '/' then name
    else if base == [] || base[|base| - 1] == '/' then base + name
    else base + "/" + name
  }

  /** A relative name is the tail of the joined path. */
  lemma JoinEndsWith(base: Path, name: string)
    ensures var r := Join(base, name); |r| >= |name| && r[|r| - |name|..] == name
  {
  }

  function NormalParts(parts: seq<string>): (r: seq<string>)
    ensures forall i :: 0 <= i < |r| ==> r[i] != "" && r[i] != "."
  {
    if parts == [] then []
    else if parts[0] == "" || parts[0] == "." then NormalParts(parts[1..])
    else [parts[0]] + NormalParts(parts[1..])
  }

  /**
   * The components a path names on disk: a root marker for an absolute path,
   * then the names between separators, with repeated separators and every
   * "." dropped, so that `./inst` and `inst` name the same directory.
   */
  function Components(p: Path): seq<string> {
    (if StartsWith(p, "/") then ["/"] else []) + NormalParts(Split(p, '/'))
  }

  /** Whether `p` lies in the directory `base` as the file system resolves them (what a recursive removal reaches). */
  predicate Under(p: Path, base: Path) {
    var cp, cb := Components(p), Components(base);
    |cb| <= |cp| && cp[..|cb|] == cb
  }

  /**
   * `Path::components`: like `Components`, except that a relative path
   * beginning with "." keeps it as a leading `CurDir` component; only inner
   * and trailing "." are dropped.
   */
  function PathComponents(p: Path): (r: seq<string>)
    ensures !StartsWith(p, "/") && (p == "." || StartsWith(p, "./")) ==> |r| > 0 && r[0] == "."
    ensures StartsWith(p, "/") ==> |r| > 0 && r[0] == "/"
    ensures forall i :: 0 < i < |r| ==> r[i] != "."
  {
    var lead := if StartsWith(p, "/") then ["/"] else if p == "." || StartsWith(p, "./") then ["."] else [];
    lead + NormalParts(Split(p, '/'))
  }

  /** `Path::starts_with`: compares whole components as `Path::components` gives them, not characters. */
  predicate PathStartsWith(p: Path, base: Path) {
    var cp, cb := PathComponents(p), PathComponents(base);
    |cb| <= |cp| && cp[..|cb|] == cb
  }

  /** A base beginning with "./" never prefixes, under `Path::starts_with`, a relative path that does not. */
  lemma CurDirTakesPart(p: Path, base: Path)
    requires !StartsWith(p, "/") && p != "." && !StartsWith(p, "./")
    requires StartsWith(base, "./")
    ensures !PathStartsWith(p, base)
  {
    var cp, cb := PathComponents(p), PathComponents(base);
    assert cp == NormalParts(Split(p, '/'));
    assert |cb| > 0 && cb[0] == ".";
    assert |cb| <= |cp| ==> cp[0] != cb[0];
  }

  /** On disk, "./" in front of a relative path names the same place. */
  lemma CurDirSamePlace(q: Path)
    requires !StartsWith(q, "/")
    ensures Components("./" + q) == Components(q)
  {
    SplitFirst(".", '/', q);
    assert "./" + q == "." + "/" + q;
    assert NormalParts(Split("./" + q, '/')) == NormalParts(Split(q, '/'));
  }

  function WriteDoc(fs: FileSystem, p: Path, d: Json): (r: FileSystem)
    ensures r.docs == fs.docs[p := Parsed(d)] && r.texts == fs.texts && r.dirs == fs.dirs
  {
    fs.(docs := fs.docs[p := Parsed(d)])
  }

  function RemoveDoc(fs: FileSystem, p: Path): (r: FileSystem)
    ensures r.docs == fs.docs - {p} && r.texts == fs.texts && r.dirs == fs.dirs
  {
    fs.(docs := fs.docs - {p})
  }

  /** `create_dir_all`: the directory exists afterwards. */
  function MakeDirs(fs: FileSystem, dir: Path): (r: FileSystem)
    ensures dir in r.dirs && r.docs == fs.docs && r.texts == fs.texts
  {
    fs.(dirs := fs.dirs + {dir})
  }

  /** `remove_dir_all` or `rm -rf`: everything under `dir` is gone, everything else stays. */
  function RemoveTree(fs: FileSystem, dir: Path): (r: FileSystem)
    ensures forall p :: p in r.docs <==> p in fs.docs && !Under(p, dir)
    ensures forall p :: p in r.docs ==> r.docs[p] == fs.docs[p]
    ensures forall p :: p in r.texts <==> p in fs.texts && !Under(p, dir)
    ensures forall p :: p in r.texts ==> r.texts[p] == fs.texts[p]
    ensures forall d :: d in r.dirs <==> d in fs.dirs && !Under(d, dir)
  {
    FileSystem(
      map p | p in fs.docs && !Under(p, dir) :: fs.docs[p],
      map p | p in fs.texts && !Under(p, dir) :: fs.texts[p],
      set d | d in fs.dirs && !Under(d, dir))
  }
}
