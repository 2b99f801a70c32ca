/**
 * Registry sources: one URL per meaningful line of a plain-text file per
 * scope, merged across scopes with the first occurrence of each URL kept.
 */
module Sources {
  import opened Wrappers
  import opened Text
  import opened FileSystem
  import opened PathResolution

  datatype SourceScope = User | System

  /** A registry URL and the scope whose file it was first read from. */
  datatype Source = Source(url: string, scope: SourceScope)

  /** A trimmed line that is kept: not empty and not a '#' comment. */
  predicate Kept(line: string) {
    line != "" && !StartsWith(line, "#")
  }

  /** One line of the file: its trimmed text if that is kept, and nothing otherwise. */
  function KeptOf(line: string): (r: seq<string>)
    ensures |r| <= 1
  {
    var t := Trim(line);
    if Kept(t) then [t] else []
  }

  /** The trimmed lines that are kept, in file order. */
  function KeptLines(lines: seq<string>): (r: seq<string>)
    ensures |r| <= |lines|
  {
    if lines == [] then [] else KeptOf(lines[0]) + KeptLines(lines[1..])
  }

  /** Every line kept is trimmed already, not empty and not a comment. */
  lemma {:induction false} KeptLinesTrimmed(lines: seq<string>)
    ensures forall x :: x in KeptLines(lines) ==> Kept(x) && Trim(x) == x
  {
    if lines != [] {
      KeptLinesTrimmed(lines[1..]);
      TrimIdempotent(lines[0]);
    }
  }

  /** Filtering respects concatenation, so kept lines stay in file order. */
  lemma {:induction false} KeptLinesAppend(a: seq<string>, b: seq<string>)
    ensures KeptLines(a + b) == KeptLines(a) + KeptLines(b)
  {
    if a != [] {
      assert (a + b)[0] == a[0];
      assert (a + b)[1..] == a[1..] + b;
      KeptLinesAppend(a[1..], b);
      assert KeptLines(a + b) == KeptOf(a[0]) + (KeptLines(a[1..]) + KeptLines(b));
    } else {
      assert a + b == b;
    }
  }

  /** A line is in the result exactly when some line of the file trims to it and is kept. */
  lemma {:induction false} KeptLinesMembers(lines: seq<string>, x: string)
    ensures x in KeptLines(lines) <==> Kept(x) && exists i :: 0 <= i < |lines| && Trim(lines[i]) == x
  {
    if lines != [] {
      KeptLinesMembers(lines[1..], x);
      assert KeptLines(lines) == KeptOf(lines[0]) + KeptLines(lines[1..]);
      assert x in KeptOf(lines[0]) <==> Kept(x) && Trim(lines[0]) == x;
      if Kept(x) && Trim(lines[0]) != x {
        assert (exists i :: 0 <= i < |lines| && Trim(lines[i]) == x)
           <==> (exists i :: 0 <= i < |lines[1..]| && Trim(lines[1..][i]) == x) by {
          if exists i :: 0 <= i < |lines| && Trim(lines[i]) == x {
            var i :| 0 <= i < |lines| && Trim(lines[i]) == x;
            assert Trim(lines[1..][i - 1]) == x;
          }
        }
      }
    }
  }

  /** `read_sources_file`: an unreadable file is an empty list. */
  function ReadSourcesFile(fs: FileSystem, path: Path): (r: seq<string>)
    ensures path !in fs.texts ==> r == []
    ensures path in fs.texts ==> r == KeptLines(Lines(fs.texts[path]))
  {
    if path in fs.texts then KeptLines(Lines(fs.texts[path])) else []
  }

  function UrlsOf(r: seq<Source>): (us: seq<string>)
    ensures |us| == |r| && forall i :: 0 <= i < |r| ==> us[i] == r[i].url
  {
    if r == [] then [] else [r[0].url] + UrlsOf(r[1..])
  }

  predicate DistinctUrls(r: seq<Source>) {
    forall i, j :: 0 <= i < j < |r| ==> r[i].url != r[j].url
  }

  /** Appends, in order, each URL of `urls` that `acc` does not hold yet, tagged with `scope`. */
  function AddNew(acc: seq<Source>, urls: seq<string>, scope: SourceScope): seq<Source>
    decreases |urls|
  {
    if urls == [] then acc
    else AddNew(if urls[0] in UrlsOf(acc) then acc else acc + [Source(urls[0], scope)], urls[1..], scope)
  }

  lemma UrlsOfAppend(r: seq<Source>, x: Source)
    ensures UrlsOf(r + [x]) == UrlsOf(r) + [x.url]
  {
  }

  /** Appending new URLs keeps what was there and adds only new `scope` entries taken from `urls`. */
  lemma {:induction false} AddNewExtends(acc: seq<Source>, urls: seq<string>, scope: SourceScope)
    ensures var r := AddNew(acc, urls, scope);
      && |acc| <= |r| && r[..|acc|] == acc
      && (forall i :: |acc| <= i < |r| ==> r[i].scope == scope && r[i].url in urls && r[i].url !in UrlsOf(acc))
    decreases |urls|
  {
    if urls != [] {
      var next := if urls[0] in UrlsOf(acc) then acc else acc + [Source(urls[0], scope)];
      UrlsOfAppend(acc, Source(urls[0], scope));
      AddNewExtends(next, urls[1..], scope);
      var r := AddNew(acc, urls, scope);
      assert r == AddNew(next, urls[1..], scope);
      assert r[..|acc|] == r[..|next|][..|acc|];
      forall i | |acc| <= i < |r|
        ensures r[i].scope == scope && r[i].url in urls && r[i].url !in UrlsOf(acc)
      {
        if i >= |next| {
          assert r[i].url in urls[1..] && r[i].url !in UrlsOf(next);
        } else {
          assert r[i] == next[i] == Source(urls[0], scope);
        }
      }
    }
  }

  /** Appending new URLs keeps the URLs distinct and loses none. */
  lemma {:induction false} AddNewDistinct(acc: seq<Source>, urls: seq<string>, scope: SourceScope)
    requires DistinctUrls(acc)
    ensures DistinctUrls(AddNew(acc, urls, scope))
    ensures forall u :: u in UrlsOf(AddNew(acc, urls, scope)) <==> u in UrlsOf(acc) || u in urls
    decreases |urls|
  {
    if urls != [] {
      var next := if urls[0] in UrlsOf(acc) then acc else acc + [Source(urls[0], scope)];
      UrlsOfAppend(acc, Source(urls[0], scope));
      assert DistinctUrls(next);
      AddNewDistinct(next, urls[1..], scope);
      forall u
        ensures u in UrlsOf(AddNew(acc, urls, scope)) <==> u in UrlsOf(acc) || u in urls
      {
        assert u in urls <==> u == urls[0] || u in urls[1..];
      }
    }
  }

  /** The URLs of the included files, user first: what the merge is built from. */
  function Included(fs: FileSystem, wanted: bool, path: Path): seq<string> {
    if wanted then ReadSourcesFile(fs, path) else []
  }

  /** One of the two loops of `list_sources`: push each URL not yet in `seen`, tagged with `scope`. */
  method PushUnseen(r0: seq<Source>, seen0: set<string>, urls: seq<string>, scope: SourceScope)
    returns (r: seq<Source>, seen: set<string>)
    requires forall x :: x in seen0 <==> x in UrlsOf(r0)
    ensures r == AddNew(r0, urls, scope)
    ensures forall x :: x in seen <==> x in UrlsOf(r)
  {
    r, seen := r0, seen0;
    for i := 0 to |urls|
      invariant AddNew(r, urls[i..], scope) == AddNew(r0, urls, scope)
      invariant forall x :: x in seen <==> x in UrlsOf(r)
    {
      assert urls[i..][1..] == urls[i + 1..];
      if urls[i] !in seen {
        seen := seen + {urls[i]};
        UrlsOfAppend(r, Source(urls[i], scope));
        r := r + [Source(urls[i], scope)];
      }
    }
  }

  /** The merge of the user URLs `u` then the system URLs `s`. */
  function Merge(u: seq<string>, s: seq<string>): seq<Source> {
    AddNew(AddNew([], u, User), s, System)
  }

  /** The merge holds each URL of either list, and each once. */
  lemma MergeDistinct(u: seq<string>, s: seq<string>)
    ensures DistinctUrls(Merge(u, s))
    ensures forall x :: x in UrlsOf(Merge(u, s)) <==> x in u || x in s
  {
    AddNewDistinct([], u, User);
    AddNewDistinct(AddNew([], u, User), s, System);
  }

  /** An entry of the merge is tagged `User` exactly when its URL is a user URL, and user entries come first. */
  lemma MergeScopes(u: seq<string>, s: seq<string>)
    ensures var r := Merge(u, s);
      && (forall i :: 0 <= i < |r| ==> (r[i].scope == User <==> r[i].url in u))
      && (forall i, j :: 0 <= i < j < |r| && r[j].scope == User ==> r[i].scope == User)
  {
    var afterUser := AddNew([], u, User);
    var r := Merge(u, s);
    AddNewExtends([], u, User);
    AddNewDistinct([], u, User);
    AddNewExtends(afterUser, s, System);
    forall i | 0 <= i < |r|
      ensures r[i].scope == User <==> r[i].url in u
    {
      if i < |afterUser| {
        assert r[i] == afterUser[i];
      } else {
        assert r[i].url !in UrlsOf(afterUser);
      }
    }
  }

  /**
   * `list_sources`: the user file's URLs, then the system file's, each URL
   * once, tagged with the scope it was first seen in. A scope that is not
   * included is not read.
   */
  method ListSources(fs: FileSystem, paths: Paths, includeUser: bool, includeSystem: bool)
    returns (r: seq<Source>)
    ensures r == Merge(Included(fs, includeUser, paths.userSources), Included(fs, includeSystem, paths.systemSources))
  {
    var seen: set<string> := {};
    r := [];
    if includeUser {
      r, seen := PushUnseen(r, seen, ReadSourcesFile(fs, paths.userSources), User);
    }
    if includeSystem {
      r, seen := PushUnseen(r, seen, ReadSourcesFile(fs, paths.systemSources), System);
    }
  }
}
