/** The static fetcher, for plain files reachable by `file`, `http` or
    `https`: `fetch` downloads the file into the destination directory,
    `update` first empties that directory of everything but its `.download`
    entry. The source file does not parse; this is the behaviour its
    statements evidently mean. */
module Static {
  import opened Util
  import opened FileSystem
  import opened Machine
  import opened Fetchers

  /** The schemes `StaticFetcher` accepts and matches. */
  const StaticSchemes: seq<string> := ["file", "http", "https"]

  /** The entry of the destination directory that `update` keeps. */
  const DownloadEntry: string := ".download"

  /** `StaticFetcher.is_valid_src_uri(uri)`. */
  predicate IsValidSrcUri(uri: string) {
    UriScheme(uri).Some? && UriScheme(uri).value in StaticSchemes
  }

  /** A URI is valid here exactly when it is `s://rest` for `file`, `http` or
      `https` and an acceptable `rest`. */
  lemma ValidSrcUriIff(uri: string)
    ensures IsValidSrcUri(uri) <==> exists s :: s in StaticSchemes && HasScheme(uri, s)
  {
    if s :| s in StaticSchemes && HasScheme(uri, s) {
      assert s in Schemes;
      SchemeUnique(uri, s, UriScheme(uri).value);
    }
  }

  /** `StaticFetcher.match(switch)`. */
  predicate Match(switch: string) {
    switch in StaticSchemes
  }

  /** The static fetcher answers to a scheme exactly when it accepts the
      URIs written with that scheme. */
  lemma MatchIffAccepts(s: string, rest: string)
    requires s in Schemes && TailOk(rest)
    ensures Match(s) <==> IsValidSrcUri(s + "://" + rest)
  {
    SchemeOf(s, rest);
  }

  /** `StaticFetcher._has_uri_changed`: over http nothing tells whether the
      source changed, so it never reports a change. */
  function UriChanged(uri: string, dest: Path): (changed: bool)
    ensures !changed
  {
    false
  }

  /** `os.path.split(uri)[1]`: what follows the last `/`. */
  function FileName(uri: string): (file: string)
    ensures '/' !in file
    ensures |file| < |uri| ==> uri == uri[..|uri| - |file| - 1] + "/" + file
  {
    var file := LastPart(uri, '/');
    assert |file| < |uri| ==> uri == uri[..|uri| - |file| - 1] + [uri[|uri| - |file| - 1]] + uri[|uri| - |file|..];
    file
  }

  // ---------------------------------------------------------------------------
  // Purging the destination

  /** `fs` without the entries `names` of `dir` that are not still `pending`,
      and everything inside them. */
  function Without(fs: Fs, dir: Path, names: set<string>, pending: set<string>): (r: Fs)
    ensures forall q :: q in r <==> q in fs && !(Below(q, dir) && EntryOf(q, dir) in names && EntryOf(q, dir) !in pending)
    ensures forall q :: q in r ==> r[q] == fs[q]
  {
    map q | q in fs && !(Below(q, dir) && EntryOf(q, dir) in names && EntryOf(q, dir) !in pending) :: fs[q]
  }

  /** What the loop of `update` leaves: every entry of `dest` but `.download` removed. */
  function Purged(fs: Fs, dest: Path): Fs {
    Without(fs, dest, ListDir(fs, dest) - {DownloadEntry}, {})
  }

  /** Every entry `os.listdir` gives is a non-empty name without `/`. */
  lemma ListedEntry(fs: Fs, dir: Path, m: string)
    requires m in ListDir(fs, dir)
    ensures '/' !in m && m != ""
  {
    var q :| q in fs && Below(q, dir) && EntryOf(q, dir) != "" && EntryOf(q, dir) == m;
  }

  /** A path lies within the child `dir/m` exactly when it lies inside `dir`
      and is listed under `m`. */
  lemma WithinChildIff(q: Path, dir: Path, m: string)
    requires '/' !in m
    ensures Within(q, Child(dir, m)) <==> Below(q, dir) && EntryOf(q, dir) == m
  {
    if Within(q, Child(dir, m)) {
      EntryOfWithin(q, dir, m);
    }
    if Below(q, dir) && EntryOf(q, dir) == m {
      WithinEntry(q, dir);
    }
  }

  /** Removing one more pending entry of `dir` takes it off the pending set. */
  lemma RemoveEntry(fs: Fs, dir: Path, names: set<string>, pending: set<string>, m: string)
    requires '/' !in m && m in names && m in pending
    ensures RemoveTree(Without(fs, dir, names, pending), Child(dir, m)) == Without(fs, dir, names, pending - {m})
  {
    forall q
      ensures Within(q, Child(dir, m)) <==> Below(q, dir) && EntryOf(q, dir) == m
    {
      WithinChildIff(q, dir, m);
    }
  }

  /** Taking the entries `names` of `dir` that are no longer `pending` out
      of `fs` removes each such entry `dir/m` with everything inside it, and
      keeps every other path, unchanged. */
  lemma WithoutRemovesEntries(fs: Fs, dir: Path, names: set<string>, pending: set<string>)
    requires forall m :: m in names ==> '/' !in m
    ensures forall m, q :: m in names && m !in pending && Within(q, Child(dir, m)) ==> q !in Without(fs, dir, names, pending)
    ensures forall q :: q in fs && (forall m :: m in names && m !in pending ==> !Within(q, Child(dir, m))) ==>
      q in Without(fs, dir, names, pending) && Without(fs, dir, names, pending)[q] == fs[q]
    ensures forall q :: q in Without(fs, dir, names, pending) ==> q in fs
  {
    forall m, q | m in names && m !in pending && Within(q, Child(dir, m))
      ensures q !in Without(fs, dir, names, pending)
    {
      WithinChildIff(q, dir, m);
    }
    forall q | q in fs && (forall m :: m in names && m !in pending ==> !Within(q, Child(dir, m)))
      ensures q in Without(fs, dir, names, pending)
    {
      if Below(q, dir) && EntryOf(q, dir) in names && EntryOf(q, dir) !in pending {
        WithinChildIff(q, dir, EntryOf(q, dir));
      }
    }
  }

  /** A path spelled `dir/` or `dir//...`: inside `dir` as spelled, but under
      no name `os.listdir` gives. */
  predicate Unlisted(q: Path, dir: Path) {
    Below(q, dir) && EntryOf(q, dir) == ""
  }

  /** The purge keeps `dest` itself, everything outside `dest`, and everything
      within `dest/.download`; of the rest of `dest` it keeps only paths that
      no listed entry covers. Whatever it keeps is unchanged. */
  lemma PurgeKeeps(fs: Fs, dest: Path, q: Path)
    requires q in fs
    ensures q in Purged(fs, dest) <==> !Below(q, dest) || Within(q, Child(dest, DownloadEntry)) || Unlisted(q, dest)
    ensures q in Purged(fs, dest) ==> Purged(fs, dest)[q] == fs[q]
  {
    WithinChildIff(q, dest, DownloadEntry);
  }

  // ---------------------------------------------------------------------------
  // fetch and update on values

  /** What a static fetch or update did to the process. */
  datatype Effect = Effect(outcome: Outcome<FetcherError>, fs: Fs, cwd: Path, events: seq<Event>)

  /** The outcome of one step of `fetch` and the filesystem it leaves. */
  datatype Step = Step(outcome: Outcome<FetcherError>, fs: Fs)

  /** The start of `fetch`: `os.makedirs(dest/.download)` when `dest` is not a
      directory, then `os.chdir(dest)`. */
  function Prepare(fs: Fs, dest: Path): (s: Step)
    ensures s.outcome.Pass? ==> IsDir(s.fs, dest)
    ensures IsDir(fs, dest) ==> s == Step(Pass, fs)
    ensures !IsDir(fs, dest) && !MakeDirsBlocked(fs, Child(dest, DownloadEntry)) ==>
      s.fs == MakeDirs(fs, Child(dest, DownloadEntry)) && IsDir(s.fs, Child(dest, DownloadEntry))
  {
    var marker := Child(dest, DownloadEntry);
    if IsDir(fs, dest) then Step(Pass, fs)
    else if MakeDirsBlocked(fs, marker) then Step(Fail(OSError(marker)), fs)
    else
      var made := MakeDirs(fs, marker);
      if IsDir(made, dest) then Step(Pass, made) else Step(Fail(OSError(dest)), made)
  }

  /** The rest of `fetch`, in `dest`: download the URI and write what came to
      `dest/<file>`; any failure there raises `StaticFetchError`. */
  function Store(download: string -> bool, fs: Fs, uri: string, dest: Path): (s: Step)
    ensures var target := Child(dest, FileName(uri));
      (s.outcome.Pass? <==> download(uri) && FileName(uri) != "" && !IsDir(fs, target)) &&
      (s.outcome.Pass? ==> s.fs == fs[target := File]) &&
      (s.outcome.Fail? ==> s == Step(Fail(StaticFetch(FileName(uri), uri)), fs))
  {
    var file := FileName(uri);
    var target := Child(dest, file);
    if download(uri) && file != "" && !IsDir(fs, target) then Step(Pass, fs[target := File])
    else Step(Fail(StaticFetch(file, uri)), fs)
  }

  /** `fetch(uri, dest)`: check the URI, prepare `dest`, then download. */
  function FetchEffect(download: string -> bool, fs: Fs, cwd: Path, uri: string, dest: Path): Effect {
    if !IsValidSrcUri(uri) then Effect(Fail(InvalidUrl(uri)), fs, cwd, [])
    else
      var p := Prepare(fs, dest);
      if p.outcome.Fail? then Effect(p.outcome, p.fs, cwd, [])
      else
        var s := Store(download, p.fs, uri, dest);
        Effect(s.outcome, s.fs, dest, [Download(uri)])
  }

  /** `update(uri, dest)`: purge an existing `dest`, then fetch. */
  function UpdateEffect(download: string -> bool, fs: Fs, cwd: Path, uri: string, dest: Path): Effect {
    if !IsValidSrcUri(uri) then Effect(Fail(InvalidUrl(uri)), fs, cwd, [])
    else FetchEffect(download, if IsDir(fs, dest) then Purged(fs, dest) else fs, cwd, uri, dest)
  }

  /** An invalid URI raises `InvalidUrlError` and changes nothing. */
  lemma InvalidUriChangesNothing(download: string -> bool, fs: Fs, cwd: Path, uri: string, dest: Path)
    requires !IsValidSrcUri(uri)
    ensures FetchEffect(download, fs, cwd, uri, dest) == Effect(Fail(InvalidUrl(uri)), fs, cwd, [])
    ensures UpdateEffect(download, fs, cwd, uri, dest) == Effect(Fail(InvalidUrl(uri)), fs, cwd, [])
  {
  }

  /** A successful fetch leaves the downloaded file at `dest/<file>`, where
      `<file>` is what follows the last `/` of the URI, and the process in
      `dest`; it succeeds only when the download does. */
  lemma FetchWritesFile(download: string -> bool, fs: Fs, cwd: Path, uri: string, dest: Path)
    requires IsValidSrcUri(uri)
    ensures var e := FetchEffect(download, fs, cwd, uri, dest);
      e.outcome.Pass? ==> IsFile(e.fs, Child(dest, FileName(uri))) && e.cwd == dest && download(uri)
  {
    var e := FetchEffect(download, fs, cwd, uri, dest);
    if e.outcome.Pass? {
      var file := FileName(uri);
      var t := Child(dest, file);
      var p := Prepare(fs, dest);
      var s := Store(download, p.fs, uri, dest);
      assert e == Effect(s.outcome, s.fs, dest, [Download(uri)]);
      assert s.fs == p.fs[t := File];
      assert t[|t| - 1] == file[|file| - 1] != '/';
    }
  }

  /** When `dest` is not a directory and can be made, a fetch leaves
      `dest/.download` a directory, whether or not the download succeeds. */
  lemma FetchMakesDownloadDir(download: string -> bool, fs: Fs, cwd: Path, uri: string, dest: Path)
    requires IsValidSrcUri(uri)
    requires !IsDir(fs, dest) && !MakeDirsBlocked(fs, Child(dest, DownloadEntry))
    ensures IsDir(FetchEffect(download, fs, cwd, uri, dest).fs, Child(dest, DownloadEntry))
  {
    var p := Prepare(fs, dest);
    if p.outcome.Pass? {
      var s := Store(download, p.fs, uri, dest);
      assert s.fs == p.fs || (s.fs == p.fs[Child(dest, FileName(uri)) := File] && !IsDir(p.fs, Child(dest, FileName(uri))));
    }
  }

  /** An update of an existing directory keeps everything outside `dest` and
      everything within `dest/.download` as it was. */
  lemma UpdateKeepsDownload(download: string -> bool, fs: Fs, cwd: Path, uri: string, dest: Path, q: Path)
    requires IsValidSrcUri(uri) && IsDir(fs, dest)
    requires q in fs && (!Below(q, dest) || Within(q, Child(dest, DownloadEntry)))
    ensures var e := UpdateEffect(download, fs, cwd, uri, dest);
      q in e.fs && e.fs[q] == fs[q]
  {
    PurgeKeeps(fs, dest, q);
    var purged := Purged(fs, dest);
    assert IsDir(purged, dest);
    var p := Prepare(purged, dest);
    assert p == Step(Pass, purged);
    var file := FileName(uri);
    var target := Child(dest, file);
    var s := Store(download, purged, uri, dest);
    if q == target && s.outcome.Pass? {
      // the write lands on `q` only when `q` is the file `dest/.download`
      WithinChildIff(q, dest, file);
      WithinChildIff(q, dest, DownloadEntry);
      assert fs[q] == File;
    }
  }

  // ---------------------------------------------------------------------------
  // The methods

  /** `StaticFetcher.fetch(uri, dest)`. */
  method Fetch(host: Host, uri: string, dest: Path) returns (r: Outcome<FetcherError>)
    modifies host
    ensures var e := FetchEffect(host.download, old(host.fs), old(host.cwd), uri, dest);
      r == e.outcome && host.fs == e.fs && host.cwd == e.cwd && host.log == old(host.log) + e.events
    ensures host.argv == old(host.argv)
  {
    if !IsValidSrcUri(uri) {
      return Fail(InvalidUrl(uri));
    }
    var marker := Child(dest, DownloadEntry);
    if !IsDir(host.fs, dest) {
      if MakeDirsBlocked(host.fs, marker) {
        return Fail(OSError(marker));
      }
      host.fs := MakeDirs(host.fs, marker);
    }
    if !IsDir(host.fs, dest) {
      return Fail(OSError(dest));
    }
    host.cwd := dest;
    var file := FileName(uri);
    var target := Child(dest, file);
    host.log := host.log + [Download(uri)];
    if !host.download(uri) || file == "" || IsDir(host.fs, target) {
      return Fail(StaticFetch(file, uri));
    }
    host.fs := host.fs[target := File];
    return Pass;
  }

  /** The loop of `update`: remove every entry of the directory `dest` except
      `.download`, in whatever order `os.listdir` gives them. */
  method Purge(host: Host, dest: Path)
    requires IsDir(host.fs, dest)
    modifies host
    ensures host.fs == Purged(old(host.fs), dest)
    ensures host.cwd == old(host.cwd) && host.log == old(host.log) && host.argv == old(host.argv)
  {
    var todo := ListDir(host.fs, dest) - {DownloadEntry};
    ghost var names := todo;
    ghost var fs0 := host.fs;
    assert fs0 == Without(fs0, dest, names, names);
    while todo != {}
      invariant todo <= names
      invariant host.fs == Without(fs0, dest, names, todo)
      invariant host.cwd == old(host.cwd) && host.log == old(host.log) && host.argv == old(host.argv)
      decreases |todo|
    {
      var m :| m in todo;
      ListedEntry(fs0, dest, m);
      RemoveEntry(fs0, dest, names, todo, m);
      host.fs := RemoveTree(host.fs, Child(dest, m));
      todo := todo - {m};
    }
  }

  /** `StaticFetcher.update(uri, dest)`: purge an existing `dest`, then fetch. */
  method Update(host: Host, uri: string, dest: Path) returns (r: Outcome<FetcherError>)
    modifies host
    ensures var e := UpdateEffect(host.download, old(host.fs), old(host.cwd), uri, dest);
      r == e.outcome && host.fs == e.fs && host.cwd == e.cwd && host.log == old(host.log) + e.events
    ensures host.argv == old(host.argv)
  {
    if !IsValidSrcUri(uri) {
      return Fail(InvalidUrl(uri));
    }
    if IsDir(host.fs, dest) {
      Purge(host, dest);
    }
    r := Fetch(host, uri, dest);
  }

  /** `StaticFetcher.fetch_or_update`: update when `dest/.download` is a
      directory, fetch otherwise. */
  method FetchOrUpdate(host: Host, uri: string, dest: Path) returns (r: Outcome<FetcherError>)
    modifies host
    ensures var e := if IsDir(old(host.fs), Child(dest, DownloadEntry))
                     then UpdateEffect(host.download, old(host.fs), old(host.cwd), uri, dest)
                     else FetchEffect(host.download, old(host.fs), old(host.cwd), uri, dest);
      r == e.outcome && host.fs == e.fs && host.cwd == e.cwd && host.log == old(host.log) + e.events
    ensures host.argv == old(host.argv)
  {
    if IsDir(host.fs, Child(dest, DownloadEntry)) {
      r := Update(host, uri, dest);
    } else {
      r := Fetch(host, uri, dest);
    }
  }
}
