/** The Mercurial fetcher: `clone` to fetch, `pull` then `up` to update, each
    only for a URI with a scheme Mercurial can use, and each followed by a
    check that the destination holds a repository. */
module Scm {
  import opened Util
  import opened FileSystem
  import opened Machine
  import opened Fetchers

  /** The schemes `HgFetcher.is_valid_src_uri` accepts. */
  const HgSchemes: seq<string> := ["file", "hg", "ssh", "file", "http", "https"]

  /** `HgFetcher.is_valid_src_uri(uri)`. */
  predicate IsValidSrcUri(uri: string) {
    UriScheme(uri).Some? && UriScheme(uri).value in HgSchemes
  }

  /** A URI is valid for Mercurial exactly when it is `s://rest` for one of its
      schemes and an acceptable `rest`. */
  lemma ValidSrcUriIff(uri: string)
    ensures IsValidSrcUri(uri) <==> exists s :: s in HgSchemes && HasScheme(uri, s)
  {
    if s :| s in HgSchemes && HasScheme(uri, s) {
      assert s in Schemes;
      SchemeUnique(uri, s, UriScheme(uri).value);
    }
  }

  /** `HgFetcher.match(switch)`. */
  predicate Match(switch: string) {
    switch == "hg"
  }

  /** The Mercurial fetcher answers to `hg` alone, and it accepts every URI
      written with that scheme. */
  lemma MatchAccepts(s: string, rest: string)
    requires TailOk(rest)
    ensures Match(s) <==> s == "hg"
    ensures Match(s) ==> IsValidSrcUri(s + "://" + rest)
  {
    if Match(s) {
      SchemeOf(s, rest);
    }
  }

  /** `opts.get('revision', 'tip')`, with `None` for no options. */
  function Revision(opts: Option<map<string, string>>): (rev: string)
    ensures opts.None? || "revision" !in opts.value ==> rev == "tip"
    ensures opts.Some? && "revision" in opts.value ==> rev == opts.value["revision"]
  {
    if opts.Some? && "revision" in opts.value then opts.value["revision"] else "tip"
  }

  function CloneCommand(rev: string, uri: string, dest: Path): string {
    "clone -r " + rev + " " + uri + " " + dest + " 2>&1"
  }

  function PullCommand(rev: string, uri: string, dest: Path): string {
    "pull -r " + rev + " " + uri + " -R " + dest + " 2>&1"
  }

  function UpCommand(rev: string, dest: Path): string {
    "  up -r " + rev + " -R " + dest + " 2>&1"
  }

  /** `'%s/%s' % (dest, self.metadata_directory)`. */
  function MarkerPath(dest: Path, metadataDirectory: Option<string>): Path {
    Child(dest, if metadataDirectory.None? then "None" else metadataDirectory.value)
  }

  /** The check after the commands: the destination must hold the metadata
      directory. As written, building the message formats two values into a
      string with one `%s`, which raises `TypeError` before the intended
      exception is reached. */
  function RepositoryCheck(fs: Fs, dest: Path, metadataDirectory: Option<string>, asWritten: bool): (r: Outcome<FetcherError>)
    ensures r.Pass? <==> IsDir(fs, MarkerPath(dest, metadataDirectory))
  {
    if IsDir(fs, MarkerPath(dest, metadataDirectory)) then Pass
    else if asWritten then Fail(MessageFormat)
    else Fail(InvalidMercurialRepository(dest))
  }

  /** `fetch` on values: one `clone`, then the repository check. */
  function FetchRun(f: Fetcher, shell: (string, Fs) -> ShellResult, fs: Fs, uri: string, dest: Path,
                    opts: Option<map<string, string>>, asWritten: bool): Run
  {
    if !IsValidSrcUri(uri) then Run(Fail(InvalidUrl(uri)), [], fs)
    else
      var run := RunAll(shell, f.executable, f.name, [CloneCommand(Revision(opts), uri, dest)], fs);
      if run.outcome.Fail? then run
      else Run(RepositoryCheck(run.fs, dest, f.metadataDirectory, asWritten), run.lines, run.fs)
  }

  /** `update` on values: `pull`, then `up`, then the repository check. */
  function UpdateRun(f: Fetcher, shell: (string, Fs) -> ShellResult, fs: Fs, uri: string, dest: Path,
                     opts: Option<map<string, string>>, asWritten: bool): Run
  {
    if !IsValidSrcUri(uri) then Run(Fail(InvalidUrl(uri)), [], fs)
    else
      var rev := Revision(opts);
      var run := RunAll(shell, f.executable, f.name, [PullCommand(rev, uri, dest), UpCommand(rev, dest)], fs);
      if run.outcome.Fail? then run
      else Run(RepositoryCheck(run.fs, dest, f.metadataDirectory, asWritten), run.lines, run.fs)
  }

  /** An invalid URI raises `InvalidUrlError` before any command runs, for
      both `fetch` and `update`. */
  lemma InvalidUriRunsNothing(f: Fetcher, shell: (string, Fs) -> ShellResult, fs: Fs, uri: string, dest: Path,
                              opts: Option<map<string, string>>, asWritten: bool)
    requires !IsValidSrcUri(uri)
    ensures FetchRun(f, shell, fs, uri, dest, opts, asWritten) == Run(Fail(InvalidUrl(uri)), [], fs)
    ensures UpdateRun(f, shell, fs, uri, dest, opts, asWritten) == Run(Fail(InvalidUrl(uri)), [], fs)
  {
  }

  /** `fetch` on a valid URI runs exactly one command, `clone` at the chosen
      revision, and succeeds exactly when the clone exits cleanly and leaves
      the metadata directory behind. */
  lemma FetchClonesOnce(f: Fetcher, shell: (string, Fs) -> ShellResult, fs: Fs, uri: string, dest: Path,
                        opts: Option<map<string, string>>)
    requires IsValidSrcUri(uri)
    ensures var line := CmdLine(f.executable, CloneCommand(Revision(opts), uri, dest));
      var run := FetchRun(f, shell, fs, uri, dest, opts, false);
      run.lines == [line] && run.fs == shell(line, fs).fs &&
      (run.outcome.Pass? <==> shell(line, fs).status == 0 && IsDir(run.fs, MarkerPath(dest, f.metadataDirectory)))
  {
    RunOne(shell, f.executable, f.name, CloneCommand(Revision(opts), uri, dest), fs);
  }

  /** `update` on a valid URI runs `pull` and then, only if the pull exits
      cleanly, `up`, both at the chosen revision. After a clean pull, a
      failing `up` raises `FetcherRuntimeError`, and the update succeeds
      exactly when `up` exits cleanly and the metadata directory is there. */
  lemma UpdatePullsThenUps(f: Fetcher, shell: (string, Fs) -> ShellResult, fs: Fs, uri: string, dest: Path,
                           opts: Option<map<string, string>>)
    requires IsValidSrcUri(uri)
    ensures var pull := CmdLine(f.executable, PullCommand(Revision(opts), uri, dest));
      var up := CmdLine(f.executable, UpCommand(Revision(opts), dest));
      var run := UpdateRun(f, shell, fs, uri, dest, opts, false);
      (shell(pull, fs).status != 0 ==> run == Run(Fail(FetcherRuntime(f.name)), [pull], shell(pull, fs).fs)) &&
      (shell(pull, fs).status == 0 ==> run.lines == [pull, up] && run.fs == shell(up, shell(pull, fs).fs).fs) &&
      (shell(pull, fs).status == 0 && shell(up, shell(pull, fs).fs).status != 0 ==> run.outcome == Fail(FetcherRuntime(f.name))) &&
      (run.outcome.Pass? <==> shell(pull, fs).status == 0 && shell(up, shell(pull, fs).fs).status == 0 &&
                              IsDir(run.fs, MarkerPath(dest, f.metadataDirectory)))
  {
    var rev := Revision(opts);
    RunTwo(shell, f.executable, f.name, PullCommand(rev, uri, dest), UpCommand(rev, dest), fs);
  }

  /** Finding: when the commands succeed but leave no metadata directory, the
      code as written raises `TypeError` while building its message, never the
      `InvalidMercurialRepositoryError` it documents; the corrected check
      raises the latter. */
  lemma MissingMarkerMessage(f: Fetcher, shell: (string, Fs) -> ShellResult, fs: Fs, uri: string, dest: Path,
                             opts: Option<map<string, string>>)
    requires IsValidSrcUri(uri)
    requires var line := CmdLine(f.executable, CloneCommand(Revision(opts), uri, dest));
      shell(line, fs).status == 0 && !IsDir(shell(line, fs).fs, MarkerPath(dest, f.metadataDirectory))
    ensures FetchRun(f, shell, fs, uri, dest, opts, true).outcome == Fail(MessageFormat)
    ensures FetchRun(f, shell, fs, uri, dest, opts, false).outcome == Fail(InvalidMercurialRepository(dest))
  {
    FetchClonesOnce(f, shell, fs, uri, dest, opts);
  }

  /** Finding, in `update`: when `pull` and `up` succeed but leave no
      metadata directory, the message built as written raises `TypeError`;
      the corrected check raises `InvalidMercurialRepositoryError`. */
  lemma UpdateMissingMarkerMessage(f: Fetcher, shell: (string, Fs) -> ShellResult, fs: Fs, uri: string, dest: Path,
                                   opts: Option<map<string, string>>)
    requires IsValidSrcUri(uri)
    requires var pull := CmdLine(f.executable, PullCommand(Revision(opts), uri, dest));
      var up := CmdLine(f.executable, UpCommand(Revision(opts), dest));
      shell(pull, fs).status == 0 && shell(up, shell(pull, fs).fs).status == 0 &&
      !IsDir(shell(up, shell(pull, fs).fs).fs, MarkerPath(dest, f.metadataDirectory))
    ensures UpdateRun(f, shell, fs, uri, dest, opts, true).outcome == Fail(MessageFormat)
    ensures UpdateRun(f, shell, fs, uri, dest, opts, false).outcome == Fail(InvalidMercurialRepository(dest))
  {
    var rev := Revision(opts);
    RunTwo(shell, f.executable, f.name, PullCommand(rev, uri, dest), UpCommand(rev, dest), fs);
  }

  /** `HgFetcher()`: a fetcher named `mercurial` running `hg` found on `PATH`,
      whose repositories hold `.hg`. */
  method NewHgFetcher(host: Host) returns (r: Result<Fetcher, FetcherError>)
    ensures r.Err? ==> Resolve(host.environ, host.fs, Some("hg")) == Err(r.error)
    ensures r.Ok? ==> Resolve(host.environ, host.fs, Some("hg")) == Ok(r.value.executable)
    ensures r.Ok? ==> fresh(r.value) && r.value.name == "mercurial" && r.value.metadataDirectory == Some(".hg")
  {
    r := Fetcher.Open(host, "mercurial", Some("hg"), Some(".hg"));
  }

  /** `HgFetcher.fetch(uri, dest, opts)`. */
  method Fetch(f: Fetcher, host: Host, uri: string, dest: Path, opts: Option<map<string, string>>)
    returns (r: Outcome<FetcherError>)
    modifies host
    ensures var run := FetchRun(f, host.shell, old(host.fs), uri, dest, opts, false);
      r == run.outcome && host.fs == run.fs && host.log == old(host.log) + Shells(run.lines)
    ensures host.cwd == old(host.cwd) && host.argv == old(host.argv)
  {
    var rev := Revision(opts);
    if !IsValidSrcUri(uri) {
      return Fail(InvalidUrl(uri));
    }
    RunOne(host.shell, f.executable, f.name, CloneCommand(rev, uri, dest), host.fs);
    assert Shells([CmdLine(f.executable, CloneCommand(rev, uri, dest))]) == [Shell(CmdLine(f.executable, CloneCommand(rev, uri, dest)))];
    r := f.ScmCmd(host, CloneCommand(rev, uri, dest));
    if r.Fail? {
      return;
    }
    r := RepositoryCheck(host.fs, dest, f.metadataDirectory, false);
  }

  /** `HgFetcher.update(uri, dest, opts)`. */
  method Update(f: Fetcher, host: Host, uri: string, dest: Path, opts: Option<map<string, string>>)
    returns (r: Outcome<FetcherError>)
    modifies host
    ensures var run := UpdateRun(f, host.shell, old(host.fs), uri, dest, opts, false);
      r == run.outcome && host.fs == run.fs && host.log == old(host.log) + Shells(run.lines)
    ensures host.cwd == old(host.cwd) && host.argv == old(host.argv)
  {
    var rev := Revision(opts);
    if !IsValidSrcUri(uri) {
      return Fail(InvalidUrl(uri));
    }
    var pull := PullCommand(rev, uri, dest);
    var up := UpCommand(rev, dest);
    RunTwo(host.shell, f.executable, f.name, pull, up, host.fs);
    assert Shells([CmdLine(f.executable, pull)]) == [Shell(CmdLine(f.executable, pull))];
    assert Shells([CmdLine(f.executable, pull), CmdLine(f.executable, up)])
        == [Shell(CmdLine(f.executable, pull)), Shell(CmdLine(f.executable, up))];
    r := f.ScmCmd(host, pull);
    if r.Fail? {
      return;
    }
    r := f.ScmCmd(host, up);
    if r.Fail? {
      return;
    }
    r := RepositoryCheck(host.fs, dest, f.metadataDirectory, false);
  }

  /** `HgFetcher.fetch_or_update`: update an existing directory, fetch
      otherwise. Only the directory is tested, not its `.hg`. */
  method FetchOrUpdate(f: Fetcher, host: Host, uri: string, dest: Path, opts: Option<map<string, string>>)
    returns (r: Outcome<FetcherError>)
    modifies host
    ensures var run := if IsDir(old(host.fs), dest) then UpdateRun(f, host.shell, old(host.fs), uri, dest, opts, false)
                       else FetchRun(f, host.shell, old(host.fs), uri, dest, opts, false);
      r == run.outcome && host.fs == run.fs && host.log == old(host.log) + Shells(run.lines)
    ensures host.cwd == old(host.cwd) && host.argv == old(host.argv)
  {
    if IsDir(host.fs, dest) {
      r := Update(f, host, uri, dest, opts);
    } else {
      r := Fetch(f, host, uri, dest, opts);
    }
  }
}
