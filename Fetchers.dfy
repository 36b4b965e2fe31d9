/** The fetcher interface: the URI grammar every fetcher validates against,
    the executable search a fetcher runs when it is built, and the helper that
    runs one scm command and fails on a non-zero exit status. */
module Fetchers {
  import opened Util
  import opened FileSystem
  import opened Machine

  /** The exceptions a fetcher raises. */
  datatype FetcherError =
    | InvalidUrl(uri: string)
    | FetcherNotInPath
    | FetcherRuntime(name: string)                  // `FetcherRuntimmeError`
    | InvalidMercurialRepository(dest: Path)
    | StaticFetch(file: string, uri: string)
    | NotImplementedMethod(operation: string)
    | MessageFormat                                 // `TypeError` from a `%` with more arguments than `%s`
    | MissingEnvironment(variable: string)          // `KeyError` on `os.environ`
    | OSError(path: Path)

  // ---------------------------------------------------------------------------
  // URI_REGEX

  /** The scheme alternatives of `URI_REGEX`, in the order the regex tries them. */
  const Schemes: seq<string> :=
    ["svn+ssh", "git", "http", "https", "hg", "svn", "ftp", "sftp", "ssh", "bzr", "cvs", "mtn", "file"]

  /** `(.*)$` on what follows `://`: `.` stops at a newline and `$` also
      matches just before a final newline, so a newline may only come last. */
  predicate TailOk(rest: string) {
    forall i :: 0 <= i < |rest| && rest[i] == '\n' ==> i == |rest| - 1
  }

  /** `uri` is `s://rest` with an acceptable `rest`. */
  predicate HasScheme(uri: string, s: string) {
    |s| + 3 <= |uri| && uri[..|s| + 3] == s + "://" && TailOk(uri[|s| + 3..])
  }

  /** `URI_REGEX.match(uri)` succeeds. */
  predicate UriMatches(uri: string) {
    exists s :: s in Schemes && HasScheme(uri, s)
  }

  /** The regex alternation: the first alternative with which the rest of the
      pattern matches. */
  function MatchScheme(uri: string, alternatives: seq<string>): (r: Option<string>)
    ensures r.Some? ==> r.value in alternatives && HasScheme(uri, r.value)
    ensures r.None? ==> forall s :: s in alternatives ==> !HasScheme(uri, s)
  {
    if |alternatives| == 0 then None
    else if HasScheme(uri, alternatives[0]) then Some(alternatives[0])
    else MatchScheme(uri, alternatives[1..])
  }

  /** `URI_REGEX.match(uri).groups()[1]`, or None when there is no match. */
  function UriScheme(uri: string): (r: Option<string>)
    ensures r.Some? <==> UriMatches(uri)
    ensures r.Some? ==> r.value in Schemes && HasScheme(uri, r.value)
  {
    MatchScheme(uri, Schemes)
  }

  /** No scheme contains a colon, so at most one scheme fits a URI. */
  lemma SchemeUnique(uri: string, a: string, b: string)
    requires a in Schemes && b in Schemes
    requires HasScheme(uri, a) && HasScheme(uri, b)
    ensures a == b
  {
    assert forall s :: s in Schemes ==> ':' !in s;
    ColonAfterScheme(uri, a);
    ColonAfterScheme(uri, b);
    assert |a| == |b|;
    assert a == uri[..|a|] == b;
  }

  /** In `s://rest`, the first colon is the one right after `s`. */
  lemma ColonAfterScheme(uri: string, s: string)
    requires ':' !in s && |s| + 3 <= |uri| && uri[..|s| + 3] == s + "://"
    ensures forall k :: 0 <= k < |s| ==> uri[k] != ':'
    ensures uri[|s|] == ':' && uri[..|s|] == s
  {
    assert forall k :: 0 <= k < |s| ==> uri[k] == (s + "://")[k] == s[k];
    assert uri[|s|] == (s + "://")[|s|];
    assert uri[..|s|] == (s + "://")[..|s|];
  }

  /** Group 2 of a match is the scheme the URI was built with, whatever the
      order of the alternatives (`http` before `https`, `svn` after `svn+ssh`);
      so each of the thirteen schemes followed by `://tld` gives itself. */
  lemma SchemeOf(s: string, rest: string)
    requires s in Schemes && TailOk(rest)
    ensures UriScheme(s + "://" + rest) == Some(s)
  {
    var uri := s + "://" + rest;
    assert uri[..|s| + 3] == s + "://";
    assert uri[|s| + 3..] == rest;
    assert HasScheme(uri, s);
    SchemeUnique(uri, s, UriScheme(uri).value);
  }

  /** A string without `://` after a known scheme, such as `invalidsrcuri`, does
      not match. */
  lemma NoSchemeNoMatch(uri: string)
    requires forall s :: s in Schemes ==> !(|s| + 3 <= |uri| && uri[..|s| + 3] == s + "://")
    ensures UriScheme(uri) == None
  {
  }

  // ---------------------------------------------------------------------------
  // The executable search of `IFetcher.__init__`

  /** Index of the first directory of `dirs` holding a file `exe`, or `|dirs|`. */
  function FirstHolding(fs: Fs, dirs: seq<string>, exe: string): (k: nat)
    ensures k <= |dirs|
    ensures forall j :: 0 <= j < k ==> !IsFile(fs, Child(dirs[j], exe))
    ensures k < |dirs| ==> IsFile(fs, Child(dirs[k], exe))
  {
    if |dirs| == 0 then 0
    else if IsFile(fs, Child(dirs[0], exe)) then 0
    else 1 + FirstHolding(fs, dirs[1..], exe)
  }

  /** `IFetcher.__init__`'s choice of `self.executable`: a name without `/` is
      looked up along `PATH`, in order; a name with `/` must be a file itself.
      A missing executable is searched for as the empty name. */
  function Resolve(environ: map<string, string>, fs: Fs, executable: Option<string>): (r: Result<Path, FetcherError>)
  {
    var exe := if executable.None? then "" else executable.value;
    if '/' !in exe then
      if "PATH" !in environ then Err(MissingEnvironment("PATH"))
      else
        var dirs := SplitOn(environ["PATH"], ':');
        var k := FirstHolding(fs, dirs, exe);
        if k < |dirs| then Ok(Child(dirs[k], exe)) else Err(FetcherNotInPath)
    else if IsFile(fs, exe) then Ok(exe)
    else Err(FetcherNotInPath)
  }

  /** What the search finds is an existing file, and it fails only by finding
      nothing or by `PATH` missing from the environment. */
  lemma ResolveFindsFile(environ: map<string, string>, fs: Fs, executable: Option<string>)
    ensures var r := Resolve(environ, fs, executable);
      (r.Ok? ==> IsFile(fs, r.value)) &&
      (r.Err? ==> r.error == FetcherNotInPath || r.error == MissingEnvironment("PATH"))
  {
  }

  /** A bare name is found in the first `PATH` entry holding it, and only if
      some entry does. */
  lemma {:induction false} ResolveSearchesInOrder(environ: map<string, string>, fs: Fs, exe: string, i: nat)
    requires '/' !in exe && "PATH" in environ
    requires i < |SplitOn(environ["PATH"], ':')|
    requires IsFile(fs, Child(SplitOn(environ["PATH"], ':')[i], exe))
    requires forall j :: 0 <= j < i ==> !IsFile(fs, Child(SplitOn(environ["PATH"], ':')[j], exe))
    ensures Resolve(environ, fs, Some(exe)) == Ok(Child(SplitOn(environ["PATH"], ':')[i], exe))
  {
    var dirs := SplitOn(environ["PATH"], ':');
    var k := FirstHolding(fs, dirs, exe);
    assert k == i;
  }

  /** A missing executable is never found: the search would need a file named
      `dir/`, and no regular file's name ends with `/`. */
  lemma NoExecutableNotFound(environ: map<string, string>, fs: Fs)
    ensures Resolve(environ, fs, None).Err?
  {
    forall d: string
      ensures !IsFile(fs, Child(d, ""))
    {
      var p := Child(d, "");
      assert p[|p| - 1] == '/';
    }
  }

  /** The loop of `IFetcher.__init__`: walk `PATH`, stop at the first hit. */
  method FindExecutable(environ: map<string, string>, fs: Fs, executable: Option<string>) returns (r: Result<Path, FetcherError>)
    ensures r == Resolve(environ, fs, executable)
  {
    var exe := if executable.None? then "" else executable.value;
    var found: Option<Path> := None;
    if '/' !in exe {
      if "PATH" !in environ {
        return Err(MissingEnvironment("PATH"));
      }
      var dirs := SplitOn(environ["PATH"], ':');
      var i := 0;
      while i < |dirs|
        invariant 0 <= i <= |dirs|
        invariant forall j :: 0 <= j < i ==> !IsFile(fs, Child(dirs[j], exe))
        invariant found.None?
      {
        if IsFile(fs, Child(dirs[i], exe)) {
          found := Some(Child(dirs[i], exe));
          break;
        }
        i := i + 1;
      }
      assert found.Some? ==> FirstHolding(fs, dirs, exe) == i;
      assert found.None? ==> FirstHolding(fs, dirs, exe) == |dirs|;
    } else if IsFile(fs, exe) {
      found := Some(exe);
    }
    if found.None? {
      return Err(FetcherNotInPath);
    }
    return Ok(found.value);
  }

  // ---------------------------------------------------------------------------
  // Running scm commands

  /** The shell line `_scm_cmd` runs. */
  function CmdLine(executable: Path, command: string): string {
    executable + " " + command + " 2>&1"
  }

  /** Shell events for a sequence of command lines. */
  function Shells(lines: seq<string>): (events: seq<Event>)
    ensures |events| == |lines|
    ensures forall i :: 0 <= i < |lines| ==> events[i] == Shell(lines[i])
  {
    if |lines| == 0 then [] else [Shell(lines[0])] + Shells(lines[1..])
  }

  /** What a sequence of scm commands did: how it ended, the lines it ran and
      the filesystem it left. */
  datatype Run = Run(outcome: Outcome<FetcherError>, lines: seq<string>, fs: Fs)

  /** `_scm_cmd` on each command in turn; the first failing command raises, and
      nothing after it runs. */
  function RunAll(shell: (string, Fs) -> ShellResult, executable: Path, name: string,
                  commands: seq<string>, fs: Fs): (run: Run)
    ensures |run.lines| <= |commands|
    ensures forall i :: 0 <= i < |run.lines| ==> run.lines[i] == CmdLine(executable, commands[i])
    ensures run.outcome.Pass? ==> |run.lines| == |commands|
    ensures run.outcome.Fail? ==> run.outcome == Fail(FetcherRuntime(name)) && |run.lines| > 0
  {
    if |commands| == 0 then Run(Pass, [], fs)
    else
      var line := CmdLine(executable, commands[0]);
      var res := shell(line, fs);
      if res.status != 0 then Run(Fail(FetcherRuntime(name)), [line], res.fs)
      else
        var rest := RunAll(shell, executable, name, commands[1..], res.fs);
        Run(rest.outcome, [line] + rest.lines, rest.fs)
  }

  /** One command: it runs, and the run fails exactly when it exits non-zero. */
  lemma RunOne(shell: (string, Fs) -> ShellResult, executable: Path, name: string, c: string, fs: Fs)
    ensures var line := CmdLine(executable, c);
      RunAll(shell, executable, name, [c], fs) ==
      Run(if shell(line, fs).status != 0 then Fail(FetcherRuntime(name)) else Pass, [line], shell(line, fs).fs)
  {
    assert [c][1..] == [];
  }

  /** Two commands: the second runs only when the first exits with status zero. */
  lemma RunTwo(shell: (string, Fs) -> ShellResult, executable: Path, name: string, c: string, d: string, fs: Fs)
    ensures var first := CmdLine(executable, c);
      var second := CmdLine(executable, d);
      var mid := shell(first, fs);
      RunAll(shell, executable, name, [c, d], fs) ==
      if mid.status != 0 then Run(Fail(FetcherRuntime(name)), [first], mid.fs)
      else Run(if shell(second, mid.fs).status != 0 then Fail(FetcherRuntime(name)) else Pass,
               [first, second], shell(second, mid.fs).fs)
  {
    assert [c, d][1..] == [d];
    RunOne(shell, executable, name, d, shell(CmdLine(executable, c), fs).fs);
  }

  /** A fetcher as `IFetcher.__init__` leaves it. */
  class Fetcher {
    const name: string
    const executable: Path
    const metadataDirectory: Option<string>

    constructor (name: string, executable: Path, metadataDirectory: Option<string>)
      ensures this.name == name && this.executable == executable
      ensures this.metadataDirectory == metadataDirectory
    {
      this.name := name;
      this.executable := executable;
      this.metadataDirectory := metadataDirectory;
    }

    /** `IFetcher(name, executable, metadata_directory)`: refused when the
        executable cannot be found; otherwise `name` and the metadata directory
        are kept as given. */
    static method Open(host: Host, name: string, executable: Option<string>, metadataDirectory: Option<string>)
      returns (r: Result<Fetcher, FetcherError>)
      ensures r.Err? ==> Resolve(host.environ, host.fs, executable) == Err(r.error)
      ensures r.Ok? ==> Resolve(host.environ, host.fs, executable) == Ok(r.value.executable)
      ensures r.Ok? ==> fresh(r.value) && r.value.name == name && r.value.metadataDirectory == metadataDirectory
    {
      var exe := FindExecutable(host.environ, host.fs, executable);
      if exe.Err? {
        return Err(exe.error);
      }
      var f := new Fetcher(name, exe.value, metadataDirectory);
      return Ok(f);
    }

    /** `_scm_cmd(command)`: run `executable command 2>&1` through the shell and
        raise `FetcherRuntimmeError` exactly when it exits non-zero. */
    method ScmCmd(host: Host, command: string) returns (r: Outcome<FetcherError>)
      modifies host
      ensures var line := CmdLine(executable, command);
        host.log == old(host.log) + [Shell(line)] &&
        host.fs == host.shell(line, old(host.fs)).fs &&
        (r.Fail? <==> host.shell(line, old(host.fs)).status != 0) &&
        (r.Fail? ==> r.error == FetcherRuntime(name))
      ensures host.cwd == old(host.cwd) && host.argv == old(host.argv)
    {
      var line := CmdLine(executable, command);
      var res := host.shell(line, host.fs);
      host.log := host.log + [Shell(line)];
      host.fs := res.fs;
      if res.status != 0 {
        return Fail(FetcherRuntime(name));
      }
      return Pass;
    }

    /** `update`, `fetch`, `fetch_or_update`, `is_valid_src_uri` and `match` as
        the interface defines them: each raises `NotImplementedMethodError`. */
    method Unimplemented(operation: string) returns (r: Outcome<FetcherError>)
      ensures r == Fail(NotImplementedMethod(operation))
    {
      return Fail(NotImplementedMethod(operation));
    }
  }
}
