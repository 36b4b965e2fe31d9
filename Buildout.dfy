/** The buildout maker: which parts a package category asks buildout to
    install, and `install`, which runs buildout in the package directory with
    a command line built in `sys.argv`, then puts `sys.argv` and the working
    directory back, whatever buildout did. */
module Buildout {
  import opened Util
  import opened FileSystem
  import opened Machine
  import opened Makers

  /** The buildout command-line options used when the maker's configuration
      gives none. */
  const DefaultOptions: string := "-N" + " " + "-c" + "  " + "buildout.cfg" + " " + "-vvvvv"

  /** `DefaultOptions` split on whitespace, as `DefaultOptionsWords` proves. */
  const DefaultArgs: seq<string> := ["-N", "-c", "buildout.cfg", "-vvvvv"]

  /** `BuildoutMaker.match(switch)`. */
  predicate Match(switch: string) {
    switch == "buildout"
  }

  /** The buildout maker answers to exactly the switch its default entry is
      registered under in the maker factory. */
  lemma MatchesRegisteredKey(asWritten: bool)
    ensures forall switch :: Match(switch) <==> switch in Defaults(asWritten)
  {
  }

  /** The `parts` option: one string of part names, or a list of them. */
  datatype Parts = PartsStr(s: string) | PartsList(items: seq<string>)

  /** Python truthiness of a `parts` value. */
  predicate PartsTruthy(p: Parts) {
    match p
    case PartsStr(s) => s != ""
    case PartsList(items) => items != []
  }

  /** The options `install` reads: `offline`, and `parts` when present. */
  datatype InstallOpts = InstallOpts(offline: bool, parts: Option<Parts>)

  /** What `install` does with no options at all. */
  const NoOpts := InstallOpts(false, None)

  /** `['site-packages-%s' % v for v in versions]`. */
  function SitePackages(versions: seq<string>): (parts: seq<string>)
    ensures |parts| == |versions|
    ensures forall i :: 0 <= i < |versions| ==> parts[i] == "site-packages-" + versions[i]
  {
    if versions == [] then [] else ["site-packages-" + versions[0]] + SitePackages(versions[1..])
  }

  /** `BuildoutMaker.get_options` for a package of `category` built for
      `pythonVersions`: `Some(parts)` for `{'parts': parts}` and `None` for
      `{}`. A dependency installs its `part` part, an egg one
      `site-packages-<version>` part per Python version, in order; any other
      category, or an egg with no versions, gets no options. */
  function GetOptions(category: string, pythonVersions: seq<string>): (r: Option<Parts>)
    ensures category == "dependencies" ==> r == Some(PartsStr("part"))
    ensures category == "eggs" && pythonVersions != [] ==> r == Some(PartsList(SitePackages(pythonVersions)))
    ensures category != "dependencies" && (category != "eggs" || pythonVersions == []) ==> r.None?
    ensures r.Some? ==> PartsTruthy(r.value)
  {
    var parts :=
      if category == "eggs" then Some(PartsList(SitePackages(pythonVersions)))
      else if category == "dependencies" then Some(PartsStr("part"))
      else None;
    if parts.Some? && PartsTruthy(parts.value) then parts else None
  }

  /** The words `install` puts on the command line for a `parts` value: a
      string is split on whitespace, a list is used as it is. */
  function PartsArgs(p: Parts): seq<string> {
    match p
    case PartsStr(s) => Words(s)
    case PartsList(items) => items
  }

  /** `argv[:1]`: the program name, when there is one. */
  function Head(argv: seq<string>): (h: seq<string>)
    ensures |argv| == 0 ==> h == []
    ensures |argv| > 0 ==> h == [argv[0]]
  {
    argv[..if |argv| == 0 then 0 else 1]
  }

  /** `config.get('options', '-N -c  buildout.cfg -vvvvv').split()`. */
  function OptionWords(config: map<string, string>): seq<string> {
    if "options" in config then Words(config["options"]) else DefaultArgs
  }

  /** What `install` appends after the options: `-o` when offline, then
      `install` and the parts when there are any. */
  function Extra(opts: InstallOpts): seq<string> {
    (if opts.offline then ["-o"] else [])
      + (if opts.parts.Some? && PartsTruthy(opts.parts.value) then ["install"] + PartsArgs(opts.parts.value) else [])
  }

  /** The `sys.argv` buildout runs with: the program name kept, then the
      configured options split on whitespace, then the extra arguments. */
  function BuildoutArgv(argv: seq<string>, config: map<string, string>, opts: InstallOpts): seq<string> {
    Head(argv) + OptionWords(config) + Extra(opts)
  }

  /** Splitting a whitespace-free word followed by whitespace and more text
      gives the word, then the words of the text. */
  lemma WordsCons(w: string, space: string, rest: string)
    requires |w| > 0 && NoSpace(w)
    requires |space| > 0 && forall j :: 0 <= j < |space| ==> IsSpace(space[j])
    ensures Words(w + (space + rest)) == [w] + Words(rest)
  {
    var s := w + (space + rest);
    assert WordLength(s) == |w| by {
      WordIsWord(w);
      assert forall j :: 0 <= j < |w| ==> s[j] == w[j];
      WordLengthOf(s, |w|);
    }
    assert s[..|w|] == w;
    SpaceDropped(space, rest);
    assert s[|w|..] == space + rest;
  }

  /** `WordLength` is the position of the first whitespace character. */
  lemma {:induction false} WordLengthOf(s: string, n: nat)
    requires n <= |s| && (forall j :: 0 <= j < n ==> !IsSpace(s[j])) && (n == |s| || IsSpace(s[n]))
    ensures WordLength(s) == n
    decreases n
  {
    if n > 0 {
      WordLengthOf(s[1..], n - 1);
    }
  }

  /** Leading whitespace gives no words. */
  lemma {:induction false} SpaceDropped(space: string, rest: string)
    requires forall j :: 0 <= j < |space| ==> IsSpace(space[j])
    ensures Words(space + rest) == Words(rest)
    decreases |space|
  {
    if |space| > 0 {
      assert (space + rest)[1..] == space[1..] + rest;
      SpaceDropped(space[1..], rest);
    } else {
      assert space + rest == rest;
    }
  }

  /** A string made of four words separated by runs of whitespace splits
      back into the four. */
  lemma SpacedWords(s: string, a: string, b: string, c: string, d: string, s1: string, s2: string, s3: string)
    requires |a| > 0 && NoSpace(a) && |b| > 0 && NoSpace(b) && |c| > 0 && NoSpace(c) && |d| > 0 && NoSpace(d)
    requires |s1| > 0 && (forall j :: 0 <= j < |s1| ==> IsSpace(s1[j]))
    requires |s2| > 0 && (forall j :: 0 <= j < |s2| ==> IsSpace(s2[j]))
    requires |s3| > 0 && (forall j :: 0 <= j < |s3| ==> IsSpace(s3[j]))
    requires s == a + (s1 + (b + (s2 + (c + (s3 + d)))))
    ensures Words(s) == [a, b, c, d]
  {
    WordIsWord(d);
    WordsCons(c, s3, d);
    WordsCons(b, s2, c + (s3 + d));
    WordsCons(a, s1, b + (s2 + (c + (s3 + d))));
  }

  /** The default options are `-N -c buildout.cfg -vvvvv`: the doubled space
      gives no empty argument. */
  lemma DefaultOptionsWords()
    ensures Words(DefaultOptions) == DefaultArgs
  {
    var a, b, c, d := "-N", "-c", "buildout.cfg", "-vvvvv";
    var s1, s2, s3 := " ", "  ", " ";
    assert DefaultOptions == a + (s1 + (b + (s2 + (c + (s3 + d)))));
    SpacedWords(DefaultOptions, a, b, c, d, s1, s2, s3);
  }

  /** The program name stays first, the configured options follow it word by
      word, and `-o` follows them exactly when the install is offline. */
  lemma ArgvLayout(argv: seq<string>, config: map<string, string>, opts: InstallOpts)
    requires |argv| > 0
    ensures var r := BuildoutArgv(argv, config, opts);
      var options := OptionWords(config);
      |r| > |options| && r[0] == argv[0] && r[1..1 + |options|] == options &&
      (opts.offline <==> |r| > 1 + |options| && r[1 + |options|] == "-o")
  {
    var options := OptionWords(config);
    var r := BuildoutArgv(argv, config, opts);
    assert r == [argv[0]] + options + Extra(opts);
    assert r[1..1 + |options|] == options;
    if |Extra(opts)| > 0 {
      assert r[1 + |options|] == Extra(opts)[0];
    }
  }

  /** Installing an egg package with the options `get_options` gives it asks
      buildout to install one `site-packages-<version>` part per Python
      version, in order, at the end of the command line. */
  lemma EggsInstallParts(argv: seq<string>, config: map<string, string>, offline: bool, versions: seq<string>)
    requires versions != []
    ensures var r := BuildoutArgv(argv, config, InstallOpts(offline, GetOptions("eggs", versions)));
      |r| > |versions| && r[|r| - |versions| - 1] == "install" &&
      forall i :: 0 <= i < |versions| ==> r[|r| - |versions| + i] == "site-packages-" + versions[i]
  {
    var parts := SitePackages(versions);
    var opts := InstallOpts(offline, GetOptions("eggs", versions));
    assert Extra(opts) == (if offline then ["-o"] else []) + (["install"] + parts);
    var prefix := Head(argv) + OptionWords(config) + (if offline then ["-o"] else []);
    var r := BuildoutArgv(argv, config, opts);
    assert r == prefix + ["install"] + parts;
  }

  /** Installing a dependency with the options `get_options` gives it ends the
      command line with `install part`. */
  lemma DependenciesInstallPart(argv: seq<string>, config: map<string, string>, offline: bool)
    ensures var r := BuildoutArgv(argv, config, InstallOpts(offline, GetOptions("dependencies", [])));
      |r| >= 2 && r[|r| - 2..] == ["install", "part"]
  {
    WordIsWord("part");
    var opts := InstallOpts(offline, GetOptions("dependencies", []));
    assert Extra(opts) == (if offline then ["-o"] else []) + ["install", "part"];
    var prefix := Head(argv) + OptionWords(config) + (if offline then ["-o"] else []);
    assert BuildoutArgv(argv, config, opts) == prefix + ["install", "part"];
  }

  /** `BuildoutMaker`: a maker holding its configuration section. */
  class BuildoutMaker {
    const config: map<string, string>

    /** `BuildoutMaker(config)`: no configuration means an empty one. */
    constructor (config: Option<map<string, string>>)
      ensures this.config == if config.Some? then config.value else map[]
    {
      this.config := if config.Some? then config.value else map[];
    }

    /** `install(directory, opts)`: change into `directory`, set `sys.argv`
        to the buildout command line, run buildout, and restore `sys.argv`
        and the working directory whether buildout succeeded or not; a
        buildout failure becomes `BuildoutError`. A `directory` that is not
        a directory raises `OSError` before anything changes. */
    method Install(host: Host, directory: Path, opts: InstallOpts) returns (r: Outcome<MakerError>)
      modifies host
      ensures host.argv == old(host.argv) && host.cwd == old(host.cwd) && host.fs == old(host.fs)
      ensures !IsDir(host.fs, directory) ==> r == Fail(OSError(directory)) && host.log == old(host.log)
      ensures IsDir(host.fs, directory) ==>
        var argv := BuildoutArgv(old(host.argv), config, opts);
        host.log == old(host.log) + [BuildoutMain(directory, argv)] &&
        (r.Pass? <==> host.buildout(directory, argv)) &&
        (r.Fail? ==> r.error == BuildoutError)
    {
      var cwd := host.cwd;
      ghost var argv := BuildoutArgv(host.argv, config, opts);
      if !IsDir(host.fs, directory) {
        return Fail(OSError(directory));
      }
      host.cwd := directory;
      var oldArgs := host.argv;
      host.argv := Head(host.argv) + (if "options" in config then Words(config["options"]) else DefaultArgs);
      if opts.offline {
        host.argv := host.argv + ["-o"];
      }
      if opts.parts.Some? && PartsTruthy(opts.parts.value) {
        host.argv := host.argv + ["install"];
        host.argv := host.argv + PartsArgs(opts.parts.value);
      }
      assert host.argv == argv;
      host.log := host.log + [BuildoutMain(host.cwd, host.argv)];
      var ok := host.buildout(host.cwd, host.argv);
      host.argv := oldArgs;
      host.cwd := cwd;
      if !ok {
        return Fail(BuildoutError);
      }
      return Pass;
    }

    /** `reinstall(directory, opts)`: remove `directory/.installed.cfg`, so
        that buildout rebuilds every part, then install. Without that file
        `os.remove` raises `OSError` and nothing is installed. */
    method Reinstall(host: Host, directory: Path, opts: InstallOpts) returns (r: Outcome<MakerError>)
      modifies host
      ensures var installed := Child(directory, ".installed.cfg");
        !IsFile(old(host.fs), installed) ==> r == Fail(OSError(installed)) && host.fs == old(host.fs) && host.log == old(host.log)
      ensures var installed := Child(directory, ".installed.cfg");
        IsFile(old(host.fs), installed) ==> host.fs == old(host.fs) - {installed}
      ensures var installed := Child(directory, ".installed.cfg");
        IsFile(old(host.fs), installed) && IsDir(old(host.fs), directory) ==>
          var argv := BuildoutArgv(old(host.argv), config, opts);
          host.log == old(host.log) + [BuildoutMain(directory, argv)] &&
          (r.Pass? <==> host.buildout(directory, argv))
      ensures host.argv == old(host.argv) && host.cwd == old(host.cwd)
    {
      var installed := Child(directory, ".installed.cfg");
      if !IsFile(host.fs, installed) {
        return Fail(OSError(installed));
      }
      assert installed != directory;
      host.fs := host.fs - {installed};
      r := Install(host, directory, opts);
    }
  }
}
