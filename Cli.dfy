/** What `minimerge` does with its command line once `optparse` has read it:
    refuse conflicting modes, demand packages, allow one action at most, pick
    the action by precedence and find the configuration file. */
module Cli {
  import opened Util
  import opened FileSystem
  import opened Machine

  datatype CliError =
    | ConflictModes
    | NoPackages
    | TooMuchActions
    | InvalidConfigFile

  /** The `options` object `parse_args` returns. `jump` and `config` are
      string options, absent unless given. */
  datatype Flags = Flags(
    sync: bool, install: bool, update: bool, upgrade: bool, reinstall: bool, delete: bool,
    nodeps: bool, jump: Option<string>, fetchonly: bool, fetchfirst: bool, binary: bool, offline: bool,
    pretend: bool, ask: bool, verbose: bool, config: Option<string>, debug: bool)

  /** The values `options.action` can take. */
  datatype Action = Install | Delete | Reinstall | Sync

  /** The dictionary `do_read_options` returns. */
  datatype MinimergeOptions = MinimergeOptions(
    action: Action, ask: bool, config: Path, debug: bool, fetchfirst: bool, fetchonly: bool,
    jump: Option<string>, nodeps: bool, offline: bool, packages: seq<string>, path: Path,
    pretend: bool, update: bool, upgrade: bool, verbose: bool, binary: bool)

  /** Modes that cannot be combined: reinstall with delete, fetch-only with
      offline, a jump target with no dependencies. */
  predicate Conflicting(o: Flags) {
    (o.reinstall && o.delete) || (o.fetchonly && o.offline) || (TruthyOpt(o.jump) && o.nodeps)
  }

  /** Arguments were given on the command line, yet no package among them,
      and no sync was asked for. `argc` is `len(sys.argv)`. */
  predicate MissingPackages(o: Flags, args: seq<string>, argc: nat) {
    |args| == 0 && argc > 1 && !o.sync
  }

  /** The action flags `actionsCount` counts; sync is not one of them. */
  function ActionFlags(o: Flags): seq<bool> {
    [o.reinstall, o.install, o.delete]
  }

  /** How many of `bs` are set. */
  function CountSet(bs: seq<bool>): (n: nat)
    ensures n <= |bs|
    ensures n == 0 <==> forall i :: 0 <= i < |bs| ==> !bs[i]
    ensures n == |bs| <==> forall i :: 0 <= i < |bs| ==> bs[i]
  {
    if |bs| == 0 then 0 else CountSet(bs[..|bs| - 1]) + (if bs[|bs| - 1] then 1 else 0)
  }

  /** At least two of reinstall, install and delete. */
  predicate TwoActions(o: Flags) {
    (o.reinstall && o.install) || (o.reinstall && o.delete) || (o.install && o.delete)
  }

  /** Counting the action flags exceeds one exactly when two of them are set. */
  lemma CountTwoActions(o: Flags)
    ensures CountSet(ActionFlags(o)) > 1 <==> TwoActions(o)
  {
    var bs := ActionFlags(o);
    assert bs[..2][..1] == [o.reinstall];
    assert bs[..2] == [o.reinstall, o.install];
    assert CountSet(bs) == CountSet([o.reinstall, o.install]) + (if o.delete then 1 else 0);
  }

  /** The action by precedence: delete, reinstall, sync, install, and
      `install` when nothing is asked. */
  function ChosenAction(o: Flags): (a: Action)
    ensures a == Delete <==> o.delete
    ensures a == Reinstall <==> o.reinstall && !o.delete
    ensures a == Sync <==> o.sync && !o.reinstall && !o.delete
  {
    if o.delete then Delete
    else if o.reinstall then Reinstall
    else if o.sync then Sync
    else if o.install then Install
    else Install
  }

  /** Once at most one of reinstall, install and delete is set, the action is
      the one asked for; sync outranks install; nothing asked means install. */
  lemma ChosenIsRequested(o: Flags)
    requires !TwoActions(o)
    ensures o.delete ==> ChosenAction(o) == Delete
    ensures o.reinstall ==> ChosenAction(o) == Reinstall
    ensures o.install ==> ChosenAction(o) == (if o.sync then Sync else Install)
    ensures !o.reinstall && !o.install && !o.delete ==> ChosenAction(o) == (if o.sync then Sync else Install)
  {
  }

  /** The configuration files tried when none is given, in order:
      `<exec_prefix>/etc/minimerge.cfg`, then `~/.minimerge.cfg`. */
  function ConfigFiles(execPrefix: Path): seq<Path> {
    [execPrefix + "/etc/minimerge.cfg", "~/.minimerge.cfg"]
  }

  /** The first of `files`, each expanded, that is an existing file. */
  function FirstFile(fs: Fs, home: Path, files: seq<Path>): (r: Option<Path>)
    ensures r.None? <==> forall i :: 0 <= i < |files| ==> !IsFile(fs, ExpandUser(files[i], home))
    ensures r.Some? ==> exists i :: (0 <= i < |files| && r.value == ExpandUser(files[i], home) && IsFile(fs, r.value) &&
                                     (forall j :: 0 <= j < i ==> !IsFile(fs, ExpandUser(files[j], home))))
    decreases |files|
  {
    if |files| == 0 then None
    else if IsFile(fs, ExpandUser(files[0], home)) then Some(ExpandUser(files[0], home))
    else
      var r := FirstFile(fs, home, files[1..]);
      assert r.Some? ==> exists i :: (1 <= i < |files| && r.value == ExpandUser(files[i], home) && IsFile(fs, r.value) &&
                                      (forall j :: 0 <= j < i ==> !IsFile(fs, ExpandUser(files[j], home))));
      r
  }

  /** The configuration named on the command line, or else the one the
      search finds; an empty `--config` counts as none. */
  function ConfigPath(o: Flags, fs: Fs, home: Path, execPrefix: Path): Option<Path> {
    if TruthyOpt(o.config) then o.config else FirstFile(fs, home, ConfigFiles(execPrefix))
  }

  /** A configuration that passes both checks: non-empty and an existing file. */
  predicate ConfigUsable(config: Option<Path>, fs: Fs) {
    TruthyOpt(config) && IsFile(fs, config.value)
  }

  /** `do_read_options` from the parsed flags on: the checks in the order
      they run, then the options dictionary. */
  function Validate(o: Flags, args: seq<string>, argc: nat, execPrefix: Path, home: Path, fs: Fs)
    : (r: Result<MinimergeOptions, CliError>)
    ensures r == Err(ConflictModes) <==> Conflicting(o)
    ensures r == Err(NoPackages) <==> !Conflicting(o) && MissingPackages(o, args, argc)
    ensures r == Err(TooMuchActions) <==> !Conflicting(o) && !MissingPackages(o, args, argc) && TwoActions(o)
    ensures r == Err(InvalidConfigFile) <==>
      !Conflicting(o) && !MissingPackages(o, args, argc) && !TwoActions(o) && !ConfigUsable(ConfigPath(o, fs, home, execPrefix), fs)
    ensures r.Ok? <==> !Conflicting(o) && !MissingPackages(o, args, argc) && !TwoActions(o) &&
                       ConfigUsable(ConfigPath(o, fs, home, execPrefix), fs)
    ensures r.Ok? ==> r.value.config == ExpandUser(ConfigPath(o, fs, home, execPrefix).value, home)
    ensures r.Ok? ==> r.value.action == ChosenAction(o) && r.value.packages == args && r.value.path == execPrefix
    ensures r.Ok? ==> r.value.ask == o.ask && r.value.debug == o.debug && r.value.fetchfirst == o.fetchfirst &&
                      r.value.fetchonly == o.fetchonly && r.value.jump == o.jump && r.value.nodeps == o.nodeps &&
                      r.value.offline == o.offline && r.value.pretend == o.pretend && r.value.update == o.update &&
                      r.value.upgrade == o.upgrade && r.value.verbose == o.verbose && r.value.binary == o.binary
  {
    CountTwoActions(o);
    if Conflicting(o) then Err(ConflictModes)
    else if MissingPackages(o, args, argc) then Err(NoPackages)
    else if CountSet(ActionFlags(o)) > 1 then Err(TooMuchActions)
    else
      var config := ConfigPath(o, fs, home, execPrefix);
      if !ConfigUsable(config, fs) then Err(InvalidConfigFile)
      else Ok(MinimergeOptions(ChosenAction(o), o.ask, ExpandUser(config.value, home), o.debug, o.fetchfirst,
                               o.fetchonly, o.jump, o.nodeps, o.offline, args, execPrefix, o.pretend,
                               o.update, o.upgrade, o.verbose, o.binary))
  }

  /** A `--config` that names no existing file is refused with
      `InvalidConfigFileError`, without searching the default locations; one
      that names a file is taken, expanded. */
  lemma GivenConfigChecked(o: Flags, args: seq<string>, argc: nat, execPrefix: Path, home: Path, fs: Fs)
    requires !Conflicting(o) && !MissingPackages(o, args, argc) && !TwoActions(o) && TruthyOpt(o.config)
    ensures !IsFile(fs, o.config.value) ==> Validate(o, args, argc, execPrefix, home, fs) == Err(InvalidConfigFile)
    ensures IsFile(fs, o.config.value) ==>
      Validate(o, args, argc, execPrefix, home, fs).Ok? &&
      Validate(o, args, argc, execPrefix, home, fs).value.config == ExpandUser(o.config.value, home)
  {
    assert ConfigPath(o, fs, home, execPrefix) == o.config;
  }

  /** Without `--config`, an existing `<exec_prefix>/etc/minimerge.cfg` is
      taken, and `~/.minimerge.cfg` only when that one is missing. */
  lemma SearchOrder(o: Flags, args: seq<string>, argc: nat, execPrefix: Path, home: Path, fs: Fs)
    requires !Conflicting(o) && !MissingPackages(o, args, argc) && !TwoActions(o) && !TruthyOpt(o.config)
    ensures var system := ExpandUser(execPrefix + "/etc/minimerge.cfg", home);
      IsFile(fs, system) ==>
        Validate(o, args, argc, execPrefix, home, fs).Ok? &&
        Validate(o, args, argc, execPrefix, home, fs).value.config == ExpandUser(system, home)
    ensures var system := ExpandUser(execPrefix + "/etc/minimerge.cfg", home);
      var user := home + "/.minimerge.cfg";
      !IsFile(fs, system) && IsFile(fs, user) ==>
        Validate(o, args, argc, execPrefix, home, fs).Ok? &&
        Validate(o, args, argc, execPrefix, home, fs).value.config == ExpandUser(user, home)
    ensures var system := ExpandUser(execPrefix + "/etc/minimerge.cfg", home);
      !IsFile(fs, system) && !IsFile(fs, home + "/.minimerge.cfg") ==> Validate(o, args, argc, execPrefix, home, fs) == Err(InvalidConfigFile)
  {
    var files := ConfigFiles(execPrefix);
    var system := ExpandUser(files[0], home);
    assert |system| > 0;
    assert ExpandUser(files[1], home) == home + "/.minimerge.cfg";
    assert FirstFile(fs, home, files[1..][1..]) == None;
  }

  /** The `actionsCount` loop. */
  method CountActions(actions: seq<bool>) returns (actionsCount: nat)
    ensures actionsCount == CountSet(actions)
  {
    actionsCount := 0;
    for i := 0 to |actions|
      invariant actionsCount == CountSet(actions[..i])
    {
      assert actions[..i + 1][..i] == actions[..i];
      if actions[i] {
        actionsCount := actionsCount + 1;
      }
    }
    assert actions[..|actions|] == actions;
  }

  /** The search loop: expand each candidate and stop at the first existing file. */
  method SearchConfig(host: Host, files: seq<Path>) returns (found: Option<Path>)
    ensures found == FirstFile(host.fs, host.home, files)
  {
    var i := 0;
    while i < |files|
      invariant 0 <= i <= |files|
      invariant FirstFile(host.fs, host.home, files[i..]) == FirstFile(host.fs, host.home, files)
    {
      var file := ExpandUser(files[i], host.home);
      if IsFile(host.fs, file) {
        return Some(file);
      }
      assert files[i..][1..] == files[i + 1..];
      i := i + 1;
    }
    return None;
  }

  /** `do_read_options` after `parse_args`: `host` gives `sys.argv`, the
      filesystem and the home directory; `execPrefix` is `sys.exec_prefix`.
      Nothing of the host changes. */
  method ReadOptions(host: Host, o: Flags, args: seq<string>, execPrefix: Path)
    returns (r: Result<MinimergeOptions, CliError>)
    ensures r == Validate(o, args, |host.argv|, execPrefix, host.home, host.fs)
  {
    ghost var target := Validate(o, args, |host.argv|, execPrefix, host.home, host.fs);
    if (o.reinstall && o.delete) || (o.fetchonly && o.offline) || (TruthyOpt(o.jump) && o.nodeps) {
      return Err(ConflictModes);
    }
    if |args| == 0 && |host.argv| > 1 && !o.sync {
      return Err(NoPackages);
    }
    var actionsCount := CountActions(ActionFlags(o));
    CountTwoActions(o);
    if actionsCount > 1 {
      return Err(TooMuchActions);
    }
    var action;
    if o.delete {
      action := Delete;
    } else if o.reinstall {
      action := Reinstall;
    } else if o.sync {
      action := Sync;
    } else if o.install {
      action := Install;
    } else {
      action := Install;
    }
    var config := o.config;
    if !TruthyOpt(config) {
      var found := SearchConfig(host, ConfigFiles(execPrefix));
      if found.Some? {
        config := found;
      }
    }
    if !TruthyOpt(config) {
      return Err(InvalidConfigFile);
    }
    if !IsFile(host.fs, config.value) {
      return Err(InvalidConfigFile);
    }
    assert config == ConfigPath(o, host.fs, host.home, execPrefix);
    var path := ExpandUser(config.value, host.home);
    return Ok(MinimergeOptions(action, o.ask, path, o.debug, o.fetchfirst, o.fetchonly, o.jump, o.nodeps,
                               o.offline, args, execPrefix, o.pretend, o.update, o.upgrade, o.verbose, o.binary));
  }
}
