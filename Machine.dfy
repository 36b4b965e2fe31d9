/** The process the core runs in: its filesystem, working directory,
    `sys.argv`, environment, and what it has asked of the outside world.
    Everything the core cannot see into (the shell, the network, buildout,
    `shutil.rmtree` failures) is an oracle fixed when the host is built. */
module Machine {
  import opened FileSystem

  /** A trace of what the process asked of the outside world, in order. */
  datatype Event =
    | Shell(line: string)                       // a command line run through `subprocess.Popen(..., shell=True)`
    | Download(uri: string)                     // `urllib.urlopen(uri).read()`
    | BuildoutMain(cwd: Path, argv: seq<string>) // `zc.buildout.buildout.main()` with `sys.argv`

  /** What running a command line does: its exit status and the filesystem after it. */
  datatype ShellResult = ShellResult(status: int, fs: Fs)

  class Host {
    var fs: Fs
    var cwd: Path
    var argv: seq<string>
    var log: seq<Event>
    /** `os.environ`. */
    const environ: map<string, string>
    /** The value `os.path.expanduser` gives `~`. */
    const home: Path
    const shell: (string, Fs) -> ShellResult
    /** Whether `urllib.urlopen(uri).read()` succeeds. */
    const download: string -> bool
    /** Whether `zc.buildout.buildout.main()` returns normally for this working directory and argv. */
    const buildout: (Path, seq<string>) -> bool
    /** Whether `shutil.rmtree(p)` removes `p` without raising. */
    const removable: Path -> bool

    constructor (fs0: Fs, cwd0: Path, argv0: seq<string>, environ0: map<string, string>, home0: Path,
                 shell0: (string, Fs) -> ShellResult, download0: string -> bool,
                 buildout0: (Path, seq<string>) -> bool, removable0: Path -> bool)
      ensures fs == fs0 && cwd == cwd0 && argv == argv0 && log == []
      ensures environ == environ0 && home == home0 && shell == shell0
      ensures download == download0 && buildout == buildout0 && removable == removable0
    {
      fs, cwd, argv, log := fs0, cwd0, argv0, [];
      environ, home, shell := environ0, home0, shell0;
      download, buildout, removable := download0, buildout0, removable0;
    }
  }

  /** `os.path.expanduser(p)` for the current user: a leading `~` alone or
      followed by `/` becomes the home directory; any other path is kept. */
  function ExpandUser(p: Path, home: Path): (r: Path)
    ensures |p| == 0 || p[0] != '~' ==> r == p
    ensures p == "~" ==> r == home
    ensures |p| >= 2 && p[..2] == "~/" ==> r == home + p[1..]
  {
    if p == "~" then home
    else if |p| >= 2 && p[..2] == "~/" then home + p[1..]
    else p
  }
}
