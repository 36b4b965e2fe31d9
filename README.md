# minitage.core in Dafny

A model of the core of minitage.core, the package manager behind the
`minimerge` command, with proofs about it. Each Dafny module follows one
source file:

- `PackageNames`: the package-name grammar `packageversion_re`. It is stated
  as the regular expression reads, with an existential split between base
  name and suffix. A one-pass check, `CheckMinibuildName`, is proved to
  accept exactly the same names. It accepts every name in the repository's
  list of valid names and rejects every name in its list of invalid ones.
- `Objects`: minibuilds (package descriptors) and minilays (directories of
  minibuilds).
  - `Minibuild.load` is a chain of checks. It is modelled twice: as a pure
    function (`Chain`, with `SectionChain` and `SourceChecks`) and as the
    imperative `Minibuild.Load`, which assigns the attributes step by step.
    The method is proved to agree with the function.
  - Lazy loading on attribute access is `Minibuild.GetAttr`.
  - `Minilay.Load` adds minibuilds to a map and a list in place, and fails without change when its directory cannot be listed.
- `Fetchers`: `URI_REGEX`, the `PATH` search of `IFetcher.__init__`,
  `_scm_cmd` and the abstract fetcher operations.
- `Scm`: the Mercurial fetcher, as command sequences over an abstract shell.
- `Static`: the static (file/http/https) fetcher.
  - `update` purges the destination of everything but `.download`, then
    fetches.
  - `minitage/core/unpackers/static.py` does not parse. The model follows
    what its statements evidently mean:
    - `is not os.path.isdir(dest)` is read as `if not`.
    - `'%s/%s' % (dest)` in `fetch_or_update` is read as `dest/.download`,
      the entry `update` keeps.
- `Interfaces`: `IFactory`, a registry of classes filled from a
  configuration section of dotted class paths.
- `Makers`: `IMakerFactory`, its first-match dispatch and `IMaker.delete`.
- `Buildout`: `BuildoutMaker`. This covers `get_options`, the `sys.argv` that
  `install` builds for buildout, the restoring of `sys.argv` and the working
  directory, and `reinstall`.
- `Cli`: `do_read_options` after `optparse` has run. This covers conflicting
  modes, the package check, action counting and precedence, the
  configuration-file search, and the options dictionary.

The process is a `Machine.Host` object. It holds:
- a filesystem, a map from path strings to files and directories;
- the working directory and `sys.argv`;
- a log of the shell commands, downloads and buildout runs it requested.

The shell, the network, buildout and `shutil.rmtree` failures are oracles
fixed when the host is built. `ConfigParser` output is given as already
parsed: a parse failure, or a map of sections.

## Model

| member | source | states |
|---|---|---|
| PackageNames.CheckMinibuildName | minitage/core/objects.py:184-191 | true exactly when `packageversion_re` matches the name, counting Python's `$` before a final newline |
| PackageNames.GreedyMatchCorrect | minitage/core/objects.py:84-97 | the one-pass check accepts a string exactly when the regex, base name then suffix, matches all of it |
| PackageNames.GreedyMatchSound | minitage/core/objects.py:84-97 | what the one-pass check accepts, the regex matches |
| PackageNames.GreedyMatchComplete | minitage/core/objects.py:84-97 | what the regex matches, the one-pass check accepts |
| PackageNames.SuffixFromCorrect | minitage/core/objects.py:90-92 | the repeated suffix group matches exactly when the text, cut at each `-` and `_`, is a sequence of pieces |
| PackageNames.BaseNameMatches | minitage/core/objects.py:94-96 | a base name alone (alphanumeric tokens joined by `-`) is accepted |
| PackageNames.AppendPiece | minitage/core/objects.py:90-96 | an accepted name followed by one more version or `_qualifier` piece is accepted |
| PackageNames.UnderscoreIntroducesQualifier | minitage/core/objects.py:84-92 | in an accepted name every `_` starts a revision, tag/branch or pre-release qualifier running to the next separator |
| PackageNames.NoTrailingSeparator | minitage/core/objects.py:90-96 | an accepted name never ends with `-` or `_` |
| PackageNames.RejectedQualifier | minitage/core/objects.py:84-92 | a name in which some `_` is followed by a non-qualifier is rejected |
| PackageNames.RejectedTrailing | minitage/core/objects.py:96-97 | a name ending in `-` or `_` is rejected |
| PackageNames.VersionedName | minitage/core/objects.py:90-96 | `base-1.2.3` is accepted for any base name and dotted number |
| PackageNames.PreReleaseName | minitage/core/objects.py:84-96 | `base-d_kwN` is accepted for every pre-release keyword and digit string |
| PackageNames.TwoPreReleaseName | minitage/core/objects.py:84-96 | two pre-release qualifiers in a row are accepted |
| PackageNames.TagName | minitage/core/objects.py:86-96 | `base-d_tagX` and `base-d_branchX` are accepted for a body of capitals, digits and dots starting with a capital or digit |
| PackageNames.RevisionName | minitage/core/objects.py:88-96 | `base-d_rHEAD`, `_rTIP` and `_r<digits>` are accepted |
| PackageNames.MetaNameAccepted | minitage/core/tests/test_minibuilds.py:35 | `meta-toto` is accepted |
| PackageNames.DashedNameAccepted | minitage/core/tests/test_minibuilds.py:36 | `test-toto` is accepted |
| PackageNames.TokenNameAccepted | minitage/core/tests/test_minibuilds.py:37 | `toto` is accepted |
| PackageNames.VersionNameAccepted | minitage/core/tests/test_minibuilds.py:38 | `test-1.0` is accepted |
| PackageNames.TwoTokenVersionNameAccepted | minitage/core/tests/test_minibuilds.py:39 | `test-test-1.0` is accepted |
| PackageNames.DottedVersionNameAccepted | minitage/core/tests/test_minibuilds.py:40 | `test-1.0.3` is accepted |
| PackageNames.BetaNameAccepted | minitage/core/tests/test_minibuilds.py:41 | `test-1.0_beta444` is accepted |
| PackageNames.BetaPreNameAccepted | minitage/core/tests/test_minibuilds.py:42 | `test-1.0_beta444_pre20071024` is accepted |
| PackageNames.AlphaNameAccepted | minitage/core/tests/test_minibuilds.py:43 | `test-1.0_alpha44` is accepted |
| PackageNames.AlphaPreNameAccepted | minitage/core/tests/test_minibuilds.py:44 | `test-1.0_alpha44_pre20071024` is accepted |
| PackageNames.PreNameAccepted | minitage/core/tests/test_minibuilds.py:45 | `test-1.0_pre20071024` is accepted |
| PackageNames.BranchNameAccepted | minitage/core/tests/test_minibuilds.py:46 | `test-1.0_branch10` is accepted |
| PackageNames.BranchHeadNameAccepted | minitage/core/tests/test_minibuilds.py:47 | `test-1.0_branchHEAD10` is accepted |
| PackageNames.TagNameAccepted | minitage/core/tests/test_minibuilds.py:48 | `test-1.0_tagHEAD10` is accepted |
| PackageNames.RevisionNameAccepted | minitage/core/tests/test_minibuilds.py:49 | `test-1.0_r1` is accepted |
| PackageNames.RevisionHeadNameAccepted | minitage/core/tests/test_minibuilds.py:50 | `test-1.0_rHEAD` is accepted |
| PackageNames.RevisionTipNameAccepted | minitage/core/tests/test_minibuilds.py:51 | `test-1.0_rTIP` is accepted |
| PackageNames.TrailingDashNamesRejected | minitage/core/tests/test_minibuilds.py:56-64 | `test-`, `test-test-`, `meta-meta-` and `meta-` are rejected |
| PackageNames.ProutNameRejected | minitage/core/tests/test_minibuilds.py:57 | `test-1.0_prout4` is rejected |
| PackageNames.ProutBeforeVersionNameRejected | minitage/core/tests/test_minibuilds.py:58 | `test_prout4-1.0` is rejected |
| PackageNames.LowerCaseBranchNameRejected | minitage/core/tests/test_minibuilds.py:61 | `test-1.0_brancha10` is rejected |
| PackageNames.DotBranchNameRejected | minitage/core/tests/test_minibuilds.py:62 | `test-1.0_branch.10` is rejected |
| PackageNames.WordRevisionNameRejected | minitage/core/tests/test_minibuilds.py:63 | `test-1.0_rnot` is rejected |
| Objects.NotIn | minitage/core/objects.py:232-236 | keeps each word of the OS-specific list, with its multiplicity, exactly when it is not among the common dependencies |
| Objects.NotInAppend | minitage/core/objects.py:232-236 | the filter keeps the order of the list: filtering two lists in a row gives the two filtered lists in a row |
| Objects.Dependencies | minitage/core/objects.py:228-236 | the words of `depends` come first, unchanged, repeats included; every later word is not among them, and each word of `depends-<uname>` outside `depends` follows them as often as it occurs there, in its order in `depends-<uname>` (the tail is that list filtered, and `Objects.NotInAppend` shows the filter keeps order); a word is a dependency exactly when it is in `depends` or in `depends-<uname>` |
| Objects.CategoryChecks | minitage/core/objects.py:270-282 | passes exactly when `category` is present and valid; `category` is assigned as read |
| Objects.SourceChecks | minitage/core/objects.py:251-282 | with a `src_uri`: passes exactly when `src_type` is a valid fetch method and `category` a valid category; assigns only `src_type`, `src_opts`, `src_md5` and `category` |
| Objects.SectionChain | minitage/core/objects.py:225-295 | the section stage of `load` returns exactly when every check on the `[minibuild]` section passes |
| Objects.Chain | minitage/core/objects.py:209-222 | before the `[minibuild]` section is found, `load` can only raise, and assigns nothing |
| Objects.ChainPastSection | minitage/core/objects.py:220-225 | once the section exists, `load` is the section stage on what the section holds |
| Objects.NameCheckedFirst | minitage/core/objects.py:209-211 | a badly named minibuild raises `InvalidMinibuildNameError` with no attribute assigned, whatever its file holds |
| Objects.FileCheckedBeforeSection | minitage/core/objects.py:213-222 | a well-named minibuild raises `InvalidConfigFileError` for an unparsable file, then `NoMinibuildSectionError`, with no attribute assigned |
| Objects.LoadsIffAdmissible | minitage/core/objects.py:204-295 | `load` returns exactly when every check passes |
| Objects.LoadedAttributes | minitage/core/objects.py:228-286 | after a successful load, the dependencies and the stripped options are what the section says |
| Objects.NoUriNoFetchChecks | minitage/core/objects.py:250-282 | without a `src_uri`, `src_type`, `src_opts`, `src_md5` and `category` are neither read nor checked, and only the install-method or empty check can fail |
| Objects.FetchMethodChecked | minitage/core/objects.py:254-267 | with a `src_uri`, a missing `src_type` raises `MissingFetchMethodError`, then an unknown one raises `InvalidFetchMethodError` |
| Objects.CategoryChecked | minitage/core/objects.py:270-282 | with a `src_uri` and a good `src_type`, a missing or empty `category` raises `MissingCategoryError`, then an unknown one raises `InvalidCategoryError` |
| Objects.EmptyCheckedLast | minitage/core/objects.py:288-293 | `EmptyMinibuildError` is raised exactly when every other section check passes and there is neither an install method nor a dependency |
| Objects.OnlyDependsFields | minitage/core/objects.py:228-286 | a section with only a one-word `depends` reads as that dependency and every other option empty |
| Objects.OnlyDependsLoads | minitage/core/objects.py:204-295 | a well-named minibuild whose section only lists one dependency loads, with that dependency |
| Objects.InstallMethodTypo | minitage/core/objects.py:240-247 | for an unknown install method, `load` as written raises `UnboundLocalError`; the corrected chain raises `InvalidInstallMethodError` |
| Objects.Minibuild.constructor | minitage/core/objects.py:161-182 | every attribute starts unset, and the minibuild is not loaded |
| Objects.Minibuild.Load | minitage/core/objects.py:204-295 | the attributes and outcome are those of the check chain; once the `[minibuild]` section is found the minibuild is loaded, because the first lazy attribute `load` reads (`dependencies` or `install_method`) runs a nested load |
| Objects.Minibuild.ReadSection | minitage/core/objects.py:225-295 | assigning the attributes in source order gives the section stage of the chain |
| Objects.Minibuild.ReadSource | minitage/core/objects.py:251-282 | the `src_uri` branch gives the source checks of the chain |
| Objects.Minibuild.Lookup | minitage/core/objects.py:193-202 | an attribute read fails exactly for `config`, which is never assigned |
| Objects.Minibuild.GetAttr | minitage/core/objects.py:193-202 | a lazy attribute of an unloaded minibuild marks it loaded and loads it, and the load's error propagates; any other read only looks up; `state` never changes |
| Objects.MinibuildNamedAfterEntry | minitage/core/objects.py:131-133 | a minibuild added for directory entry `e` is named `e` |
| Objects.Minilay.constructor | minitage/core/objects.py:109-111 | empty, not loaded, and valid |
| Objects.Minilay.Open | minitage/core/objects.py:109-114 | a minilay is built exactly when its path is a directory, else `InvalidMinilayPath` |
| Objects.Minilay.Load | minitage/core/objects.py:116-134 | does nothing once loaded or when the item is known; without an item, a path that is not a directory raises `OSError` from `os.listdir` and changes nothing, `loaded` included; otherwise adds every candidate not yet known, never replaces an entry, and sets `loaded` only without an item |
| Objects.Minilay.AddAll | minitage/core/objects.py:129-134 | afterwards a name is known exactly when it was known before or is among the names; known minibuilds are kept |
| Objects.Minilay.Add | minitage/core/objects.py:130-134 | one new minibuild at `path/name`, appended to `items` |
| Fetchers.MatchScheme | minitage/core/fetchers/interfaces.py:31 | the regex alternation picks a listed scheme that fits, and none only when no scheme fits |
| Fetchers.UriScheme | minitage/core/fetchers/interfaces.py:31 | group 2 exists exactly when `URI_REGEX` matches, and is a listed scheme that fits the URI |
| Fetchers.SchemeUnique | minitage/core/fetchers/interfaces.py:31 | at most one scheme fits a URI |
| Fetchers.SchemeOf | minitage/core/fetchers/interfaces.py:31 | `s://rest` has group 2 equal to `s` for each of the thirteen schemes |
| Fetchers.NoSchemeNoMatch | minitage/core/fetchers/interfaces.py:31 | a string with no `scheme://` prefix does not match |
| Fetchers.FirstHolding | minitage/core/fetchers/interfaces.py:62-65 | the first `PATH` directory holding the executable, and none before it does |
| Fetchers.ResolveFindsFile | minitage/core/fetchers/interfaces.py:59-72 | a resolved executable is an existing file; resolution fails only with `FetcherNotInPathError` or a missing `PATH` |
| Fetchers.ResolveSearchesInOrder | minitage/core/fetchers/interfaces.py:61-65 | a bare name resolves to `dir/name` for the first `PATH` entry holding it |
| Fetchers.NoExecutableNotFound | minitage/core/fetchers/interfaces.py:59-72 | a `None` executable is searched as `''` and never found |
| Fetchers.FindExecutable | minitage/core/fetchers/interfaces.py:56-72 | the search loop with its `break` gives the resolution above |
| Fetchers.RunAll | minitage/core/fetchers/interfaces.py:115-120 | commands run in order until the first non-zero exit, which raises `FetcherRuntimmeError` |
| Fetchers.RunOne | minitage/core/fetchers/interfaces.py:115-120 | one command runs and fails exactly when it exits non-zero |
| Fetchers.RunTwo | minitage/core/fetchers/interfaces.py:115-120 | the second command runs only when the first exits with status zero |
| Fetchers.Fetcher.constructor | minitage/core/fetchers/interfaces.py:56-58 | name, executable and metadata directory are kept as given |
| Fetchers.Fetcher.Open | minitage/core/fetchers/interfaces.py:49-72 | built exactly when the executable resolves, with that path; `name` and `metadata_directory` as given |
| Fetchers.Fetcher.ScmCmd | minitage/core/fetchers/interfaces.py:115-120 | runs `executable command 2>&1`, logs it, and fails exactly on a non-zero exit status |
| Fetchers.Fetcher.Unimplemented | minitage/core/fetchers/interfaces.py:74-113 | the abstract operations raise `NotImplementedMethodError` |
| Scm.ValidSrcUriIff | minitage/core/fetchers/scm.py:111-119 | a URI is valid exactly when it is `s://rest` for `file`, `hg`, `ssh`, `http` or `https` |
| Scm.Revision | minitage/core/fetchers/scm.py:59-61 | the `revision` option, or `tip` when there are no options or no such key |
| Scm.RepositoryCheck | minitage/core/fetchers/scm.py:65-68 | passes exactly when `dest/.hg` is a directory |
| Scm.InvalidUriRunsNothing | minitage/core/fetchers/scm.py:62-70 | `fetch` and `update` on an invalid URI raise `InvalidUrlError` before any command and change nothing |
| Scm.FetchClonesOnce | minitage/core/fetchers/scm.py:89-95 | `fetch` runs exactly one `clone -r REV URI DEST`, and succeeds exactly when it exits cleanly and leaves `.hg` |
| Scm.UpdatePullsThenUps | minitage/core/fetchers/scm.py:62-68 | `update` runs `pull`, and then `up` only when the pull exits cleanly; a failing `up` raises `FetcherRuntimeError`; the update succeeds exactly when both exit cleanly and `.hg` is a directory |
| Scm.MissingMarkerMessage | minitage/core/fetchers/scm.py:92-95 | a clean clone without `.hg` raises `TypeError` as written; the corrected check raises `InvalidMercurialRepositoryError` |
| Scm.UpdateMissingMarkerMessage | minitage/core/fetchers/scm.py:65-68 | a clean pull and up without `.hg` raise `TypeError` as written; the corrected check raises `InvalidMercurialRepositoryError` |
| Scm.MatchAccepts | minitage/core/fetchers/scm.py:121-124 | the fetcher answers to `hg` alone, and accepts every `hg://` URI |
| Scm.NewHgFetcher | minitage/core/fetchers/scm.py:41-42 | a fetcher named `mercurial`, running `hg` from `PATH`, with metadata directory `.hg` |
| Scm.Fetch | minitage/core/fetchers/scm.py:72-97 | outcome, filesystem and command log are those of the clone run |
| Scm.Update | minitage/core/fetchers/scm.py:44-70 | outcome, filesystem and command log are those of the pull-then-up run |
| Scm.FetchOrUpdate | minitage/core/fetchers/scm.py:99-109 | update when `dest` is a directory, fetch otherwise; the `.hg` marker is not consulted |
| Static.ValidSrcUriIff | minitage/core/unpackers/static.py:114-121 | a URI is valid exactly when it is `s://rest` for `file`, `http` or `https` |
| Static.UriChanged | minitage/core/unpackers/static.py:129-133 | never reports a change |
| Static.MatchIffAccepts | minitage/core/unpackers/static.py:123-127 | the fetcher answers to a scheme exactly when it accepts the URIs written with it |
| Static.FileName | minitage/core/unpackers/static.py:92 | the part of the URI after its last `/`, without `/` |
| Static.WithoutRemovesEntries | minitage/core/unpackers/static.py:64-68 | every removed entry `dir/m` goes with everything inside it; every path under no removed entry stays, unchanged; nothing is added |
| Static.PurgeKeeps | minitage/core/unpackers/static.py:63-68 | the purge keeps `dest`, everything outside it and everything in `dest/.download`; whatever it keeps is unchanged |
| Static.Prepare | minitage/core/unpackers/static.py:89-91 | a missing `dest` is created along with `dest/.download`; an existing one is left alone |
| Static.Store | minitage/core/unpackers/static.py:92-102 | the file lands at `dest/<file>` exactly when the download succeeds; any failure raises `StaticFetchError` and writes nothing |
| Static.InvalidUriChangesNothing | minitage/core/unpackers/static.py:71-72 | `fetch` and `update` on an invalid URI raise `InvalidUrlError` and change nothing |
| Static.FetchWritesFile | minitage/core/unpackers/static.py:88-98 | a successful fetch leaves `dest/<file>` a file and the process in `dest` |
| Static.FetchMakesDownloadDir | minitage/core/unpackers/static.py:89-90 | a fetch into a missing `dest` leaves `dest/.download` a directory |
| Static.UpdateKeepsDownload | minitage/core/unpackers/static.py:63-70 | an update keeps everything outside `dest` and in `dest/.download` unchanged |
| Static.Fetch | minitage/core/unpackers/static.py:74-105 | outcome, filesystem, working directory and log are those of the fetch effect |
| Static.Purge | minitage/core/unpackers/static.py:64-68 | removing the listed entries one by one, in any order, gives the purge |
| Static.Update | minitage/core/unpackers/static.py:50-72 | outcome, filesystem, working directory and log are those of purge-then-fetch |
| Static.FetchOrUpdate | minitage/core/unpackers/static.py:107-112 | update when `dest/.download` is a directory, fetch otherwise |
| Interfaces.SplitClassPath | minitage/core/interfaces.py:85-86 | the pieces hold no dot and join back into the stripped value; the last piece is the class |
| Interfaces.SplitDotted | minitage/core/interfaces.py:85-86 | splitting a dotted class path gives back its module chain and class |
| Interfaces.RegisterError | minitage/core/interfaces.py:98-100 | a lookup failure gives `InvalidComponentClassPathError`; a string attribute gives `InvalidComponentClassError` |
| Interfaces.Unnamed | minitage/core/interfaces.py:62-63 | every section loses `__name__` and keeps every other entry, with its value; no entry is added |
| Interfaces.Factory.constructor | minitage/core/interfaces.py:53-57 | empty sections, section and products |
| Interfaces.Factory.Open | minitage/core/interfaces.py:47-71 | built exactly when the configuration (if any) has the factory's section and every section has `__name__`, and every entry of that section registers; otherwise `InvalidConfigForFactoryError` for the configuration, or the registration error of a failing entry; when built, the section's entries are the products; no configuration gives no products |
| Interfaces.Factory.DropNames | minitage/core/interfaces.py:62-67 | succeeds exactly when every section holds `__name__`, and then deletes it from each |
| Interfaces.Factory.RegisterDict | minitage/core/interfaces.py:73-101 | succeeds exactly when every value resolves to a class; the first failure names its key; registered keys stay registered |
| Interfaces.Factory.Register | minitage/core/interfaces.py:103-114 | a string raises `InvalidComponentClassError` and changes nothing; a class is stored under the key, replacing what was there |
| Interfaces.Factory.Call | minitage/core/interfaces.py:116-125 | raises `NotImplementedMethodError` |
| Interfaces.ProductMatch | minitage/core/interfaces.py:130-138 | raises `NotImplementedMethodError` |
| Makers.ColonClassUnresolvable | minitage/core/interfaces.py:85-100 | a class name containing `:` never registers; the path error names the key |
| Makers.DefaultMakerUnresolvable | minitage/core/makers/interfaces.py:52-56 | the default entry splits into class `buildout:BuildoutMaker` and cannot be registered |
| Makers.CorrectedMakerSplits | minitage/core/makers/interfaces.py:54 | the corrected entry names class `BuildoutMaker` in module `minitage.core.makers.buildout` |
| Makers.CorrectedMakerRegisters | minitage/core/makers/interfaces.py:54 | with the `BuildoutMaker` class present in `minitage.core.makers.buildout`, the corrected entry registers that class |
| Makers.NewMakerFactory | minitage/core/makers/interfaces.py:44-56 | built exactly when the `makers` configuration is accepted, every entry of its section registers and the default entry registers; it then holds the section's entries and `buildout`, the default replacing a configured one |
| Makers.Call | minitage/core/makers/interfaces.py:58-70 | the first product, in iteration order, whose instance matches, built with `sections.get(switch, {})`; `None` exactly when no registered maker matches |
| Makers.Delete | minitage/core/makers/interfaces.py:94-109 | a directory is removed with everything in it; anything else is left alone; a failed removal raises `DeleteError` and changes nothing |
| Makers.Unimplemented | minitage/core/makers/interfaces.py:111-140 | the abstract maker operations fail on the missing `NotImplementedError` name |
| Buildout.MatchesRegisteredKey | minitage/core/makers/buildout.py:44-48 | the buildout maker answers to exactly the key its default factory entry is registered under |
| Buildout.SitePackages | minitage/core/makers/buildout.py:123-124 | one `site-packages-<v>` part per version, in order |
| Buildout.GetOptions | minitage/core/makers/buildout.py:113-129 | `part` for dependencies, the site-packages parts for eggs with versions, no options otherwise |
| Buildout.Head | minitage/core/makers/buildout.py:80 | `argv[:1]` |
| Buildout.DefaultOptionsWords | minitage/core/makers/buildout.py:80-81 | the default options split into `-N`, `-c`, `buildout.cfg`, `-vvvvv` |
| Buildout.ArgvLayout | minitage/core/makers/buildout.py:80-83 | the program name stays first, the options follow word by word, and `-o` follows exactly when offline |
| Buildout.EggsInstallParts | minitage/core/makers/buildout.py:84-90 | an egg install ends with `install` and one site-packages part per version, in order |
| Buildout.DependenciesInstallPart | minitage/core/makers/buildout.py:84-90 | a dependency install ends with `install part` |
| Buildout.BuildoutMaker.constructor | minitage/core/makers/buildout.py:39-41 | no configuration means an empty one |
| Buildout.BuildoutMaker.Install | minitage/core/makers/buildout.py:74-98 | buildout runs in `directory` with the built argv; `sys.argv`, the working directory and the filesystem are as before on every path; failure is `BuildoutError` |
| Buildout.BuildoutMaker.Reinstall | minitage/core/makers/buildout.py:63-64 | `.installed.cfg` is removed, then install runs; without it `OSError` and nothing changes |
| Cli.CountSet | src/minitage/core/cli.py:157-160 | zero exactly when no flag is set, and the length exactly when all are |
| Cli.CountTwoActions | src/minitage/core/cli.py:157-163 | the count exceeds one exactly when two of reinstall, install and delete are set |
| Cli.ChosenAction | src/minitage/core/cli.py:165-174 | delete exactly when asked; reinstall when asked without delete; sync when asked without those |
| Cli.ChosenIsRequested | src/minitage/core/cli.py:157-174 | with at most one action, the action is the one asked for, sync outranks install, and the default is install |
| Cli.FirstFile | src/minitage/core/cli.py:176-181 | the first candidate, expanded, that is an existing file; none exactly when none is |
| Cli.Validate | src/minitage/core/cli.py:143-210 | the errors in check order, each exactly when its condition first holds, `ConflictModesError` through `InvalidConfigFileError`; success carries the expanded configuration, the chosen action, the packages, the path and every flag unchanged |
| Cli.GivenConfigChecked | src/minitage/core/cli.py:184-190 | a `--config` naming no existing file raises `InvalidConfigFileError` without any search; one naming a file is taken, expanded |
| Cli.SearchOrder | src/minitage/core/cli.py:176-189 | without `--config`, the system file wins, then the user file; with neither, `InvalidConfigFileError` |
| Cli.CountActions | src/minitage/core/cli.py:157-160 | the counting loop gives the number of set flags |
| Cli.SearchConfig | src/minitage/core/cli.py:176-181 | the search loop with `break` gives the first existing candidate |
| Cli.ReadOptions | src/minitage/core/cli.py:143-210 | the imperative reading gives the validation result |
| Machine.ExpandUser | src/minitage/core/cli.py:178 | `~` and `~/...` become the home directory; other paths are kept |

## Left out

- Objects.Minibuild.GetAttr: a load error propagates to the reader. The repository's tests expect `loaded` to hold the exception; the model follows the code.
- Objects.Minibuild.Lookup: `config` is in the lazy list but never assigned, so reading it raises `AttributeError` after the load.
- Objects.Minilay.Load: `items` is shown to grow only by appending new names. The order in which directory entries are added is left open, because `os.listdir` promises none.
- Paths are taken to be absolute. After `os.chdir(dest)`, `fetch` writes to `dest/<file>` relative to the new directory, so a relative `dest` would land in `dest/dest`; that case is not modelled.
- Makers.Call: dictionary iteration order is a parameter; Python 2 leaves it unspecified.
- Interfaces.Factory.RegisterDict: keys are visited in an arbitrary order, so which failing key is reported is left open.
- Makers.Unimplemented: the `IMaker` stubs name `interfaces.NotImplementedError`, which does not exist; the model returns that lookup failure.
- Machine.ExpandUser: the `~user` form is not modelled, and the home directory is taken to have no trailing `/`.
- Cli.Validate: `--config` is tested with `isfile` before it is expanded, as in the code; relative paths are not resolved against the working directory.
- Option parsing by `optparse`, and the usage text printed when `sys.argv` has one element: I/O only.
- `ConfigParser`: files arrive already parsed or as a parse failure; its own error cases are not modelled.
- The `StaticFetcher` constructor: it reads the `http-proxy` list from the configuration and passes `static` as the executable. That name would not be found on `PATH`, so static fetchers are modelled from `fetch` on. The proxies `fetch` hands to `urllib.urlopen` are folded into the download oracle.
- Interfaces.Attribute: `register` takes any value that is not a `str` for a class; the model names that case `Class`, and what the value is beyond not being a string is not modelled.
- `md5` and `src_opts` in the static fetcher: they are read but never used.
- Download contents, `shutil.rmtree` partial failures and `common.remove_path` failures: these are oracles or are not modelled. `remove_path` of a listed entry always succeeds.
- The filesystem effects of buildout itself: buildout is an oracle that answers success or failure.
- `SystemExit` from buildout: treated like any other failure.
- Module loading by `imp`: an oracle from module chain and name to an attribute.
- Logging calls: no effect is modelled.
- Dependency resolution in `minitage/core/core.py`: the functions are empty stubs, so there is nothing to model. The rest of `core.py`, `common.py`, `tar.py` and the SVN fetcher are not part of this model.
- `os.uname()`: a parameter `uname`.

## Findings

| source | as written | input that shows it | evidently intended | confidence | as-written member | corrected member |
|---|---|---|---|---|---|---|
| minitage/core/objects.py:242-247 | the message is assigned to `messsage`, then `message` is formatted | a well-named minibuild with `install_method = make` | raise `InvalidInstallMethodError` | high; not executed | Objects.ValidateAsWritten, shown by Objects.InstallMethodTypo | Objects.Validate, with Objects.InstallMethodTypo and Objects.LoadsIffAdmissible |
| minitage/core/fetchers/scm.py:94 | `'...%s...' % (dest, uri)`, one `%s` for two values, raises `TypeError` | a clone that exits 0 but leaves no `dest/.hg` | raise `InvalidMercurialRepositoryError` | high; not executed | Scm.RepositoryCheck with asWritten, shown by Scm.MissingMarkerMessage | Scm.Fetch, with Scm.FetchClonesOnce |
| minitage/core/fetchers/scm.py:67 | the same message in `update`, one `%s` for two values, raises `TypeError` | a `pull` and `up` that exit 0 but leave no `dest/.hg` | raise `InvalidMercurialRepositoryError` | high; not executed | Scm.RepositoryCheck with asWritten, shown by Scm.UpdateMissingMarkerMessage | Scm.Update, with Scm.UpdatePullsThenUps |
| minitage/core/makers/interfaces.py:54 | `minitage.core.makers.buildout:BuildoutMaker`, split on `.` only | any loader, since no module attribute is named `buildout:BuildoutMaker` | `minitage.core.makers.buildout.BuildoutMaker` | high; not executed | Makers.DefaultMakerUnresolvable, with Makers.NewMakerFactory asWritten | Makers.CorrectedMakerRegisters and Makers.CorrectedMakerSplits, with Makers.NewMakerFactory |
