/** Minibuilds (package descriptors) and minilays (directories of
    minibuilds), after minitage/core/objects.py.

    A minibuild file is given as what `ConfigParser` makes of it: either a
    parse failure or its sections, each a map from option to raw value. */
module Objects {
  import opened Util
  import opened FileSystem
  import opened PackageNames

  const ValidCategories: seq<string> := ["meta", "instances", "eggs", "dependencies", "zope", "django", "tg"]
  const ValidInstallMethods: seq<string> := ["buildout"]
  const ValidFetchMethods: seq<string> := ["svn", "hg"]

  type Section = map<string, string>

  /** What `ConfigParser.read(path)` leaves behind. A missing file reads as
      no sections at all. */
  datatype ConfigFile = Unparsable | Sections(sections: map<string, Section>)

  datatype MinibuildError =
    | InvalidMinibuildName(name: string)
    | InvalidConfigFile(path: string)
    | NoMinibuildSection(path: string)
    | InvalidInstallMethod(installMethod: string, path: string)
    | MissingFetchMethod(path: string)
    | InvalidFetchMethod(srcType: string, path: string)
    | MissingCategory(path: string)
    | InvalidCategory(path: string, category: string)
    | EmptyMinibuild(path: string)
    /** Python's `UnboundLocalError` for a local read before it is assigned. */
    | UnboundLocal(variable: string)
    /** Python's `AttributeError` for an attribute that was never set. */
    | NoAttribute(attr: string)

  /** `InvalidMinilayPath`, and the `OSError` of `os.listdir` on a path that
      is not a directory. */
  datatype MinilayError = InvalidMinilayPath(path: Path) | ListDirError(path: Path)

  /** The attributes `load` fills in; `None` until assigned. */
  datatype Metadata = Metadata(
    dependencies: Option<seq<string>>,
    installMethod: Option<string>,
    srcUri: Option<string>,
    srcType: Option<string>,
    srcOpts: Option<string>,
    srcMd5: Option<string>,
    category: Option<string>,
    url: Option<string>,
    description: Option<string>)

  const Unset := Metadata(None, None, None, None, None, None, None, None, None)

  /** The attributes after a `load`, and whether it returned or raised. */
  datatype LoadResult = LoadResult(meta: Metadata, outcome: Outcome<MinibuildError>)

  /** `section.get(key, default)`. */
  function Get(section: Section, key: string, default: string): string {
    if key in section then section[key] else default
  }

  /** `ws` without the words in `excluded`, keeping order and repeats. */
  function NotIn(ws: seq<string>, excluded: seq<string>): (r: seq<string>)
    ensures |r| <= |ws|
    ensures forall d :: multiset(r)[d] == if d in excluded then 0 else multiset(ws)[d]
  {
    if |ws| == 0 then []
    else
      assert ws == [ws[0]] + ws[1..];
      if ws[0] in excluded then NotIn(ws[1..], excluded) else [ws[0]] + NotIn(ws[1..], excluded)
  }

  /** Filtering keeps the order of `ws`: filtering two lists one after the
      other gives the two filtered lists one after the other, so each word
      kept stays where it was relative to every other kept word. */
  lemma {:induction false} NotInAppend(a: seq<string>, b: seq<string>, excluded: seq<string>)
    ensures NotIn(a + b, excluded) == NotIn(a, excluded) + NotIn(b, excluded)
    decreases |a|
  {
    if |a| > 0 {
      assert (a + b)[1..] == a[1..] + b;
      assert (a + b)[0] == a[0];
      NotInAppend(a[1..], b, excluded);
    } else {
      assert a + b == b;
    }
  }

  /** The words of `depends`. */
  function CommonDepends(section: Section): seq<string> {
    Words(Strip(Get(section, "depends", "")))
  }

  /** The words of `depends-<uname>`. */
  function OsDepends(section: Section, uname: string): seq<string> {
    Words(Strip(Get(section, "depends-" + uname, "")))
  }

  /** `dependencies` as `load` computes it: the words of `depends`, then the
      words of `depends-<uname>` that are not among them. Repeats within
      either list are kept, and the later words keep their order. */
  function Dependencies(section: Section, uname: string): (deps: seq<string>)
    ensures var first := CommonDepends(section);
      |first| <= |deps| && deps[..|first|] == first
    ensures forall i :: |CommonDepends(section)| <= i < |deps| ==> deps[i] !in CommonDepends(section)
    ensures forall d :: d in deps <==> d in CommonDepends(section) || d in OsDepends(section, uname)
    ensures var first := CommonDepends(section);
      forall d :: multiset(deps[|first|..])[d] == if d in first then 0 else multiset(OsDepends(section, uname))[d]
    ensures var first := CommonDepends(section);
      deps[|first|..] == NotIn(OsDepends(section, uname), first)
  {
    var first := CommonDepends(section);
    var second := OsDepends(section, uname);
    AppendMissing(first, second);
    first + NotIn(second, first)
  }

  /** Appending the words of `second` that `first` lacks keeps `first` as a
      prefix, adds none of its words again, and loses no word of either. */
  lemma AppendMissing(first: seq<string>, second: seq<string>)
    ensures var deps := first + NotIn(second, first);
      |first| <= |deps| && deps[..|first|] == first &&
      (forall i :: |first| <= i < |deps| ==> deps[i] !in first) &&
      (forall d :: d in deps <==> d in first || d in second) &&
      deps[|first|..] == NotIn(second, first)
  {
    var extra := NotIn(second, first);
    assert forall d :: d in extra <==> multiset(extra)[d] > 0;
    assert forall d :: d in second <==> multiset(second)[d] > 0;
    assert (first + extra)[..|first|] == first;
    assert forall i :: |first| <= i < |first + extra| ==> (first + extra)[i] == extra[i - |first|];
    assert (first + extra)[|first|..] == extra;
  }

  /** The error `load` raises for an install method it does not know. As
      written it builds the message from `message`, which is unbound there
      (the assignment just above it misspells the name). */
  function InstallMethodError(installMethod: string, path: string, asWritten: bool): MinibuildError {
    if asWritten then UnboundLocal("message") else InvalidInstallMethod(installMethod, path)
  }

  /** A string option as `load` reads it: `section.get(key, '').strip()`. */
  function Opt(section: Section, key: string): string {
    Strip(Get(section, key, ""))
  }

  /** What `load` reads from the `[minibuild]` section: the dependencies, the
      string options stripped, and `category` as it stands. Reading has no
      effect, so the chain below can work on the values read. */
  datatype Fields = Fields(
    dependencies: seq<string>,
    installMethod: string,
    srcUri: string,
    srcType: string,
    srcOpts: string,
    srcMd5: string,
    category: Option<string>,
    url: string,
    description: string)

  function ReadFields(section: Section, uname: string): Fields {
    Fields(Dependencies(section, uname), Opt(section, "install_method"), Opt(section, "src_uri"),
           Opt(section, "src_type"), Opt(section, "src_opts"), Opt(section, "src_md5"),
           if "category" in section then Some(section["category"]) else None,
           Opt(section, "url"), Opt(section, "description"))
  }

  // ---------------------------------------------------------------------------
  // The checks `load` makes, one predicate each, in the order it makes them.

  /** The name is acceptable, the file parses and has a `[minibuild]` section:
      everything after this point reads lazily loaded attributes. */
  predicate HasMinibuildSection(name: string, config: ConfigFile) {
    PackageVersionMatch(name) && config.Sections? && "minibuild" in config.sections
  }

  function SectionOf(config: ConfigFile): Section
    requires config.Sections? && "minibuild" in config.sections
  {
    config.sections["minibuild"]
  }

  predicate InstallMethodOk(f: Fields) {
    f.installMethod == "" || f.installMethod in ValidInstallMethods
  }

  predicate HasSrcUri(f: Fields) { f.srcUri != "" }

  predicate FetchMethodOk(f: Fields) { f.srcType in ValidFetchMethods }

  predicate CategoryOk(f: Fields) {
    f.category.Some? && f.category.value in ValidCategories
  }

  predicate NotEmpty(f: Fields) {
    f.installMethod != "" || f.dependencies != []
  }

  /** Every check on the `[minibuild]` section passes. */
  predicate FieldsAdmissible(f: Fields) {
    InstallMethodOk(f) && (HasSrcUri(f) ==> FetchMethodOk(f) && CategoryOk(f)) && NotEmpty(f)
  }

  /** Every check `load` makes passes. */
  predicate Admissible(name: string, config: ConfigFile, uname: string) {
    HasMinibuildSection(name, config) && FieldsAdmissible(ReadFields(SectionOf(config), uname))
  }

  // ---------------------------------------------------------------------------
  // The chain itself, in three stages.

  /** The `category` checks: present and non-empty, then known. */
  function CategoryChecks(meta: Metadata, f: Fields, path: string): (r: LoadResult)
    ensures r.outcome == Pass <==> CategoryOk(f)
    ensures r.meta == meta.(category := f.category)
  {
    var m := meta.(category := f.category);
    if !TruthyOpt(f.category) then LoadResult(m, Fail(MissingCategory(path)))
    else if f.category.value !in ValidCategories then LoadResult(m, Fail(InvalidCategory(path, f.category.value)))
    else LoadResult(m, Pass)
  }

  /** `b` is `a` but for the attributes the source checks assign: `src_type`,
      `src_opts`, `src_md5` and `category`. */
  predicate SourceFieldsOnly(a: Metadata, b: Metadata) {
    b.dependencies == a.dependencies && b.installMethod == a.installMethod && b.srcUri == a.srcUri &&
    b.url == a.url && b.description == a.description
  }

  /** The checks made only when there is a `src_uri`: `src_type` present,
      `src_type` known, then the `category` checks. A `Pass` here lets the
      chain go on. */
  function SourceChecks(meta: Metadata, f: Fields, path: string): (r: LoadResult)
    ensures r.outcome == Pass <==> FetchMethodOk(f) && CategoryOk(f)
    ensures SourceFieldsOnly(meta, r.meta) && r.meta.srcType == Some(f.srcType)
    ensures r.outcome == Pass ==> r.meta.category == f.category
  {
    var m := meta.(srcType := Some(f.srcType));
    if f.srcType == "" then LoadResult(m, Fail(MissingFetchMethod(path)))
    else
      var m' := m.(srcOpts := Some(f.srcOpts), srcMd5 := Some(f.srcMd5));
      if f.srcType !in ValidFetchMethods then LoadResult(m', Fail(InvalidFetchMethod(f.srcType, path)))
      else CategoryChecks(m', f, path)
  }

  /** The part of `load` that reads the `[minibuild]` section. */
  function SectionChain(meta: Metadata, f: Fields, path: string, asWritten: bool): (r: LoadResult)
    ensures r.outcome == Pass <==> FieldsAdmissible(f)
  {
    var m1 := meta.(dependencies := Some(f.dependencies), installMethod := Some(f.installMethod));
    if !InstallMethodOk(f) then LoadResult(m1, Fail(InstallMethodError(f.installMethod, path, asWritten)))
    else
      var m2 := m1.(srcUri := Some(f.srcUri));
      var checked := if HasSrcUri(f) then SourceChecks(m2, f, path) else LoadResult(m2, Pass);
      if checked.outcome.Fail? then checked
      else
        var m6 := checked.meta.(url := Some(f.url), description := Some(f.description));
        if f.installMethod == "" && f.dependencies == [] then LoadResult(m6, Fail(EmptyMinibuild(path)))
        else LoadResult(m6, Pass)
  }

  /** `Minibuild.load` as a chain of checks, starting from the attributes
      `meta` and leaving each attribute as it was when the chain stopped. */
  function Chain(meta: Metadata, name: string, path: string, config: ConfigFile, uname: string, asWritten: bool): (r: LoadResult)
    ensures !HasMinibuildSection(name, config) ==> r.meta == meta && r.outcome.Fail?
  {
    if !CheckMinibuildName(name) then LoadResult(meta, Fail(InvalidMinibuildName(name)))
    else if config.Unparsable? then LoadResult(meta, Fail(InvalidConfigFile(path)))
    else if "minibuild" !in config.sections then LoadResult(meta, Fail(NoMinibuildSection(path)))
    else SectionChain(meta, ReadFields(config.sections["minibuild"], uname), path, asWritten)
  }

  /** `load` with the install-method error it evidently means to raise. */
  function Validate(meta: Metadata, name: string, path: string, config: ConfigFile, uname: string): LoadResult {
    Chain(meta, name, path, config, uname, false)
  }

  /** `load` as written. */
  function ValidateAsWritten(meta: Metadata, name: string, path: string, config: ConfigFile, uname: string): LoadResult {
    Chain(meta, name, path, config, uname, true)
  }

  /** Past the section check, `load` is the section stage on what the
      section holds. */
  lemma ChainPastSection(meta: Metadata, name: string, path: string, config: ConfigFile, uname: string, asWritten: bool)
    requires HasMinibuildSection(name, config)
    ensures Chain(meta, name, path, config, uname, asWritten) ==
            SectionChain(meta, ReadFields(SectionOf(config), uname), path, asWritten)
  {
  }

  // ---------------------------------------------------------------------------
  // Properties of the chain.

  /** A badly named minibuild is refused before its file is looked at, and
      none of its attributes is touched. */
  lemma NameCheckedFirst(meta: Metadata, name: string, path: string, config: ConfigFile, uname: string)
    requires !PackageVersionMatch(name)
    ensures Validate(meta, name, path, config, uname) == LoadResult(meta, Fail(InvalidMinibuildName(name)))
  {
  }

  /** A well-named minibuild whose file does not parse, or has no
      `[minibuild]` section, is refused with its attributes untouched. */
  lemma FileCheckedBeforeSection(meta: Metadata, name: string, path: string, config: ConfigFile, uname: string)
    requires PackageVersionMatch(name)
    ensures config.Unparsable? ==> Validate(meta, name, path, config, uname) == LoadResult(meta, Fail(InvalidConfigFile(path)))
    ensures config.Sections? && "minibuild" !in config.sections ==>
      Validate(meta, name, path, config, uname) == LoadResult(meta, Fail(NoMinibuildSection(path)))
  {
  }

  /** `load` returns exactly when every check passes. */
  lemma LoadsIffAdmissible(meta: Metadata, name: string, path: string, config: ConfigFile, uname: string)
    ensures Validate(meta, name, path, config, uname).outcome == Pass <==> Admissible(name, config, uname)
  {
    if HasMinibuildSection(name, config) {
      ChainPastSection(meta, name, path, config, uname, false);
    }
  }

  /** Once the section passes, the attributes are what it says: the computed
      dependencies, and every string option stripped. */
  lemma LoadedAttributes(meta: Metadata, f: Fields, path: string)
    requires FieldsAdmissible(f)
    ensures var m := SectionChain(meta, f, path, false).meta;
      m.dependencies == Some(f.dependencies) && m.installMethod == Some(f.installMethod) &&
      m.srcUri == Some(f.srcUri) && m.url == Some(f.url) && m.description == Some(f.description) &&
      (HasSrcUri(f) ==> m.srcType == Some(f.srcType) && m.category == f.category)
  {
  }

  /** Without a `src_uri`, `src_type`, `src_opts`, `src_md5` and `category`
      are neither read nor checked. */
  lemma NoUriNoFetchChecks(meta: Metadata, f: Fields, path: string)
    requires !HasSrcUri(f)
    ensures var r := SectionChain(meta, f, path, false);
      r.meta.srcType == meta.srcType && r.meta.srcOpts == meta.srcOpts &&
      r.meta.srcMd5 == meta.srcMd5 && r.meta.category == meta.category &&
      (r.outcome == Pass || r.outcome.error.InvalidInstallMethod? || r.outcome.error.EmptyMinibuild?)
  {
  }

  /** With a `src_uri`, a missing `src_type` is refused, then an unknown one. */
  lemma FetchMethodChecked(meta: Metadata, f: Fields, path: string)
    requires InstallMethodOk(f) && HasSrcUri(f)
    ensures var r := SectionChain(meta, f, path, false);
      (f.srcType == "" ==> r.outcome == Fail(MissingFetchMethod(path))) &&
      (f.srcType != "" && f.srcType !in ValidFetchMethods ==> r.outcome == Fail(InvalidFetchMethod(f.srcType, path)))
  {
  }

  /** With a `src_uri` and a good `src_type`, a missing or empty `category`
      is refused, then one outside the valid categories. */
  lemma CategoryChecked(meta: Metadata, f: Fields, path: string)
    requires InstallMethodOk(f) && HasSrcUri(f) && FetchMethodOk(f)
    ensures var r := SectionChain(meta, f, path, false);
      (!TruthyOpt(f.category) ==> r.outcome == Fail(MissingCategory(path))) &&
      (TruthyOpt(f.category) && f.category.value !in ValidCategories ==> r.outcome == Fail(InvalidCategory(path, f.category.value)))
  {
  }

  /** The emptiness check comes last: it is the error exactly when every
      other check on the section passes and there is neither an install
      method nor a dependency. */
  lemma EmptyCheckedLast(meta: Metadata, f: Fields, path: string)
    ensures SectionChain(meta, f, path, false).outcome == Fail(EmptyMinibuild(path)) <==>
      InstallMethodOk(f) && (HasSrcUri(f) ==> FetchMethodOk(f) && CategoryOk(f)) && !NotEmpty(f)
  {
  }

  /** A section holding only `depends`, one word, reads as that one
      dependency and every other option empty. */
  lemma OnlyDependsFields(section: Section, uname: string, d: string)
    requires |d| > 0 && NoSpace(d)
    requires section == map["depends" := d]
    ensures ReadFields(section, uname) == Fields([d], "", "", "", "", "", None, "", "")
  {
    WordIsWord(d);
    assert Get(section, "depends", "") == d;
    assert Get(section, "depends-" + uname, "") == "";
    assert Strip("") == "";
  }

  /** A well-named minibuild whose section only lists a dependency loads,
      with that dependency. */
  lemma OnlyDependsLoads(meta: Metadata, name: string, path: string, config: ConfigFile, uname: string, d: string)
    requires PackageVersionMatch(name)
    requires |d| > 0 && NoSpace(d)
    requires config == Sections(map["minibuild" := map["depends" := d]])
    ensures Validate(meta, name, path, config, uname).outcome == Pass
    ensures Validate(meta, name, path, config, uname).meta.dependencies == Some([d])
  {
    ChainPastSection(meta, name, path, config, uname, false);
    OnlyDependsFields(SectionOf(config), uname, d);
    var f := ReadFields(SectionOf(config), uname);
    assert FieldsAdmissible(f);
    LoadedAttributes(meta, f, path);
  }

  /** Finding: for an unknown install method, `load` as written raises
      `UnboundLocalError` where `InvalidInstallMethodError` is meant. */
  lemma InstallMethodTypo(meta: Metadata, f: Fields, path: string)
    requires !InstallMethodOk(f)
    ensures SectionChain(meta, f, path, true).outcome == Fail(UnboundLocal("message"))
    ensures SectionChain(meta, f, path, false).outcome == Fail(InvalidInstallMethod(f.installMethod, path))
  {
  }

  // ---------------------------------------------------------------------------
  // The Minibuild object.

  /** The attributes a `Minibuild` can be asked for. */
  datatype Attr =
    | Name | PathAttr | State | Config | Url | Category | SrcMd5 | DependenciesAttr
    | Description | SrcOpts | SrcType | InstallMethod | SrcUri

  /** The value of an attribute: a string (or `None`) or a list (or `None`). */
  datatype Value = Str(s: Option<string>) | List(l: Option<seq<string>>)

  /** The attributes whose reading loads the minibuild first. */
  predicate IsLazy(attr: Attr) {
    attr in {Config, Url, Category, SrcMd5, DependenciesAttr, Description, SrcOpts, SrcType, InstallMethod}
  }

  class Minibuild {
    const path: string
    var state: Option<string>
    var meta: Metadata
    /** Python's `None` (never loaded) and `True` are `false` and `true`. */
    var loaded: bool

    /** `name`: a minibuild is named after the last component of its path. */
    function Name(): string {
      LastPart(path, '/')
    }

    constructor (path: string)
      ensures this.path == path
      ensures state == None && meta == Unset && !loaded
    {
      this.path := path;
      state := None;
      meta := Unset;
      loaded := false;
    }

    /** `load()`. The first read of a lazily loaded attribute inside it (of
        `dependencies` or `install_method`) runs a nested `load` that assigns
        the same attributes and ends the same way, and marks the minibuild
        loaded. */
    method Load(config: ConfigFile, uname: string) returns (r: Outcome<MinibuildError>)
      modifies this
      ensures LoadResult(meta, r) == Validate(old(meta), Name(), path, config, uname)
      ensures loaded == (old(loaded) || HasMinibuildSection(Name(), config))
      ensures state == old(state)
    {
      var name := Name();
      if !CheckMinibuildName(name) {
        return Fail(InvalidMinibuildName(name));
      }
      if config.Unparsable? {
        return Fail(InvalidConfigFile(path));
      }
      if "minibuild" !in config.sections {
        return Fail(NoMinibuildSection(path));
      }
      ChainPastSection(meta, name, path, config, uname, false);
      loaded := true;
      r := ReadSection(config.sections["minibuild"], uname);
    }

    /** The part of `load` that reads the `[minibuild]` section. */
    method ReadSection(section: Section, uname: string) returns (r: Outcome<MinibuildError>)
      modifies this
      ensures LoadResult(meta, r) == SectionChain(old(meta), ReadFields(section, uname), path, false)
      ensures loaded == old(loaded) && state == old(state)
    {
      ghost var f := ReadFields(section, uname);
      var deps := Dependencies(section, uname);
      var installMethod := Opt(section, "install_method");
      assert deps == f.dependencies && installMethod == f.installMethod;
      meta := meta.(dependencies := Some(deps), installMethod := Some(installMethod));
      if installMethod != "" && installMethod !in ValidInstallMethods {
        return Fail(InvalidInstallMethod(installMethod, path));
      }
      var uri := Opt(section, "src_uri");
      assert uri == f.srcUri;
      meta := meta.(srcUri := Some(uri));
      ghost var m2 := meta;
      if uri != "" {
        r := ReadSource(section, uname);
        if r.Fail? {
          return;
        }
      }
      ghost var checked := if HasSrcUri(f) then SourceChecks(m2, f, path) else LoadResult(m2, Pass);
      assert checked == LoadResult(meta, Pass);
      var url, description := Opt(section, "url"), Opt(section, "description");
      assert url == f.url && description == f.description;
      meta := meta.(url := Some(url), description := Some(description));
      if installMethod == "" && deps == [] {
        return Fail(EmptyMinibuild(path));
      }
      return Pass;
    }

    /** The part of `load` that runs only when there is a `src_uri`. */
    method ReadSource(section: Section, ghost uname: string) returns (r: Outcome<MinibuildError>)
      modifies this
      ensures LoadResult(meta, r) == SourceChecks(old(meta), ReadFields(section, uname), path)
      ensures loaded == old(loaded) && state == old(state)
    {
      var srcType := Opt(section, "src_type");
      meta := meta.(srcType := Some(srcType));
      if srcType == "" {
        return Fail(MissingFetchMethod(path));
      }
      meta := meta.(srcOpts := Some(Opt(section, "src_opts")));
      meta := meta.(srcMd5 := Some(Opt(section, "src_md5")));
      if srcType !in ValidFetchMethods {
        return Fail(InvalidFetchMethod(srcType, path));
      }
      var category := if "category" in section then Some(section["category"]) else None;
      meta := meta.(category := category);
      if category.None? || category.value == "" {
        return Fail(MissingCategory(path));
      }
      if category.value !in ValidCategories {
        return Fail(InvalidCategory(path, category.value));
      }
      return Pass;
    }

    /** `object.__getattribute__`: the stored value, or `AttributeError` for
        `config`, which is never assigned. */
    function Lookup(attr: Attr): (r: Result<Value, MinibuildError>)
      reads this
      ensures r.Err? <==> attr == Config
    {
      match attr
      case Name => Ok(Str(Some(Name())))
      case PathAttr => Ok(Str(Some(path)))
      case State => Ok(Str(state))
      case Config => Err(NoAttribute("config"))
      case Url => Ok(Str(meta.url))
      case Category => Ok(Str(meta.category))
      case SrcMd5 => Ok(Str(meta.srcMd5))
      case DependenciesAttr => Ok(List(meta.dependencies))
      case Description => Ok(Str(meta.description))
      case SrcOpts => Ok(Str(meta.srcOpts))
      case SrcType => Ok(Str(meta.srcType))
      case InstallMethod => Ok(Str(meta.installMethod))
      case SrcUri => Ok(Str(meta.srcUri))
    }

    /** `__getattribute__`: reading a lazily loaded attribute of a minibuild
        not yet loaded marks it loaded, then loads it; an error of the load
        propagates. Any other read only looks the attribute up. */
    method GetAttr(attr: Attr, config: ConfigFile, uname: string) returns (r: Result<Value, MinibuildError>)
      modifies this
      ensures state == old(state)
      ensures IsLazy(attr) && !old(loaded) ==>
        loaded &&
        var l := Validate(old(meta), Name(), path, config, uname);
        meta == l.meta &&
        r == if l.outcome.Fail? then Err(l.outcome.error) else Lookup(attr)
      ensures !(IsLazy(attr) && !old(loaded)) ==>
        meta == old(meta) && loaded == old(loaded) && r == Lookup(attr)
    {
      if IsLazy(attr) && !loaded {
        loaded := true;
        var o := Load(config, uname);
        if o.Fail? {
          return Err(o.error);
        }
      }
      r := Lookup(attr);
    }
  }

  /** A minibuild kept in a directory under its own name is named after it. */
  lemma MinibuildNamedAfterEntry(dir: Path, entry: string)
    requires '/' !in entry
    ensures LastPart(Child(dir, entry), '/') == entry
  {
    LastPartAfter(dir, entry, '/');
  }

  // ---------------------------------------------------------------------------
  // Minilays.

  class Minilay {
    const path: Path
    var loaded: bool
    /** The names of the minibuilds known so far, in the order they were added. */
    var items: seq<string>
    var minibuilds: map<string, Minibuild>

    /** Every known name is listed once in `items` and maps to the minibuild
        kept at `path/name`. */
    ghost predicate Valid()
      reads this
    {
      (forall n :: n in minibuilds <==> n in items) &&
      (forall i, j :: 0 <= i < j < |items| ==> items[i] != items[j]) &&
      (forall n :: n in minibuilds ==> minibuilds[n].path == Child(path, n))
    }

    constructor (path: Path)
      ensures this.path == path && !loaded && items == [] && minibuilds == map[]
      ensures Valid()
    {
      this.path := path;
      loaded := false;
      items := [];
      minibuilds := map[];
    }

    /** `Minilay(path)`: refused unless `path` is a directory. */
    static method Open(path: Path, fs: Fs) returns (r: Result<Minilay, MinilayError>)
      ensures r.Ok? <==> IsDir(fs, path)
      ensures r.Err? ==> r.error == InvalidMinilayPath(path)
      ensures r.Ok? ==> (fresh(r.value) && r.value.path == path && r.value.Valid() &&
                         !r.value.loaded && r.value.items == [] && r.value.minibuilds == map[])
    {
      var m := new Minilay(path);
      if !IsDir(fs, path) {
        return Err(InvalidMinilayPath(path));
      }
      return Ok(m);
    }

    /** The names `load(item)` considers: the item when its file exists, or
        every entry of the directory when no item is given. */
    function Candidates(item: Option<string>, fs: Fs): set<string> {
      if item.Some? then (if IsFile(fs, Child(path, item.value)) then {item.value} else {})
      else ListDir(fs, path)
    }

    /** `load(item)`: when the minilay is not loaded and the item is not
        known, add a fresh minibuild for every candidate name not yet known.
        Loading without an item lists the directory, which raises `OSError`
        when `path` is no longer a directory, before anything changes;
        otherwise it marks the minilay loaded. Known names keep their
        minibuilds and their place in `items`. */
    method Load(item: Option<string>, fs: Fs) returns (r: Outcome<MinilayError>)
      requires Valid()
      modifies this
      ensures Valid()
      ensures old(loaded) || (item.Some? && item.value in old(items)) ==>
        r == Pass && loaded == old(loaded) && items == old(items) && minibuilds == old(minibuilds)
      ensures !old(loaded) && item.None? && !IsDir(fs, path) ==>
        r == Fail(ListDirError(path)) && loaded == old(loaded) && items == old(items) && minibuilds == old(minibuilds)
      ensures r.Fail? <==> !old(loaded) && item.None? && !IsDir(fs, path)
      ensures !old(loaded) && !(item.Some? && item.value in old(items)) && r.Pass? ==>
        loaded == (item.None?) &&
        forall n :: n in minibuilds <==> n in old(minibuilds) || n in Candidates(item, fs)
      ensures old(items) <= items
      ensures forall n :: n in old(minibuilds) ==> n in minibuilds && minibuilds[n] == old(minibuilds)[n]
      ensures forall n :: n in minibuilds && n !in old(minibuilds) ==> fresh(minibuilds[n])
    {
      if loaded || (item.Some? && item.value in items) {
        return Pass;
      }
      if item.None? {
        if !IsDir(fs, path) {
          return Fail(ListDirError(path));
        }
        loaded := true;
      }
      AddAll(Candidates(item, fs));
      return Pass;
    }

    /** The loop of `load`: every name of `names` not yet known is added, in
        some order (`os.listdir` promises none). */
    method AddAll(names: set<string>)
      requires Valid()
      modifies this
      ensures Valid()
      ensures loaded == old(loaded)
      ensures forall n :: n in minibuilds <==> n in old(minibuilds) || n in names
      ensures old(items) <= items
      ensures forall n :: n in old(minibuilds) ==> minibuilds[n] == old(minibuilds)[n]
      ensures forall n :: n in minibuilds && n !in old(minibuilds) ==> fresh(minibuilds[n])
    {
      var todo := names;
      while todo != {}
        invariant Valid()
        invariant todo <= names
        invariant forall n :: n in minibuilds <==> n in old(minibuilds) || (n in names && n !in todo)
        invariant old(items) <= items
        invariant forall n :: n in old(minibuilds) ==> minibuilds[n] == old(minibuilds)[n]
        invariant forall n :: n in minibuilds && n !in old(minibuilds) ==> fresh(minibuilds[n])
        invariant loaded == old(loaded)
        decreases |todo|
      {
        var n :| n in todo;
        if n !in items {
          Add(n);
        } else {
          assert n in old(minibuilds).Keys;
        }
        todo := todo - {n};
      }
    }

    /** `self[name] = Minibuild(path='%s/%s' % (self.path, name))` followed by
        `self.items.append(name)`, for a name not yet known. */
    method Add(n: string)
      requires Valid() && n !in items
      modifies this
      ensures Valid()
      ensures loaded == old(loaded) && items == old(items) + [n]
      ensures n !in old(minibuilds) && minibuilds.Keys == old(minibuilds).Keys + {n}
      ensures forall m :: m in old(minibuilds) ==> minibuilds[m] == old(minibuilds)[m]
      ensures fresh(minibuilds[n]) && minibuilds[n].path == Child(path, n)
    {
      var mb := new Minibuild(Child(path, n));
      minibuilds := minibuilds[n := mb];
      items := items + [n];
    }
  }
}
