/** The maker family: a factory named `makers` that always carries the
    buildout maker, dispatch of a switch to the first maker that accepts it,
    and the `delete` every maker shares. */
module Makers {
  import opened Util
  import opened FileSystem
  import opened Machine
  import opened Interfaces

  datatype MakerError =
    | DeleteError(directory: Path)
    | BuildoutError
    | OSError(path: Path)
    /** Raised by the abstract `IMaker` operations: they name an exception
        the `interfaces` module does not define, so the lookup itself fails. */
    | MissingAttribute(name: string)

  /** The entry `IMakerFactory.__init__` registers on top of the
      configuration: `minitage.core.makers.buildout:BuildoutMaker`, spelled
      here by its dot-separated pieces. */
  const DefaultMakers: Section := map["buildout" := Dotted(["minitage", "core", "makers"], "buildout:BuildoutMaker")]

  /** The same entry with the dotted path `registerDict` can resolve,
      `minitage.core.makers.buildout.BuildoutMaker`. */
  const CorrectedMakers: Section := map["buildout" := Dotted(["minitage", "core", "makers", "buildout"], "BuildoutMaker")]

  /** The default entry `IMakerFactory.__init__` registers: as written, or corrected. */
  function Defaults(asWritten: bool): Section {
    if asWritten then DefaultMakers else CorrectedMakers
  }

  /** A class path whose class name holds a `:` never registers when no
      module attribute has such a name: the lookup fails and the path error
      is raised. */
  lemma ColonClassUnresolvable(load: Loader, modules: seq<string>, klass: string)
    requires forall i :: 0 <= i < |modules| ==> '.' !in modules[i] && NoSpace(modules[i])
    requires '.' !in klass && NoSpace(klass) && ':' in klass
    requires forall m, k :: ':' in k ==> load(m, k).None?
    ensures !Registrable(load, Dotted(modules, klass))
    ensures forall key :: RegisterError(load, key, Dotted(modules, klass)) == InvalidComponentClassPath(key, Dotted(modules, klass))
  {
    SplitDotted(modules, klass);
  }

  /** Finding: `registerDict` splits the default path on `.` only, so its
      class name is `buildout:BuildoutMaker`, which no module attribute is
      called; the default entry can never be registered, and building the
      factory raises `InvalidComponentClassPathError`. */
  lemma DefaultMakerUnresolvable(load: Loader)
    requires forall m, k :: ':' in k ==> load(m, k).None?
    ensures SplitClassPath(DefaultMakers["buildout"]) == ClassPath(["minitage", "core", "makers"], "buildout:BuildoutMaker")
    ensures !Registrable(load, DefaultMakers["buildout"])
    ensures RegisterError(load, "buildout", DefaultMakers["buildout"]) == InvalidComponentClassPath("buildout", DefaultMakers["buildout"])
  {
    var klass := "buildout:BuildoutMaker";
    assert klass[8] == ':';
    SplitDotted(["minitage", "core", "makers"], klass);
    ColonClassUnresolvable(load, ["minitage", "core", "makers"], klass);
  }

  /** The corrected path names the `BuildoutMaker` class of the module
      `minitage.core.makers.buildout`. */
  lemma CorrectedMakerSplits()
    ensures SplitClassPath(CorrectedMakers["buildout"]) == ClassPath(["minitage", "core", "makers", "buildout"], "BuildoutMaker")
  {
    SplitDotted(["minitage", "core", "makers", "buildout"], "BuildoutMaker");
  }

  /** With a loader that finds the `BuildoutMaker` class in the module
      `minitage.core.makers.buildout`, the corrected default entry registers
      that class, so the factory's own entry never stops it being built. */
  lemma CorrectedMakerRegisters(load: Loader, c: Component)
    requires load(["minitage", "core", "makers", "buildout"], "BuildoutMaker") == Some(Class(c))
    ensures Registrable(load, Defaults(false)["buildout"])
    ensures ClassOf(load, Defaults(false)["buildout"]) == c
  {
    CorrectedMakerSplits();
  }

  /** `IMakerFactory(config)`: the `makers` factory, then the default entry.
      It is built exactly when the configuration is accepted and every entry
      of the `makers` section and the default entry register; it then holds
      the section's entries and `buildout`, the default replacing a
      configured `buildout`. */
  method NewMakerFactory(config: Option<Sections>, load: Loader, asWritten: bool) returns (r: Result<Factory, FactoryError>)
    ensures r.Ok? <==> (config.None? || Configured("makers", config.value)) &&
                       AllRegistrable(load, FactorySection("makers", config)) &&
                       Registrable(load, Defaults(asWritten)["buildout"])
    ensures config.Some? && !Configured("makers", config.value) ==> r == Err(InvalidConfigForFactory("makers"))
    ensures config.Some? && "makers" !in config.value ==> r == Err(InvalidConfigForFactory("makers"))
    ensures !Registrable(load, Defaults(asWritten)["buildout"]) ==> r.Err?
    ensures r.Ok? ==> fresh(r.value) && r.value.name == "makers" && "buildout" in r.value.products
    ensures r.Ok? ==> r.value.products["buildout"] == ClassOf(load, Defaults(asWritten)["buildout"])
    ensures r.Ok? ==> forall k :: k in r.value.products <==> k in FactorySection("makers", config) || k == "buildout"
    ensures r.Ok? ==> forall k :: k in FactorySection("makers", config) && k != "buildout" ==>
      r.value.products[k] == ClassOf(load, FactorySection("makers", config)[k])
    ensures r.Ok? ==> r.value.sections == (if config.Some? then Unnamed(config.value) else map[])
  {
    r := Factory.Open("makers", config, load);
    if r.Err? {
      return;
    }
    var registered := r.value.RegisterDict(Defaults(asWritten), load);
    if registered.Fail? {
      return Err(registered.error);
    }
  }

  /** A maker instance: its class, built with the configuration section of
      the switch. */
  datatype Maker = Maker(klass: Component, config: Section)

  /** `self.sections.get(switch, {})`. */
  function SectionFor(sections: Sections, switch: string): Section {
    if switch in sections then sections[switch] else map[]
  }

  /** `IMakerFactory(switch)`: build each registered class with the switch's
      section, in the order the registry gives its keys, and return the first
      instance whose `match(switch)` holds; `None` exactly when no registered
      maker matches. `order` is that iteration order, listing every key once,
      and `matches` what each instance's `match` says. */
  method Call(f: Factory, switch: string, order: seq<string>, matches: (Maker, string) -> bool) returns (r: Option<Maker>)
    requires forall i :: 0 <= i < |order| ==> order[i] in f.products
    requires forall k :: k in f.products ==> k in order
    requires forall i, j :: 0 <= i < j < |order| ==> order[i] != order[j]
    ensures var config := SectionFor(f.sections, switch);
      r.None? <==> forall k :: k in f.products ==> !matches(Maker(f.products[k], config), switch)
    ensures var config := SectionFor(f.sections, switch);
      r.Some? ==> exists k :: k in f.products && r.value == Maker(f.products[k], config) && matches(r.value, switch)
    ensures var config := SectionFor(f.sections, switch);
      r.None? <==> forall i :: 0 <= i < |order| ==> !matches(Maker(f.products[order[i]], config), switch)
    ensures var config := SectionFor(f.sections, switch);
      r.Some? ==> exists i :: 0 <= i < |order| && r.value == Maker(f.products[order[i]], config) && matches(r.value, switch) &&
                   (forall j :: 0 <= j < i ==> !matches(Maker(f.products[order[j]], config), switch))
  {
    var config := SectionFor(f.sections, switch);
    var i := 0;
    while i < |order|
      invariant 0 <= i <= |order|
      invariant forall j :: 0 <= j < i ==> !matches(Maker(f.products[order[j]], config), switch)
    {
      var instance := Maker(f.products[order[i]], config);
      if matches(instance, switch) {
        return Some(instance);
      }
      i := i + 1;
    }
    return None;
  }

  /** `IMaker.delete(directory)`: remove a directory and everything in it; a
      path that is not a directory is left alone, and a removal that raises
      becomes `DeleteError`. */
  method Delete(host: Host, directory: Path) returns (r: Outcome<MakerError>)
    modifies host
    ensures !IsDir(old(host.fs), directory) ==> r == Pass && host.fs == old(host.fs)
    ensures IsDir(old(host.fs), directory) && host.removable(directory) ==>
      r == Pass && host.fs == RemoveTree(old(host.fs), directory)
    ensures IsDir(old(host.fs), directory) && !host.removable(directory) ==>
      r == Fail(DeleteError(directory)) && host.fs == old(host.fs)
    ensures host.cwd == old(host.cwd) && host.argv == old(host.argv) && host.log == old(host.log)
  {
    if IsDir(host.fs, directory) {
      if !host.removable(directory) {
        return Fail(DeleteError(directory));
      }
      host.fs := RemoveTree(host.fs, directory);
    }
    return Pass;
  }

  /** `IMaker.reinstall`, `install`, `match` and `get_options`: each raises
      `interfaces.NotImplementedError`, a name the module does not have. */
  method Unimplemented(operation: string) returns (r: Outcome<MakerError>)
    ensures r == Fail(MissingAttribute("NotImplementedError"))
  {
    return Fail(MissingAttribute("NotImplementedError"));
  }
}
