/** The plugin factory every component family builds on: a registry from a
    type name to a class, filled from a configuration section whose values
    are dotted class paths, or one entry at a time. */
module Interfaces {
  import opened Util

  datatype FactoryError =
    | InvalidConfigForFactory(name: string)
    | InvalidComponentClassPath(key: string, value: string)
    | InvalidComponentClass(key: string, value: string)
    | NotImplementedMethod

  /** A class, named by the module chain it was loaded from and its own name. */
  datatype Component = Component(modules: seq<string>, name: string)

  /** What `getattr(module, name)` finds: a plain string, or anything else,
      which `register` takes for a class. */
  datatype Attribute = Str(s: string) | Class(c: Component)

  /** Module loading and attribute lookup, `imp.find_module`/`load_module` down
      the chain, then `getattr`: `None` when either raises. An empty chain
      looks the name up on `None`. */
  type Loader = (seq<string>, string) -> Option<Attribute>

  type Section = map<string, string>

  /** What `ConfigParser` keeps in `_sections`: every section still holds the
      `__name__` entry the parser adds. */
  type Sections = map<string, Section>

  const NameKey: string := "__name__"

  /** A dotted class path taken apart: the module chain and the class name. */
  datatype ClassPath = ClassPath(modules: seq<string>, klass: string)

  /** `value.strip().split('.')`, with the last component popped off as the
      class name: the pieces join back into the stripped value, and none of
      them holds a dot. */
  function SplitClassPath(value: string): (p: ClassPath)
    ensures '.' !in p.klass && forall i :: 0 <= i < |p.modules| ==> '.' !in p.modules[i]
    ensures JoinWith(p.modules + [p.klass], '.') == Strip(value)
  {
    var parts := SplitOn(Strip(value), '.');
    assert parts == parts[..|parts| - 1] + [parts[|parts| - 1]];
    ClassPath(parts[..|parts| - 1], parts[|parts| - 1])
  }

  /** The dotted spelling of a module chain and class name. */
  function Dotted(modules: seq<string>, klass: string): string {
    JoinWith(modules + [klass], '.')
  }

  /** Joining whitespace-free parts with a non-whitespace separator gives a
      whitespace-free string. */
  lemma {:induction false} JoinNoSpace(parts: seq<string>, c: char)
    requires |parts| >= 1 && !IsSpace(c)
    requires forall i :: 0 <= i < |parts| ==> NoSpace(parts[i])
    ensures NoSpace(JoinWith(parts, c))
    decreases |parts|
  {
    if |parts| > 1 {
      JoinNoSpace(parts[1..], c);
      var rest := JoinWith(parts[1..], c);
      var s := parts[0] + [c] + rest;
      assert forall j :: 0 <= j < |s| ==> s[j] == (if j < |parts[0]| then parts[0][j] else if j == |parts[0]| then c else rest[j - |parts[0]| - 1]);
    }
  }

  /** `strip()` leaves a whitespace-free string as it is. */
  lemma StripNoSpace(s: string)
    requires NoSpace(s)
    ensures Strip(s) == s
  {
    assert LeadingSpace(s) == 0;
    assert TrimmedLength(s) == |s|;
    assert s[..|s|] == s;
  }

  /** Taking apart a dotted class path gives back the module chain and the
      class it was built from, so the last component is always the class. */
  lemma SplitDotted(modules: seq<string>, klass: string)
    requires forall i :: 0 <= i < |modules| ==> '.' !in modules[i] && NoSpace(modules[i])
    requires '.' !in klass && NoSpace(klass)
    ensures SplitClassPath(Dotted(modules, klass)) == ClassPath(modules, klass)
  {
    var parts := modules + [klass];
    assert forall i :: 0 <= i < |parts| ==> '.' !in parts[i] && NoSpace(parts[i]);
    JoinNoSpace(parts, '.');
    StripNoSpace(Dotted(modules, klass));
    SplitJoin(parts, '.');
    assert parts[..|parts| - 1] == modules;
  }

  /** What `registerDict` finds for one value. */
  function Lookup(load: Loader, value: string): Option<Attribute> {
    var p := SplitClassPath(value);
    load(p.modules, p.klass)
  }

  /** A value `registerDict` registers without raising. */
  predicate Registrable(load: Loader, value: string) {
    Lookup(load, value).Some? && Lookup(load, value).value.Class?
  }

  /** The class a registrable value names. */
  function ClassOf(load: Loader, value: string): Component
    requires Registrable(load, value)
  {
    Lookup(load, value).value.c
  }

  /** The error `registerDict` raises for a value it cannot register: the
      path error when loading fails, the class error when the name is a string. */
  function RegisterError(load: Loader, key: string, value: string): (e: FactoryError)
    requires !Registrable(load, value)
    ensures Lookup(load, value).None? <==> e == InvalidComponentClassPath(key, value)
    ensures e.InvalidComponentClass? <==> Lookup(load, value).Some?
  {
    match Lookup(load, value)
    case None => InvalidComponentClassPath(key, value)
    case Some(a) => InvalidComponentClass(key, a.s)
  }

  /** `_sections` with the `__name__` entry of every section deleted. */
  function Unnamed(sections: Sections): (r: Sections)
    ensures r.Keys == sections.Keys
    ensures forall s :: s in r ==> NameKey !in r[s]
    ensures forall s, k :: s in r && k in r[s] ==> k in sections[s] && r[s][k] == sections[s][k]
    ensures forall s, k :: s in sections && k in sections[s] && k != NameKey ==> k in r[s] && r[s][k] == sections[s][k]
  {
    map s | s in sections :: sections[s] - {NameKey}
  }

  /** A configuration `IFactory(name, config)` accepts: it has the factory's
      section, and every section still holds the `__name__` entry to delete. */
  predicate Configured(name: string, sections: Sections) {
    name in sections && forall s :: s in sections ==> NameKey in sections[s]
  }

  /** The section a factory registers: the one named after it, without
      `__name__`, or nothing when there is no configuration. */
  function FactorySection(name: string, config: Option<Sections>): Section {
    if config.Some? && name in config.value then Unnamed(config.value)[name] else map[]
  }

  /** Every value of `d` names a class `registerDict` can register. */
  predicate AllRegistrable(load: Loader, d: Section) {
    forall k :: k in d ==> Registrable(load, d[k])
  }

  /** `IFactory`. */
  class Factory {
    const name: string
    var sections: Sections
    var section: Section
    var products: map<string, Component>

    /** The attributes as `__init__` sets them before reading any configuration. */
    constructor (name: string)
      ensures this.name == name && sections == map[] && section == map[] && products == map[]
    {
      this.name := name;
      sections, section, products := map[], map[], map[];
    }

    /** `IFactory(name, config)`: with a configuration, delete `__name__` from
        every section and take the section named `name`; a missing one
        raises `InvalidConfigForFactoryError`. Then register that section. */
    static method Open(name: string, config: Option<Sections>, load: Loader) returns (r: Result<Factory, FactoryError>)
      ensures r.Ok? <==> (config.None? || Configured(name, config.value)) && AllRegistrable(load, FactorySection(name, config))
      ensures config.Some? && !Configured(name, config.value) ==> r == Err(InvalidConfigForFactory(name))
      ensures r.Err? && (config.None? || Configured(name, config.value)) ==>
        var d := FactorySection(name, config);
        exists k :: k in d && !Registrable(load, d[k]) && r.error == RegisterError(load, k, d[k])
      ensures r.Ok? ==> fresh(r.value) && r.value.name == name
      ensures r.Ok? ==> r.value.sections == (if config.Some? then Unnamed(config.value) else map[])
      ensures r.Ok? ==> r.value.section == (if config.Some? then Unnamed(config.value)[name] else map[])
      ensures r.Ok? ==> forall k :: k in r.value.section ==>
        Registrable(load, r.value.section[k]) && k in r.value.products && r.value.products[k] == ClassOf(load, r.value.section[k])
      ensures r.Ok? ==> forall t :: t in r.value.products ==> t in r.value.section
      ensures config.None? ==> r.Ok? && r.value.products == map[]
    {
      var f := new Factory(name);
      if config.Some? {
        f.sections := config.value;
        var dropped := f.DropNames();
        if dropped.Fail? || name !in f.sections {
          return Err(InvalidConfigForFactory(name));
        }
        f.section := f.sections[name];
      }
      var registered := f.RegisterDict(f.section, load);
      if registered.Fail? {
        return Err(registered.error);
      }
      return Ok(f);
    }

    /** The loop of `__init__` over `_sections`: `del section['__name__']`;
        a section without it raises `KeyError`, which `__init__` turns into
        `InvalidConfigForFactoryError`. */
    method DropNames() returns (r: Outcome<FactoryError>)
      modifies this
      ensures r.Pass? <==> forall s :: s in old(sections) ==> NameKey in old(sections)[s]
      ensures r.Pass? ==> sections == Unnamed(old(sections))
      ensures section == old(section) && products == old(products)
    {
      var todo := sections.Keys;
      ghost var s0 := sections;
      while todo != {}
        invariant todo <= s0.Keys
        invariant forall s :: s in sections <==> s in s0
        invariant forall s :: s in sections ==> sections[s] == if s in todo then s0[s] else s0[s] - {NameKey}
        invariant forall s :: s in s0 && s !in todo ==> NameKey in s0[s]
        invariant section == old(section) && products == old(products)
        decreases |todo|
      {
        var s :| s in todo;
        if NameKey !in sections[s] {
          return Fail(InvalidConfigForFactory(name));
        }
        sections := sections[s := sections[s] - {NameKey}];
        todo := todo - {s};
      }
      return Pass;
    }

    /** `registerDict(d)`: register the class each value names, key by key in
        whatever order the dictionary gives. The first value that cannot be
        registered raises; the keys handled before it stay registered. */
    method RegisterDict(d: Section, load: Loader) returns (r: Outcome<FactoryError>)
      modifies this
      ensures r.Pass? <==> forall k :: k in d ==> Registrable(load, d[k])
      ensures r.Pass? ==> forall k :: k in d ==> Registrable(load, d[k]) && k in products && products[k] == ClassOf(load, d[k])
      ensures r.Fail? ==> exists k :: k in d && !Registrable(load, d[k]) && r.error == RegisterError(load, k, d[k])
      ensures forall t :: t in old(products) ==> t in products
      ensures forall t :: t in products ==>
        (t in old(products) && products[t] == old(products)[t]) ||
        (t in d && Registrable(load, d[t]) && products[t] == ClassOf(load, d[t]))
      ensures sections == old(sections) && section == old(section)
    {
      var todo := d.Keys;
      ghost var p0 := products;
      while todo != {}
        invariant todo <= d.Keys
        invariant forall k :: k in d && k !in todo ==> Registrable(load, d[k]) && k in products && products[k] == ClassOf(load, d[k])
        invariant forall t :: t in p0 ==> t in products
        invariant forall t :: t in products ==>
          (t in p0 && products[t] == p0[t]) ||
          (t in d && t !in todo && Registrable(load, d[t]) && products[t] == ClassOf(load, d[t]))
        invariant sections == old(sections) && section == old(section)
        decreases |todo|
      {
        var key :| key in todo;
        var attribute := Lookup(load, d[key]);
        if attribute.None? {
          return Fail(InvalidComponentClassPath(key, d[key]));
        }
        r := Register(key, attribute.value);
        if r.Fail? {
          return;
        }
        todo := todo - {key};
      }
      return Pass;
    }

    /** `register(type, klass)`: a string is refused with
        `InvalidComponentClassError` and nothing changes; anything else is
        registered under `type`, replacing what was there. */
    method Register(key: string, klass: Attribute) returns (r: Outcome<FactoryError>)
      modifies this
      ensures klass.Str? ==> r == Fail(InvalidComponentClass(key, klass.s)) && products == old(products)
      ensures klass.Class? ==> r == Pass && products == old(products)[key := klass.c]
      ensures sections == old(sections) && section == old(section)
    {
      if klass.Str? {
        return Fail(InvalidComponentClass(key, klass.s));
      }
      products := products[key := klass.c];
      return Pass;
    }

    /** `IFactory.__call__`: left to each factory; the base one raises. */
    method Call(switch: string) returns (r: Outcome<FactoryError>)
      ensures r == Fail(NotImplementedMethod)
    {
      return Fail(NotImplementedMethod);
    }
  }

  /** `IProduct.match`: left to each product; the base one raises. */
  function ProductMatch(switch: string): (r: Result<bool, FactoryError>)
    ensures r.Err? && r.error == NotImplementedMethod
  {
    Err(NotImplementedMethod)
  }
}
