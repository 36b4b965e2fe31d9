/** An abstract filesystem: a finite map from path strings to the kind of
    node found there. Paths are compared as spelled; `p + "/" + n` is how the
    core builds every child path. */
module FileSystem {

  type Path = string

  datatype Node = File | Dir

  type Fs = map<Path, Node>

  /** `os.path.isfile(p)`. A path spelled with a trailing `/` never names a
      regular file. */
  predicate IsFile(fs: Fs, p: Path) {
    p in fs && fs[p] == File && !(|p| > 0 && p[|p| - 1] == '/')
  }

  /** `os.path.isdir(p)`. */
  predicate IsDir(fs: Fs, p: Path) {
    p in fs && fs[p] == Dir
  }

  /** `'%s/%s' % (dir, name)`. */
  function Child(dir: Path, name: string): Path {
    dir + "/" + name
  }

  /** `q` lies strictly inside the directory `p`. */
  predicate Below(q: Path, p: Path) {
    |q| > |p| && q[..|p| + 1] == p + "/"
  }

  /** `q` is `p` itself or lies inside it. */
  predicate Within(q: Path, p: Path) {
    q == p || Below(q, p)
  }

  /** `shutil.rmtree(p)` / `os.remove(p)`: the node at `p` and everything inside it go. */
  function RemoveTree(fs: Fs, p: Path): (r: Fs)
    ensures forall q :: q in r <==> q in fs && !Within(q, p)
    ensures forall q :: q in r ==> r[q] == fs[q]
  {
    map q | q in fs && !Within(q, p) :: fs[q]
  }

  /** The part of `s` before its first `/`. */
  function FirstComponent(s: string): (r: string)
    ensures '/' !in r
    ensures |r| <= |s| && r == s[..|r|]
    ensures |r| == |s| || s[|r|] == '/'
  {
    if |s| == 0 || s[0] == '/' then "" else [s[0]] + FirstComponent(s[1..])
  }

  /** The name under which `q`, inside `dir`, is listed by `os.listdir(dir)`. */
  function EntryOf(q: Path, dir: Path): string
    requires Below(q, dir)
  {
    FirstComponent(q[|dir| + 1..])
  }

  /** `os.listdir(dir)` as a set: the non-empty first components of every path
      inside `dir`. */
  function ListDir(fs: Fs, dir: Path): set<string>
  {
    set q | q in fs && Below(q, dir) && EntryOf(q, dir) != "" :: EntryOf(q, dir)
  }

  /** A path inside `dir` lies within the child of `dir` named by its entry. */
  lemma WithinEntry(q: Path, dir: Path)
    requires Below(q, dir)
    ensures Within(q, Child(dir, EntryOf(q, dir)))
  {
    var rest := q[|dir| + 1..];
    var n := EntryOf(q, dir);
    assert q == dir + "/" + rest;
    if |n| < |rest| {
      assert q[..|dir| + 1 + |n| + 1] == dir + "/" + n + "/";
    } else {
      assert rest == n;
    }
  }

  /** The first component of `a`, or of `a` followed by `/...`, is `a`. */
  lemma {:induction false} FirstComponentOf(a: string, s: string)
    requires '/' !in a
    requires s == a || (|s| > |a| && s[..|a| + 1] == a + "/")
    ensures FirstComponent(s) == a
    decreases |a|
  {
    if |a| > 0 {
      assert s[0] == a[0];
      if s == a {
        assert s[1..] == a[1..];
      } else {
        assert s[1..][..|a[1..]| + 1] == s[1..|a| + 1] == a[1..] + "/";
      }
      FirstComponentOf(a[1..], s[1..]);
    }
  }

  /** A path within the child `dir/a` of `dir`, for a separator-free `a`, is
      listed under the entry `a`. */
  lemma EntryOfWithin(q: Path, dir: Path, a: string)
    requires '/' !in a
    requires Within(q, Child(dir, a))
    ensures Below(q, dir) && EntryOf(q, dir) == a
  {
    var k := |dir| + 1;
    assert q[..k] == dir + "/";
    var s := q[k..];
    assert s == a || (|s| > |a| && s[..|a| + 1] == a + "/");
    FirstComponentOf(a, s);
  }

  /** Two separator-free names whose children of `dir` both contain the same
      path are the same name. */
  lemma EntryUnique(q: Path, dir: Path, a: string, b: string)
    requires '/' !in a && '/' !in b
    requires Within(q, Child(dir, a)) && Within(q, Child(dir, b))
    ensures a == b
  {
    EntryOfWithin(q, dir, a);
    EntryOfWithin(q, dir, b);
  }

  /** The prefixes of `p` that `os.makedirs(p)` makes sure are directories:
      every proper prefix ending just before a `/`, and `p` itself. */
  function MakeDirsTargets(p: Path): set<Path>
  {
    set i | 0 < i <= |p| && (i == |p| || p[i] == '/') :: p[..i]
  }

  /** `os.makedirs(p)` fails when one of the directories it needs is a file. */
  predicate MakeDirsBlocked(fs: Fs, p: Path) {
    exists q :: q in MakeDirsTargets(p) && q in fs && fs[q] == File
  }

  /** `os.makedirs(p)` when it succeeds: `p` and its ancestors are directories,
      nothing else changes. */
  function MakeDirs(fs: Fs, p: Path): (r: Fs)
    requires |p| > 0
    ensures IsDir(r, p)
    ensures forall q :: q in fs && q !in MakeDirsTargets(p) ==> q in r && r[q] == fs[q]
    ensures r.Keys == fs.Keys + MakeDirsTargets(p)
  {
    assert p == p[..|p|];
    fs + map q | q in MakeDirsTargets(p) :: Dir
  }
}
