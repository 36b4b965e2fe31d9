/** Failure-carrying wrappers and the handful of Python string operations the
    core relies on: `str.split(sep)`, `str.split()`, `str.strip()`, the last
    element of a split, and string truthiness. */
module Util {

  datatype Option<+T> = None | Some(value: T)

  datatype Result<+T, +E> = Ok(value: T) | Err(error: E)

  /** An operation that returns nothing on success and raises `error` otherwise. */
  datatype Outcome<+E> = Pass | Fail(error: E)

  /** Python truthiness of a string: only the empty string is false. */
  predicate Truthy(s: string) { |s| > 0 }

  /** Python truthiness of an optional string (None is false). */
  predicate TruthyOpt(s: Option<string>) { s.Some? && |s.value| > 0 }

  /** The characters `str.split()` and `str.strip()` treat as whitespace. */
  predicate IsSpace(c: char) {
    c == ' ' || c == '\t' || c == '\n' || c == '\r' || c == '\U{000B}' || c == '\U{000C}'
  }

  predicate NoSpace(w: string) { forall j :: 0 <= j < |w| ==> !IsSpace(w[j]) }

  // ---------------------------------------------------------------------------
  // str.split(sep)

  /** Inverse of `SplitOn`: the parts glued back together with `c`. */
  function JoinWith(parts: seq<string>, c: char): string
    requires |parts| >= 1
  {
    if |parts| == 1 then parts[0] else parts[0] + [c] + JoinWith(parts[1..], c)
  }

  /** Python's `s.split(c)`: the maximal runs between occurrences of `c`,
      empty runs included, so there is always at least one part. */
  function SplitOn(s: string, c: char): (parts: seq<string>)
    ensures |parts| >= 1
    ensures forall i :: 0 <= i < |parts| ==> c !in parts[i]
    ensures JoinWith(parts, c) == s
    decreases |s|
  {
    if |s| == 0 then [""]
    else if s[0] == c then
      var rest := SplitOn(s[1..], c);
      assert s == [c] + s[1..];
      [""] + rest
    else
      var rest := SplitOn(s[1..], c);
      var parts := [[s[0]] + rest[0]] + rest[1..];
      assert parts[1..] == rest[1..];
      assert s == [s[0]] + s[1..];
      parts
  }

  /** A separator-free string splits into itself. */
  lemma {:induction false} SplitOnFree(a: string, c: char)
    requires c !in a
    ensures SplitOn(a, c) == [a]
    decreases |a|
  {
    if |a| > 0 {
      SplitOnFree(a[1..], c);
      assert [a[0]] + a[1..] == a;
    }
  }

  /** Splitting `a + [c] + rest` for a separator-free `a` gives `a`, then the
      parts of `rest`. */
  lemma {:induction false} SplitOnHead(a: string, rest: string, c: char)
    requires c !in a
    ensures SplitOn(a + [c] + rest, c) == [a] + SplitOn(rest, c)
    decreases |a|
  {
    var s := a + [c] + rest;
    if |a| == 0 {
      assert s == [c] + rest;
      assert s[1..] == rest;
    } else {
      assert s[0] == a[0] && s[1..] == a[1..] + [c] + rest;
      SplitOnHead(a[1..], rest, c);
      assert [a[0]] + a[1..] == a;
    }
  }

  /** Splitting a joined sequence of separator-free parts gives the parts back. */
  lemma {:induction false} SplitJoin(parts: seq<string>, c: char)
    requires |parts| >= 1
    requires forall i :: 0 <= i < |parts| ==> c !in parts[i]
    ensures SplitOn(JoinWith(parts, c), c) == parts
    decreases |parts|
  {
    if |parts| == 1 {
      SplitOnFree(parts[0], c);
    } else {
      SplitJoin(parts[1..], c);
      SplitOnHead(parts[0], JoinWith(parts[1..], c), c);
      assert [parts[0]] + parts[1..] == parts;
    }
  }

  /** The last element of `s.split(c)`, as `s.split(c).pop()` returns it. */
  function LastPart(s: string, c: char): (r: string)
    ensures c !in r
    ensures |r| <= |s|
    ensures r == s[|s| - |r|..]
    ensures |r| < |s| ==> s[|s| - |r| - 1] == c
    decreases |s|
  {
    if |s| == 0 then ""
    else if s[|s| - 1] == c then ""
    else
      var init := s[..|s| - 1];
      var r := LastPart(init, c);
      assert init[|init| - |r|..] == s[|s| - 1 - |r|..|s| - 1];
      assert s[|s| - 1 - |r|..] == s[|s| - 1 - |r|..|s| - 1] + [s[|s| - 1]];
      assert |r| < |init| ==> init[|init| - |r| - 1] == s[|s| - |r| - 2];
      r + [s[|s| - 1]]
  }

  /** The last part of `a + [c] + n`, for a separator-free `n`, is `n`. */
  lemma LastPartAfter(a: string, n: string, c: char)
    requires c !in n
    ensures LastPart(a + [c] + n, c) == n
  {
    var s := a + [c] + n;
    assert s[|s| - |n| - 1] == c;
    assert forall k :: |s| - |n| <= k < |s| ==> s[k] == n[k - (|s| - |n|)];
    assert s[|s| - |n|..] == n;
  }

  // ---------------------------------------------------------------------------
  // str.split() and str.strip()

  /** The characters of `s` that are not whitespace, in order. */
  function NonSpace(s: string): string
  {
    if |s| == 0 then "" else (if IsSpace(s[0]) then "" else [s[0]]) + NonSpace(s[1..])
  }

  /** Concatenation of a sequence of strings. */
  function Concat(ws: seq<string>): string
  {
    if |ws| == 0 then "" else ws[0] + Concat(ws[1..])
  }

  /** Length of the whitespace-free run at the start of `s`. */
  function WordLength(s: string): (n: nat)
    ensures n <= |s|
    ensures forall j :: 0 <= j < n ==> !IsSpace(s[j])
    ensures n == |s| || IsSpace(s[n])
  {
    if |s| == 0 || IsSpace(s[0]) then 0 else 1 + WordLength(s[1..])
  }

  lemma {:induction false} NonSpaceAppend(a: string, b: string)
    ensures NonSpace(a + b) == NonSpace(a) + NonSpace(b)
    decreases |a|
  {
    if |a| > 0 {
      assert (a + b)[1..] == a[1..] + b;
      NonSpaceAppend(a[1..], b);
    } else {
      assert a + b == b;
    }
  }

  lemma {:induction false} NonSpaceOfWord(w: string)
    requires NoSpace(w)
    ensures NonSpace(w) == w
    decreases |w|
  {
    if |w| > 0 { NonSpaceOfWord(w[1..]); }
  }

  /** Python's `s.split()` with no argument: the maximal whitespace-free runs
      of `s`. Every word is non-empty and free of whitespace, and together
      they are exactly the non-whitespace characters of `s`. */
  function Words(s: string): (ws: seq<string>)
    ensures forall i :: 0 <= i < |ws| ==> |ws[i]| > 0 && NoSpace(ws[i])
    ensures Concat(ws) == NonSpace(s)
    decreases |s|
  {
    if |s| == 0 then []
    else if IsSpace(s[0]) then
      assert NonSpace(s) == NonSpace(s[1..]);
      Words(s[1..])
    else
      var n := WordLength(s);
      var rest := Words(s[n..]);
      assert s == s[..n] + s[n..];
      NonSpaceAppend(s[..n], s[n..]);
      NonSpaceOfWord(s[..n]);
      [s[..n]] + rest
  }

  /** Number of whitespace characters at the start of `s`. */
  function LeadingSpace(s: string): (n: nat)
    ensures n <= |s|
    ensures forall j :: 0 <= j < n ==> IsSpace(s[j])
    ensures n == |s| || !IsSpace(s[n])
  {
    if |s| == 0 || !IsSpace(s[0]) then 0 else 1 + LeadingSpace(s[1..])
  }

  /** Length of `s` without its trailing whitespace. */
  function TrimmedLength(s: string): (k: nat)
    ensures k <= |s|
    ensures forall j :: k <= j < |s| ==> IsSpace(s[j])
    ensures k == 0 || !IsSpace(s[k - 1])
  {
    if |s| == 0 || !IsSpace(s[|s| - 1]) then |s| else TrimmedLength(s[..|s| - 1])
  }

  /** Python's `s.strip()`: `s` without its leading and trailing whitespace;
      what is removed is whitespace and what is kept starts and ends with a
      non-whitespace character. */
  function Strip(s: string): (r: string)
    ensures r == [] || (!IsSpace(r[0]) && !IsSpace(r[|r| - 1]))
    ensures var i := LeadingSpace(s); i + |r| <= |s| && r == s[i..i + |r|]
    ensures forall j :: LeadingSpace(s) + |r| <= j < |s| ==> IsSpace(s[j])
  {
    var i := LeadingSpace(s);
    s[i..i + TrimmedLength(s[i..])]
  }

  /** A non-empty whitespace-free string is one word, and strips to itself. */
  lemma WordIsWord(w: string)
    requires |w| > 0 && NoSpace(w)
    ensures Strip(w) == w
    ensures Words(w) == [w]
  {
    assert LeadingSpace(w) == 0;
    assert TrimmedLength(w) == |w|;
    assert w[..|w|] == w;
    assert WordLength(w) == |w|;
  }
}
