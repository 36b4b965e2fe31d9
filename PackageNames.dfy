/** The package-name grammar `packageversion_re` of minitage/core/objects.py
    and `Minibuild.check_minibuild_name`, which is `re.match` of that pattern.

    The pattern is `^(m_sfx sufix)$` with
      m_sfx  = alphanumeric tokens joined by `-`             (IsBaseName)
      sufix  = ((mn_sfx)?(_(n_sfx|s_sfx|v_sfx))*)*           (IsSuffix: any sequence of pieces)
      mn_sfx = `-\d+(\.\d+)*[a-z]?`                          (IsVersion)
      n_sfx  = `r(HEAD|TIP|\d+)`                             (IsRevision)
      s_sfx  = `(tag|branch)[A-Z0-9][.A-Z0-9]*`              (IsScmTag)
      v_sfx  = `(pre|p|beta|alpha|rc)\d*`                    (IsPreRelease)
    The regex is stated below as it is written, with an existential split
    point between the base name and the suffix; `GreedyMatch` is a one-pass
    decision procedure proved to accept exactly the same strings. */
module PackageNames {

  import opened Util

  predicate IsDigit(c: char) { '0' <= c <= '9' }
  predicate IsLower(c: char) { 'a' <= c <= 'z' }
  predicate IsUpper(c: char) { 'A' <= c <= 'Z' }
  predicate IsAlnum(c: char) { IsLower(c) || IsUpper(c) || IsDigit(c) }

  /** The two characters that start a suffix piece. */
  predicate IsSep(c: char) { c == '-' || c == '_' }

  /** `\d*` */
  predicate AllDigits(s: string) { forall j :: 0 <= j < |s| ==> IsDigit(s[j]) }

  /** `([a-zA-Z]|\d)+` */
  predicate IsToken(s: string) { |s| > 0 && forall j :: 0 <= j < |s| ==> IsAlnum(s[j]) }

  /** m_sfx, `([a-zA-Z]|\d)+(-([a-zA-Z]|\d)+)*`: alphanumerics and dashes,
      starting and ending with an alphanumeric, never two dashes in a row. */
  predicate IsBaseName(s: string) {
    && |s| > 0 && IsAlnum(s[0]) && IsAlnum(s[|s| - 1])
    && (forall j :: 0 <= j < |s| ==> IsAlnum(s[j]) || s[j] == '-')
    && (forall j :: 0 <= j < |s| - 1 && s[j] == '-' ==> s[j + 1] != '-')
  }

  /** `\d+(\.\d+)*`: digits and dots, starting and ending with a digit, never
      two dots in a row. */
  predicate IsDottedNumber(s: string) {
    && |s| > 0 && IsDigit(s[0]) && IsDigit(s[|s| - 1])
    && (forall j :: 0 <= j < |s| ==> IsDigit(s[j]) || s[j] == '.')
    && (forall j :: 0 <= j < |s| - 1 && s[j] == '.' ==> s[j + 1] != '.')
  }

  /** mn_sfx when present, `-\d+((\.\d+)*([a-z]?))`. */
  predicate IsVersion(s: string) {
    && |s| >= 2 && s[0] == '-'
    && (IsDottedNumber(s[1..]) || (IsLower(s[|s| - 1]) && IsDottedNumber(s[1..|s| - 1])))
  }

  /** n_sfx, `r(HEAD|TIP|\d+)`. */
  predicate IsRevision(q: string) {
    q == "rHEAD" || q == "rTIP" || (|q| >= 2 && q[0] == 'r' && AllDigits(q[1..]))
  }

  /** `kw[A-Z0-9][.A-Z0-9]*` */
  predicate HasTagBody(q: string, kw: string) {
    && |q| > |kw| && q[..|kw|] == kw
    && (IsUpper(q[|kw|]) || IsDigit(q[|kw|]))
    && (forall j :: |kw| < j < |q| ==> q[j] == '.' || IsUpper(q[j]) || IsDigit(q[j]))
  }

  /** s_sfx, `(tag|branch)([A-Z]|\d)(\.|[A-Z]|\d)*`. */
  predicate IsScmTag(q: string) { HasTagBody(q, "tag") || HasTagBody(q, "branch") }

  /** `kw\d*` */
  predicate DigitsAfter(q: string, kw: string) {
    |q| >= |kw| && q[..|kw|] == kw && AllDigits(q[|kw|..])
  }

  /** The keywords of v_sfx. */
  predicate IsPreReleaseKeyword(kw: string) {
    kw == "pre" || kw == "p" || kw == "beta" || kw == "alpha" || kw == "rc"
  }

  /** v_sfx, `(pre|p|beta|alpha|rc)\d*`. */
  predicate IsPreRelease(q: string) {
    || DigitsAfter(q, "pre") || DigitsAfter(q, "p") || DigitsAfter(q, "beta")
    || DigitsAfter(q, "alpha") || DigitsAfter(q, "rc")
  }

  /** What may follow an `_` in the suffix. */
  predicate IsQualifier(q: string) { IsRevision(q) || IsScmTag(q) || IsPreRelease(q) }

  /** One repetition unit of `sufix`: a version, or `_` and a qualifier. */
  predicate IsPiece(p: string) {
    IsVersion(p) || (|p| >= 1 && p[0] == '_' && IsQualifier(p[1..]))
  }

  /** `sufix`: a (possibly empty) sequence of pieces. */
  predicate IsSuffix(s: string)
    decreases |s|
  {
    |s| == 0 || exists i :: 1 <= i <= |s| && IsPiece(s[..i]) && IsSuffix(s[i..])
  }

  /** `m_sfx sufix` matched against the whole of `s`. */
  predicate MatchesWhole(s: string) {
    exists i :: 1 <= i <= |s| && IsBaseName(s[..i]) && IsSuffix(s[i..])
  }

  /** `packageversion_re.match(s)`: Python's `$` also matches just before a
      final newline. */
  predicate PackageVersionMatch(s: string) {
    MatchesWhole(s) || (|s| > 0 && s[|s| - 1] == '\n' && MatchesWhole(s[..|s| - 1]))
  }

  // ---------------------------------------------------------------------------
  // A one-pass decision procedure.
  //
  // No piece contains `-` or `_` after its first character, so the suffix is
  // cut into pieces at every separator. The base name can only end at a
  // separator too, and letting it absorb every `-token` segment it can never
  // loses a match: a segment the base name absorbs no longer has to be a piece.

  /** The first separator at or after `from`, or `|s|`. */
  function NextSep(s: string, from: nat): (k: nat)
    requires from <= |s|
    ensures from <= k <= |s|
    ensures k == |s| || IsSep(s[k])
    ensures forall j :: from <= j < k ==> !IsSep(s[j])
    decreases |s| - from
  {
    if from == |s| || IsSep(s[from]) then from else NextSep(s, from + 1)
  }

  /** `s[j..]` is cut at its separators into pieces. */
  predicate SuffixFrom(s: string, j: nat)
    requires j <= |s|
    decreases |s| - j
  {
    j == |s| || (IsSep(s[j]) && IsPiece(s[j..NextSep(s, j + 1)]) && SuffixFrom(s, NextSep(s, j + 1)))
  }

  /** The segment starting at `j` is `-` followed by a non-empty alphanumeric run. */
  predicate DashToken(s: string, j: nat)
    requires j <= |s|
  {
    j < |s| && s[j] == '-' && IsToken(s[j + 1..NextSep(s, j + 1)])
  }

  /** Where the base name ends when it absorbs every `-token` segment from `j` on. */
  function BaseEnd(s: string, j: nat): (e: nat)
    requires j <= |s|
    ensures j <= e <= |s|
    decreases |s| - j
  {
    if DashToken(s, j) then BaseEnd(s, NextSep(s, j + 1)) else j
  }

  /** The greedy check: a leading token, then the base name extended as far
      as it goes, then pieces up to the end. */
  predicate GreedyMatch(s: string) {
    var k := NextSep(s, 0);
    k > 0 && IsToken(s[..k]) && SuffixFrom(s, BaseEnd(s, k))
  }

  /** `Minibuild.check_minibuild_name`: true exactly for the names that
      `packageversion_re` matches. */
  function CheckMinibuildName(name: string): (ok: bool)
    ensures ok <==> PackageVersionMatch(name)
  {
    GreedyMatchCorrect(name);
    GreedyMatchCorrect(if |name| > 0 then name[..|name| - 1] else name);
    GreedyMatch(name) || (|name| > 0 && name[|name| - 1] == '\n' && GreedyMatch(name[..|name| - 1]))
  }

  // ---------------------------------------------------------------------------
  // Proof that the greedy check decides the regex.

  /** A string that starts with the keyword `kw` and has no separator
      after it has no separator at all, when `kw` has none. */
  lemma KeywordNoSep(q: string, kw: string)
    requires |q| >= |kw| && q[..|kw|] == kw
    requires forall j :: 0 <= j < |kw| ==> IsLower(kw[j])
    requires forall j :: |kw| <= j < |q| ==> !IsSep(q[j])
    ensures forall j :: 0 <= j < |q| ==> !IsSep(q[j])
  {
    assert forall j :: 0 <= j < |kw| ==> q[j] == kw[j];
  }

  /** A tag or branch qualifier contains no separator. */
  lemma TagShape(q: string, kw: string)
    requires (kw == "tag" || kw == "branch") && HasTagBody(q, kw)
    ensures forall j :: 0 <= j < |q| ==> !IsSep(q[j])
  {
    KeywordNoSep(q, kw);
  }

  /** A pre-release qualifier contains no separator. */
  lemma PreReleaseShape(q: string, kw: string)
    requires IsPreReleaseKeyword(kw) && DigitsAfter(q, kw)
    ensures forall j :: 0 <= j < |q| ==> !IsSep(q[j])
  {
    assert forall j :: |kw| <= j < |q| ==> q[j] == q[|kw|..][j - |kw|];
    KeywordNoSep(q, kw);
  }

  /** A qualifier contains no separator. */
  lemma QualifierShape(q: string)
    requires IsQualifier(q)
    ensures |q| >= 1
    ensures forall j :: 0 <= j < |q| ==> !IsSep(q[j])
  {
    if IsRevision(q) {
    } else if HasTagBody(q, "tag") {
      TagShape(q, "tag");
    } else if HasTagBody(q, "branch") {
      TagShape(q, "branch");
    } else if DigitsAfter(q, "pre") {
      PreReleaseShape(q, "pre");
    } else if DigitsAfter(q, "p") {
      PreReleaseShape(q, "p");
    } else if DigitsAfter(q, "beta") {
      PreReleaseShape(q, "beta");
    } else if DigitsAfter(q, "alpha") {
      PreReleaseShape(q, "alpha");
    } else {
      PreReleaseShape(q, "rc");
    }
  }

  /** A version contains no separator after its leading `-`. */
  lemma VersionShape(p: string)
    requires IsVersion(p)
    ensures forall j :: 1 <= j < |p| ==> !IsSep(p[j])
  {
    if IsDottedNumber(p[1..]) {
      assert forall j :: 1 <= j < |p| ==> p[j] == p[1..][j - 1];
    } else {
      assert forall j :: 1 <= j < |p| - 1 ==> p[j] == p[1..|p| - 1][j - 1];
    }
  }

  /** A piece starts with a separator and has none after that. */
  lemma PieceShape(p: string)
    requires IsPiece(p)
    ensures |p| >= 2 && IsSep(p[0])
    ensures forall j :: 1 <= j < |p| ==> !IsSep(p[j])
  {
    if IsVersion(p) {
      VersionShape(p);
    } else {
      QualifierShape(p[1..]);
      assert forall j :: 1 <= j < |p| ==> p[j] == p[1..][j - 1];
    }
  }

  /** A non-empty suffix starts with a separator. */
  lemma SuffixStartsWithSep(t: string)
    requires IsSuffix(t) && |t| > 0
    ensures IsSep(t[0])
  {
    var i :| 1 <= i <= |t| && IsPiece(t[..i]) && IsSuffix(t[i..]);
    PieceShape(t[..i]);
  }

  /** `NextSep` is the first separator at or after `from`. */
  lemma {:induction false} NextSepIs(s: string, from: nat, k: nat)
    requires from <= k <= |s| && (k == |s| || IsSep(s[k]))
    requires forall m :: from <= m < k ==> !IsSep(s[m])
    ensures NextSep(s, from) == k
    decreases k - from
  {
    if from < k {
      NextSepIs(s, from + 1, k);
    }
  }

  /** The first piece of a non-empty suffix runs up to its second separator. */
  lemma FirstPiece(t: string) returns (i: nat)
    requires IsSuffix(t) && |t| > 0
    ensures 1 <= i <= |t| && IsPiece(t[..i]) && IsSuffix(t[i..])
    ensures IsSep(t[0]) && (i == |t| || IsSep(t[i]))
    ensures forall m :: 1 <= m < i ==> !IsSep(t[m])
  {
    i :| 1 <= i <= |t| && IsPiece(t[..i]) && IsSuffix(t[i..]);
    PieceShape(t[..i]);
    assert forall m :: 0 <= m < i ==> t[m] == t[..i][m];
    if i < |t| {
      SuffixStartsWithSep(t[i..]);
      assert t[i] == t[i..][0];
    }
  }

  /** The same, for the suffix of `s` that starts at `j`. */
  lemma FirstPieceAt(s: string, j: nat) returns (k: nat)
    requires j < |s| && IsSuffix(s[j..])
    ensures j < k <= |s| && k == NextSep(s, j + 1)
    ensures IsSep(s[j]) && IsPiece(s[j..k]) && IsSuffix(s[k..])
  {
    var t := s[j..];
    var i := FirstPiece(t);
    k := j + i;
    assert forall m :: j <= m < |s| ==> s[m] == t[m - j];
    NextSepIs(s, j + 1, k);
    assert t[..i] == s[j..k];
    assert t[i..] == s[k..];
  }

  /** One step of the cut: a piece up to the next separator, then the rest. */
  lemma SuffixFromStep(s: string, j: nat, k: nat)
    requires j < k <= |s| && IsSep(s[j]) && k == NextSep(s, j + 1)
    requires IsPiece(s[j..k]) && SuffixFrom(s, k)
    ensures SuffixFrom(s, j)
  {
  }

  /** A suffix is cut into pieces at its separators. */
  lemma {:induction false} SuffixIsCut(s: string, j: nat)
    requires j <= |s| && IsSuffix(s[j..])
    ensures SuffixFrom(s, j)
    decreases |s| - j
  {
    if j < |s| {
      var k := FirstPieceAt(s, j);
      SuffixIsCut(s, k);
      SuffixFromStep(s, j, k);
    }
  }

  /** Cutting into pieces at the separators witnesses a suffix. */
  lemma {:induction false} CutIsSuffix(s: string, j: nat)
    requires j <= |s| && SuffixFrom(s, j)
    ensures IsSuffix(s[j..])
    decreases |s| - j
  {
    if j < |s| {
      var t := s[j..];
      var k := NextSep(s, j + 1);
      CutIsSuffix(s, k);
      assert t[..k - j] == s[j..k];
      assert t[k - j..] == s[k..];
    }
  }

  /** The regex's suffix and the greedy cut into pieces agree. */
  lemma SuffixFromCorrect(s: string, j: nat)
    requires j <= |s|
    ensures IsSuffix(s[j..]) <==> SuffixFrom(s, j)
  {
    if IsSuffix(s[j..]) { SuffixIsCut(s, j); }
    if SuffixFrom(s, j) { CutIsSuffix(s, j); }
  }

  /** Absorbing a `-token` segment keeps a base name a base name. */
  lemma {:induction false} BaseEndIsBaseName(s: string, j: nat)
    requires 1 <= j <= |s| && IsBaseName(s[..j])
    ensures IsBaseName(s[..BaseEnd(s, j)])
    decreases |s| - j
  {
    if DashToken(s, j) {
      var k := NextSep(s, j + 1);
      var b := s[..k];
      assert forall m :: 0 <= m < j ==> b[m] == s[..j][m];
      assert forall m :: j + 1 <= m < k ==> b[m] == s[j + 1..k][m - j - 1];
      assert IsBaseName(b);
      BaseEndIsBaseName(s, k);
    }
  }

  /** Past the regex's own split point the greedy base name only eats
      segments that were pieces, so what it leaves is still a suffix. */
  lemma {:induction false} BaseEndPast(s: string, j: nat)
    requires j <= |s| && SuffixFrom(s, j)
    ensures SuffixFrom(s, BaseEnd(s, j))
    decreases |s| - j
  {
    if DashToken(s, j) {
      BaseEndPast(s, NextSep(s, j + 1));
    }
  }

  /** Before the regex's split point `i` every segment is `-token`, so the
      greedy base name reaches `i` and then continues as in BaseEndPast. */
  lemma {:induction false} BaseEndBefore(s: string, j: nat, i: nat)
    requires 1 <= j <= i <= |s|
    requires IsBaseName(s[..i]) && SuffixFrom(s, i)
    requires j == |s| || IsSep(s[j])
    ensures SuffixFrom(s, BaseEnd(s, j))
    decreases i - j
  {
    if j == i {
      BaseEndPast(s, j);
    } else {
      assert s[j] == s[..i][j];
      assert s[j] == '-';
      var k := NextSep(s, j + 1);
      assert j + 1 < i && s[j + 1] == s[..i][j + 1];
      assert k <= i by {
        if i < |s| { assert IsSep(s[i]); }
      }
      assert forall m :: j + 1 <= m < k ==> s[m] == s[..i][m];
      assert IsToken(s[j + 1..k]);
      assert DashToken(s, j);
      BaseEndBefore(s, k, i);
    }
  }

  /** What the greedy check accepts, the regex matches. */
  lemma GreedyMatchSound(s: string)
    requires GreedyMatch(s)
    ensures MatchesWhole(s)
  {
    var k := NextSep(s, 0);
    var e := BaseEnd(s, k);
    assert forall m :: 0 <= m < k ==> s[..k][m] == s[m];
    BaseEndIsBaseName(s, k);
    SuffixFromCorrect(s, e);
    assert 1 <= e <= |s| && IsBaseName(s[..e]) && IsSuffix(s[e..]);
  }

  /** What the regex matches, the greedy check accepts. */
  lemma GreedyMatchComplete(s: string)
    requires MatchesWhole(s)
    ensures GreedyMatch(s)
  {
    var k := NextSep(s, 0);
    var i :| 1 <= i <= |s| && IsBaseName(s[..i]) && IsSuffix(s[i..]);
    SuffixFromCorrect(s, i);
    if i < |s| { SuffixStartsWithSep(s[i..]); }
    assert s[0] == s[..i][0];
    assert k <= i by {
      if i < |s| { assert IsSep(s[i]); }
    }
    assert forall m :: 0 <= m < k ==> s[m] == s[..i][m];
    assert IsToken(s[..k]);
    BaseEndBefore(s, k, i);
  }

  /** The greedy check accepts exactly the strings the regex matches whole. */
  lemma GreedyMatchCorrect(s: string)
    ensures GreedyMatch(s) <==> MatchesWhole(s)
  {
    if GreedyMatch(s) { GreedyMatchSound(s); }
    if MatchesWhole(s) { GreedyMatchComplete(s); }
  }

  // ---------------------------------------------------------------------------
  // Consequences of the grammar, and the names the repository's tests list.

  /** A suffix followed by one more piece is a suffix. */
  lemma {:induction false} SuffixAppend(t: string, p: string)
    requires IsSuffix(t) && IsPiece(p)
    ensures IsSuffix(t + p)
    decreases |t|
  {
    if |t| == 0 {
      assert t + p == p && p[..|p|] == p && p[|p|..] == "";
    } else {
      var i :| 1 <= i <= |t| && IsPiece(t[..i]) && IsSuffix(t[i..]);
      SuffixAppend(t[i..], p);
      assert (t + p)[..i] == t[..i];
      assert (t + p)[i..] == t[i..] + p;
    }
  }

  /** A base name on its own is accepted. */
  lemma BaseNameMatches(b: string)
    requires IsBaseName(b)
    ensures MatchesWhole(b)
  {
    assert b[..|b|] == b && b[|b|..] == "";
  }

  /** Appending a piece to an accepted name gives an accepted name. */
  lemma AppendPiece(s: string, p: string)
    requires MatchesWhole(s) && IsPiece(p)
    ensures MatchesWhole(s + p)
  {
    var i :| 1 <= i <= |s| && IsBaseName(s[..i]) && IsSuffix(s[i..]);
    SuffixAppend(s[i..], p);
    assert (s + p)[..i] == s[..i];
    assert (s + p)[i..] == s[i..] + p;
  }

  /** A separator at `j` at or after a piece boundary `i` starts a piece that
      runs to the next separator. */
  lemma {:induction false} SepStartsPiece(s: string, i: nat, j: nat)
    requires i <= j < |s| && IsSep(s[j]) && SuffixFrom(s, i)
    ensures IsPiece(s[j..NextSep(s, j + 1)])
    decreases j - i
  {
    if i < j {
      BaseEndPast(s, i);
      SepStartsPiece(s, NextSep(s, i + 1), j);
    }
  }

  /** A base name has no `_`. */
  lemma BaseNameNoUnderscore(s: string, i: nat)
    requires i <= |s| && IsBaseName(s[..i])
    ensures forall m :: 0 <= m < i ==> s[m] != '_'
  {
    assert forall m :: 0 <= m < i ==> s[m] == s[..i][m];
  }

  /** In an accepted name every `_` introduces a qualifier that runs up to the
      next `-` or `_`. */
  lemma UnderscoreIntroducesQualifier(s: string, j: nat)
    requires MatchesWhole(s) && j < |s| && s[j] == '_'
    ensures IsQualifier(s[j + 1..NextSep(s, j + 1)])
  {
    var i :| 1 <= i <= |s| && IsBaseName(s[..i]) && IsSuffix(s[i..]);
    BaseNameNoUnderscore(s, i);
    assert i <= j;
    SuffixFromCorrect(s, i);
    SepStartsPiece(s, i, j);
    var p := s[j..NextSep(s, j + 1)];
    assert p[1..] == s[j + 1..NextSep(s, j + 1)];
  }

  /** A suffix never ends with a separator. */
  lemma {:induction false} SuffixEnd(t: string)
    requires IsSuffix(t) && |t| > 0
    ensures !IsSep(t[|t| - 1])
    decreases |t|
  {
    var i :| 1 <= i <= |t| && IsPiece(t[..i]) && IsSuffix(t[i..]);
    PieceShape(t[..i]);
    if i < |t| {
      SuffixEnd(t[i..]);
    } else {
      assert t[..i][i - 1] == t[|t| - 1];
    }
  }

  /** An accepted name never ends with `-` or `_`. */
  lemma NoTrailingSeparator(s: string)
    requires MatchesWhole(s)
    ensures !IsSep(s[|s| - 1])
  {
    var i :| 1 <= i <= |s| && IsBaseName(s[..i]) && IsSuffix(s[i..]);
    if i < |s| {
      SuffixEnd(s[i..]);
    } else {
      assert s[..i][i - 1] == s[|s| - 1];
    }
  }

  /** `-d` is a version piece for a dotted number `d`. */
  lemma VersionPiece(d: string)
    requires IsDottedNumber(d)
    ensures IsPiece("-" + d)
  {
    assert ("-" + d)[1..] == d;
  }

  /** `_kw n` is a pre-release piece for a pre-release keyword and digits `n`. */
  lemma PreReleasePiece(kw: string, n: string)
    requires IsPreReleaseKeyword(kw) && AllDigits(n)
    ensures IsPiece("_" + kw + n)
  {
    var q := kw + n;
    assert ("_" + kw + n)[1..] == q;
    assert q[..|kw|] == kw && q[|kw|..] == n;
    assert DigitsAfter(q, kw);
  }

  /** `_kw body` is a tag or branch piece. */
  lemma TagPiece(kw: string, body: string)
    requires kw == "tag" || kw == "branch"
    requires |body| > 0 && (IsUpper(body[0]) || IsDigit(body[0]))
    requires forall j :: 0 <= j < |body| ==> body[j] == '.' || IsUpper(body[j]) || IsDigit(body[j])
    ensures IsPiece("_" + kw + body)
  {
    var q := kw + body;
    assert ("_" + kw + body)[1..] == q;
    assert q[..|kw|] == kw;
    assert forall j :: |kw| <= j < |q| ==> q[j] == body[j - |kw|];
    assert HasTagBody(q, kw);
  }

  /** `_q` is a revision piece for a revision `q`. */
  lemma RevisionPiece(q: string)
    requires IsRevision(q)
    ensures IsPiece("_" + q)
  {
    assert ("_" + q)[1..] == q;
  }

  /** `[A-Z0-9][.A-Z0-9]*` */
  predicate IsTagBody(body: string) {
    && |body| > 0 && (IsUpper(body[0]) || IsDigit(body[0]))
    && (forall j :: 0 <= j < |body| ==> body[j] == '.' || IsUpper(body[j]) || IsDigit(body[j]))
  }

  /** A base name followed by one piece. */
  lemma OnePiece(base: string, p1: string, name: string)
    requires IsBaseName(base) && IsPiece(p1) && name == base + p1
    ensures MatchesWhole(name)
  {
    BaseNameMatches(base);
    AppendPiece(base, p1);
  }

  /** A base name followed by two pieces. */
  lemma TwoPieces(base: string, p1: string, p2: string, name: string)
    requires IsBaseName(base) && IsPiece(p1) && IsPiece(p2) && name == base + p1 + p2
    ensures MatchesWhole(name)
  {
    OnePiece(base, p1, base + p1);
    AppendPiece(base + p1, p2);
  }

  /** A base name followed by three pieces. */
  lemma ThreePieces(base: string, p1: string, p2: string, p3: string, name: string)
    requires IsBaseName(base) && IsPiece(p1) && IsPiece(p2) && IsPiece(p3)
    requires name == base + p1 + p2 + p3
    ensures MatchesWhole(name)
  {
    TwoPieces(base, p1, p2, base + p1 + p2);
    AppendPiece(base + p1 + p2, p3);
  }

  /** `base-d` for a dotted number `d`. */
  lemma VersionedName(base: string, d: string, name: string)
    requires IsBaseName(base) && IsDottedNumber(d) && name == base + "-" + d
    ensures MatchesWhole(name)
  {
    VersionPiece(d);
    OnePiece(base, "-" + d, name);
  }

  /** `base-d_kw n` with a pre-release keyword. */
  lemma PreReleaseName(base: string, d: string, kw: string, n: string, name: string)
    requires IsBaseName(base) && IsDottedNumber(d) && IsPreReleaseKeyword(kw) && AllDigits(n)
    requires name == base + "-" + d + "_" + kw + n
    ensures MatchesWhole(name)
  {
    VersionPiece(d);
    PreReleasePiece(kw, n);
    TwoPieces(base, "-" + d, "_" + kw + n, name);
  }

  /** `base-d_kw1 n1_kw2 n2` with two pre-release keywords; `mid` is the name
      up to the second keyword. */
  lemma TwoPreReleaseName(base: string, d: string, kw1: string, n1: string, kw2: string, n2: string,
                          mid: string, name: string)
    requires IsBaseName(base) && IsDottedNumber(d)
    requires IsPreReleaseKeyword(kw1) && AllDigits(n1) && IsPreReleaseKeyword(kw2) && AllDigits(n2)
    requires mid == base + "-" + d + "_" + kw1 + n1 && name == mid + "_" + kw2 + n2
    ensures MatchesWhole(name)
  {
    var p1, p2, p3 := "-" + d, "_" + kw1 + n1, "_" + kw2 + n2;
    assert mid == base + p1 + p2;
    assert name == base + p1 + p2 + p3;
    VersionPiece(d);
    PreReleasePiece(kw1, n1);
    PreReleasePiece(kw2, n2);
    ThreePieces(base, p1, p2, p3, name);
  }

  /** `base-d_kw body` with `tag` or `branch`. */
  lemma TagName(base: string, d: string, kw: string, body: string, name: string)
    requires IsBaseName(base) && IsDottedNumber(d) && (kw == "tag" || kw == "branch") && IsTagBody(body)
    requires name == base + "-" + d + "_" + kw + body
    ensures MatchesWhole(name)
  {
    VersionPiece(d);
    TagPiece(kw, body);
    TwoPieces(base, "-" + d, "_" + kw + body, name);
  }

  /** `base-d_q` with a revision `q`. */
  lemma RevisionName(base: string, d: string, q: string, name: string)
    requires IsBaseName(base) && IsDottedNumber(d) && IsRevision(q)
    requires name == base + "-" + d + "_" + q
    ensures MatchesWhole(name)
  {
    VersionPiece(d);
    RevisionPiece(q);
    TwoPieces(base, "-" + d, "_" + q, name);
  }

  /** `toto` is accepted. */
  lemma TokenNameAccepted()
    ensures MatchesWhole("toto")
  {
    BaseNameMatches("toto");
  }

  /** `meta-toto` is accepted. */
  lemma MetaNameAccepted()
    ensures MatchesWhole("meta-toto")
  {
    BaseNameMatches("meta-toto");
  }

  /** `test-toto` is accepted. */
  lemma DashedNameAccepted()
    ensures MatchesWhole("test-toto")
  {
    BaseNameMatches("test-toto");
  }

  /** `test-1.0` is accepted. */
  lemma VersionNameAccepted()
    ensures MatchesWhole("test-1.0")
  {
    VersionedName("test", "1.0", "test-1.0");
  }

  /** `test-test-1.0` is accepted. */
  lemma TwoTokenVersionNameAccepted()
    ensures MatchesWhole("test-test-1.0")
  {
    VersionedName("test-test", "1.0", "test-test-1.0");
  }

  /** `test-1.0.3` is accepted. */
  lemma DottedVersionNameAccepted()
    ensures MatchesWhole("test-1.0.3")
  {
    VersionedName("test", "1.0.3", "test-1.0.3");
  }

  /** `test-1.0_beta444` is accepted. */
  lemma BetaNameAccepted()
    ensures MatchesWhole("test-1.0_beta444")
  {
    PreReleaseName("test", "1.0", "beta", "444", "test-1.0_beta444");
  }

  /** `test-1.0_beta444_pre20071024` is accepted. */
  lemma BetaPreNameAccepted()
    ensures MatchesWhole("test-1.0_beta444_pre20071024")
  {
    TwoPreReleaseName("test", "1.0", "beta", "444", "pre", "20071024",
                      "test-1.0_beta444", "test-1.0_beta444_pre20071024");
  }

  /** `test-1.0_alpha44` is accepted. */
  lemma AlphaNameAccepted()
    ensures MatchesWhole("test-1.0_alpha44")
  {
    PreReleaseName("test", "1.0", "alpha", "44", "test-1.0_alpha44");
  }

  /** `test-1.0_alpha44_pre20071024` is accepted. */
  lemma AlphaPreNameAccepted()
    ensures MatchesWhole("test-1.0_alpha44_pre20071024")
  {
    TwoPreReleaseName("test", "1.0", "alpha", "44", "pre", "20071024",
                      "test-1.0_alpha44", "test-1.0_alpha44_pre20071024");
  }

  /** `test-1.0_pre20071024` is accepted. */
  lemma PreNameAccepted()
    ensures MatchesWhole("test-1.0_pre20071024")
  {
    PreReleaseName("test", "1.0", "pre", "20071024", "test-1.0_pre20071024");
  }

  /** `test-1.0_branch10` is accepted. */
  lemma BranchNameAccepted()
    ensures MatchesWhole("test-1.0_branch10")
  {
    TagName("test", "1.0", "branch", "10", "test-1.0_branch10");
  }

  /** `test-1.0_branchHEAD10` is accepted. */
  lemma BranchHeadNameAccepted()
    ensures MatchesWhole("test-1.0_branchHEAD10")
  {
    TagName("test", "1.0", "branch", "HEAD10", "test-1.0_branchHEAD10");
  }

  /** `test-1.0_tagHEAD10` is accepted. */
  lemma TagNameAccepted()
    ensures MatchesWhole("test-1.0_tagHEAD10")
  {
    TagName("test", "1.0", "tag", "HEAD10", "test-1.0_tagHEAD10");
  }

  /** `test-1.0_r1` is accepted. */
  lemma RevisionNameAccepted()
    ensures MatchesWhole("test-1.0_r1")
  {
    RevisionName("test", "1.0", "r1", "test-1.0_r1");
  }

  /** `test-1.0_rHEAD` is accepted. */
  lemma RevisionHeadNameAccepted()
    ensures MatchesWhole("test-1.0_rHEAD")
  {
    RevisionName("test", "1.0", "rHEAD", "test-1.0_rHEAD");
  }

  /** `test-1.0_rTIP` is accepted. */
  lemma RevisionTipNameAccepted()
    ensures MatchesWhole("test-1.0_rTIP")
  {
    RevisionName("test", "1.0", "rTIP", "test-1.0_rTIP");
  }

  /** A name whose qualifier after the `_` at `j` is not one is rejected. */
  lemma RejectedQualifier(s: string, j: nat, k: nat)
    requires j < k <= |s| && s[j] == '_' && s[|s| - 1] != '\n'
    requires forall m :: j + 1 <= m < k ==> !IsSep(s[m])
    requires k == |s| || IsSep(s[k])
    requires !IsQualifier(s[j + 1..k])
    ensures !PackageVersionMatch(s)
  {
    NextSepIs(s, j + 1, k);
    if MatchesWhole(s) {
      UnderscoreIntroducesQualifier(s, j);
    }
  }

  /** A name ending in a separator is rejected. */
  lemma RejectedTrailing(s: string)
    requires |s| > 0 && IsSep(s[|s| - 1])
    ensures !PackageVersionMatch(s)
  {
    if MatchesWhole(s) {
      NoTrailingSeparator(s);
    }
  }

  /** `kw` is not a prefix of `q`: they differ at position `m`. */
  lemma Differs(q: string, kw: string, m: nat)
    requires m < |kw| && m < |q| && q[m] != kw[m]
    ensures !(|q| >= |kw| && q[..|kw|] == kw)
  {
    if |q| >= |kw| {
      assert q[..|kw|][m] == q[m];
    }
  }

  lemma ProutIsNoQualifier()
    ensures !IsQualifier("prout4")
  {
    var q := "prout4";
    assert q[0] == 'p' && q[1] == 'r' && q[2] == 'o';
    Differs(q, "tag", 0);
    Differs(q, "branch", 0);
    Differs(q, "pre", 2);
    Differs(q, "beta", 0);
    Differs(q, "alpha", 0);
    Differs(q, "rc", 0);
    assert !AllDigits(q[1..]) by { assert q[1..][0] == 'r'; }
  }

  lemma LowerCaseBranchIsNoQualifier()
    ensures !IsQualifier("brancha10")
  {
    var q := "brancha10";
    assert q[0] == 'b' && q[1] == 'r' && q[6] == 'a';
    Differs(q, "tag", 0);
    Differs(q, "pre", 0);
    Differs(q, "p", 0);
    Differs(q, "beta", 1);
    Differs(q, "alpha", 0);
    Differs(q, "rc", 0);
  }

  lemma DotBranchIsNoQualifier()
    ensures !IsQualifier("branch.10")
  {
    var q := "branch.10";
    assert q[0] == 'b' && q[1] == 'r' && q[6] == '.';
    Differs(q, "tag", 0);
    Differs(q, "pre", 0);
    Differs(q, "p", 0);
    Differs(q, "beta", 1);
    Differs(q, "alpha", 0);
    Differs(q, "rc", 0);
  }

  lemma WordRevisionIsNoQualifier()
    ensures !IsQualifier("rnot")
  {
    var q := "rnot";
    assert q[0] == 'r' && q[1] == 'n';
    assert q != "rHEAD" && q != "rTIP" by { assert "rTIP"[1] == 'T'; }
    assert !AllDigits(q[1..]) by { assert q[1..][0] == 'n'; }
    Differs(q, "tag", 0);
    Differs(q, "branch", 0);
    Differs(q, "pre", 0);
    Differs(q, "p", 0);
    Differs(q, "beta", 0);
    Differs(q, "alpha", 0);
    Differs(q, "rc", 1);
  }

  /** `test-1.0_prout4` is rejected: `prout4` is not a qualifier. */
  lemma ProutNameRejected()
    ensures !PackageVersionMatch("test-1.0_prout4")
  {
    var s := "test-1.0_prout4";
    ProutIsNoQualifier();
    assert s[9..15] == "prout4";
    assert s[8] == '_';
    RejectedQualifier(s, 8, 15);
  }

  /** `test_prout4-1.0` is rejected: `prout4` is not a qualifier. */
  lemma ProutBeforeVersionNameRejected()
    ensures !PackageVersionMatch("test_prout4-1.0")
  {
    var s := "test_prout4-1.0";
    ProutIsNoQualifier();
    assert s[5..11] == "prout4";
    assert s[4] == '_';
    assert s[11] == '-';
    RejectedQualifier(s, 4, 11);
  }

  /** `test-1.0_brancha10` is rejected: `brancha10` is not a qualifier. */
  lemma LowerCaseBranchNameRejected()
    ensures !PackageVersionMatch("test-1.0_brancha10")
  {
    var s := "test-1.0_brancha10";
    LowerCaseBranchIsNoQualifier();
    assert s[9..18] == "brancha10";
    assert s[8] == '_';
    RejectedQualifier(s, 8, 18);
  }

  /** `test-1.0_branch.10` is rejected: `branch.10` is not a qualifier. */
  lemma DotBranchNameRejected()
    ensures !PackageVersionMatch("test-1.0_branch.10")
  {
    var s := "test-1.0_branch.10";
    DotBranchIsNoQualifier();
    assert s[9..18] == "branch.10";
    assert s[8] == '_';
    RejectedQualifier(s, 8, 18);
  }

  /** `test-1.0_rnot` is rejected: `rnot` is not a qualifier. */
  lemma WordRevisionNameRejected()
    ensures !PackageVersionMatch("test-1.0_rnot")
  {
    var s := "test-1.0_rnot";
    WordRevisionIsNoQualifier();
    assert s[9..13] == "rnot";
    assert s[8] == '_';
    RejectedQualifier(s, 8, 13);
  }

  /** The names the repository's tests reject because they end with `-`. */
  lemma TrailingDashNamesRejected()
    ensures !PackageVersionMatch("test-") && !PackageVersionMatch("test-test-")
    ensures !PackageVersionMatch("meta-meta-") && !PackageVersionMatch("meta-")
  {
    RejectedTrailing("test-");
    RejectedTrailing("test-test-");
    RejectedTrailing("meta-meta-");
    RejectedTrailing("meta-");
  }
}
