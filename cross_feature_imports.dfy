/**
 * scripts/check_cross_feature_imports.py: a feature may import another
 * feature only through its barrel (`@/features/<name>` or
 * `@/features/<name>/index`) or its `types`. Paths are taken relative to
 * `src/features`; the walked files and their lines are inputs.
 */
module CrossFeatureImports {
  import opened Common
  import opened Text

  // ---------------------------------------------------------------------------
  // get_feature_name

  /** The position of the first `c` in `s`. */
  function FirstIndex(s: string, c: char): (i: nat)
    requires c in s
    ensures i < |s| && s[i] == c && c !in s[..i]
  {
    if s[0] == c then 0
    else
      assert c in s[1..] by {
        var k :| 0 <= k < |s| && s[k] == c;
        assert s[1..][k - 1] == c;
      }
      var i := 1 + FirstIndex(s[1..], c);
      assert s[..i] == [s[0]] + s[1..][..i - 1];
      i
  }

  /** Python's `s.split(sep)` for a one-character separator. */
  function Split(s: string, sep: char): (parts: seq<string>)
    ensures |parts| >= 1
    ensures forall k :: 0 <= k < |parts| ==> sep !in parts[k]
    decreases |s|
  {
    if sep !in s then [s]
    else
      var i := FirstIndex(s, sep);
      [s[..i]] + Split(s[i + 1..], sep)
  }

  /** Joining onto a first part. */
  lemma {:induction false} JoinCons(a: string, rest: seq<string>, sep: string)
    requires rest != []
    ensures Join([a] + rest, sep) == a + sep + Join(rest, sep)
    decreases |rest|
  {
    var all := [a] + rest;
    var last := rest[|rest| - 1];
    assert all[..|rest|] == [a] + rest[..|rest| - 1] && all[|rest|] == last;
    if |rest| > 1 {
      var init := rest[..|rest| - 1];
      var j := Join(init, sep);
      JoinCons(a, init, sep);
      assert Join(all, sep) == (a + sep + j) + sep + last;
      assert Join(rest, sep) == j + sep + last;
      assert (a + sep + j) + sep + last == a + sep + (j + sep + last);
    }
  }

  /** Splitting and joining with the same separator gives the path back. */
  lemma {:induction false} SplitJoin(s: string, sep: char)
    ensures Join(Split(s, sep), [sep]) == s
    decreases |s|
  {
    if sep in s {
      var i := FirstIndex(s, sep);
      SplitJoin(s[i + 1..], sep);
      JoinCons(s[..i], Split(s[i + 1..], sep), [sep]);
      assert s == s[..i] + [sep] + s[i + 1..];
    }
  }

  /** `get_feature_name`: the first component of a path under `src/features` with at least two components. */
  function FeatureName(rel: string): Option<string>
  {
    var parts := Split(rel, '/');
    if |parts| >= 2 then Some(parts[0]) else None
  }

  /**
   * A path names a feature iff it has a '/': the feature is the text before
   * the first '/', so the path is that name, '/' and the rest.
   */
  lemma FeatureNameSpec(rel: string)
    ensures FeatureName(rel).Some? <==> '/' in rel
    ensures FeatureName(rel).Some? ==>
      '/' !in FeatureName(rel).value && StartsWith(rel, FeatureName(rel).value + "/")
  {
    if '/' in rel {
      var i := FirstIndex(rel, '/');
      assert rel[..i + 1] == rel[..i] + "/";
    }
  }

  // ---------------------------------------------------------------------------
  // CROSS_FEATURE_INTERNAL

  predicate IsQuote(c: char) { c == '\'' || c == '"' }

  /** `[a-z0-9-]`. */
  predicate IsFeatureChar(c: char) { IsAsciiLower(c) || IsAsciiDigit(c) || c == '-' }

  /** The length of the run of `\s` characters starting at `i`. */
  function SpaceRun(line: string, i: nat): (n: nat)
    requires i <= |line|
    ensures i + n <= |line|
    decreases |line| - i
  {
    if i < |line| && IsPySpace(line[i]) then 1 + SpaceRun(line, i + 1) else 0
  }

  /** `\s+` consumes the whole run of white space and stops at the first other character. */
  lemma {:induction false} SpaceRunSpec(line: string, i: nat)
    requires i <= |line|
    ensures var n := SpaceRun(line, i);
      (forall k :: i <= k < i + n ==> IsPySpace(line[k])) && (i + n < |line| ==> !IsPySpace(line[i + n]))
    decreases |line| - i
  {
    if i < |line| && IsPySpace(line[i]) {
      SpaceRunSpec(line, i + 1);
    }
  }

  /** The length of the run of `[a-z0-9-]` characters starting at `i`. */
  function FeatureRun(line: string, i: nat): (n: nat)
    requires i <= |line|
    ensures i + n <= |line|
    decreases |line| - i
  {
    if i < |line| && IsFeatureChar(line[i]) then 1 + FeatureRun(line, i + 1) else 0
  }

  /** `[a-z0-9-]+` consumes the whole run of feature-name characters and stops at the first other one. */
  lemma {:induction false} FeatureRunSpec(line: string, i: nat)
    requires i <= |line|
    ensures var n := FeatureRun(line, i);
      (forall k :: i <= k < i + n ==> IsFeatureChar(line[k])) && (i + n < |line| ==> !IsFeatureChar(line[i + n]))
    decreases |line| - i
  {
    if i < |line| && IsFeatureChar(line[i]) {
      FeatureRunSpec(line, i + 1);
    }
  }

  /** Where the lazy `(.*?)['"]` ends: the first quote from `i` on, unless a newline comes first. */
  function ClosingQuote(line: string, i: nat): (k: Option<nat>)
    requires i <= |line|
    ensures k.Some? ==> i <= k.value < |line|
    decreases |line| - i
  {
    if i == |line| || line[i] == '\n' then None
    else if IsQuote(line[i]) then Some(i)
    else ClosingQuote(line, i + 1)
  }

  /** The path closes at a quote, and nothing before it on the way is a quote or a newline. */
  lemma {:induction false} ClosingQuoteSpec(line: string, i: nat)
    requires i <= |line|
    ensures var k := ClosingQuote(line, i);
      k.Some? ==> IsQuote(line[k.value]) && forall m :: i <= m < k.value ==> !IsQuote(line[m]) && line[m] != '\n'
    decreases |line| - i
  {
    if i < |line| && line[i] != '\n' && !IsQuote(line[i]) {
      ClosingQuoteSpec(line, i + 1);
    }
  }

  /** The negative lookahead `(?!index['"]|types['"/])`. */
  predicate BarrelOrTypes(rest: string)
  {
    StartsWith(rest, "index'") || StartsWith(rest, "index\"")
    || StartsWith(rest, "types'") || StartsWith(rest, "types\"") || StartsWith(rest, "types/")
  }

  /** The two groups of a match: the imported feature and the internal path. */
  datatype Match = Match(feature: string, internal: string)

  /**
   * The regular expression matched at position `p`. Each part is forced: `\s+`
   * and `[a-z0-9-]+` must be followed by a character outside their class,
   * and `.*?` stops at the first quote.
   */
  function MatchAt(line: string, p: nat): Option<Match>
  {
    if !(p + 4 <= |line| && line[p..p + 4] == "from") then None
    else
      var w := SpaceRun(line, p + 4);
      var q := p + 4 + w;
      if w == 0 || q >= |line| || !IsQuote(line[q]) || !StartsWith(line[q + 1..], "@/features/") then None
      else
        var f0 := q + 12;
        var f := FeatureRun(line, f0);
        if f == 0 || f0 + f >= |line| || line[f0 + f] != '/' || BarrelOrTypes(line[f0 + f + 1..]) then None
        else
          var u := f0 + f + 1;
          var k := ClosingQuote(line, u);
          if k.None? then None else Some(Match(line[f0..f0 + f], line[u..k.value]))
  }

  /** The first value in `ms` from position `p` on. */
  function FirstSome<T>(ms: seq<Option<T>>, p: nat): Option<T>
    decreases |ms| - p
  {
    if p >= |ms| then None
    else if ms[p].Some? then ms[p]
    else FirstSome(ms, p + 1)
  }

  /** `FirstSome` returns the value at the leftmost position that has one, and none iff no position has one. */
  lemma {:induction false} FirstSomeSpec<T>(ms: seq<Option<T>>, p: nat)
    ensures FirstSome(ms, p).Some? ==>
      exists i :: p <= i < |ms| && ms[i] == FirstSome(ms, p) && forall j :: p <= j < i ==> ms[j].None?
    ensures FirstSome(ms, p).None? <==> forall i :: p <= i < |ms| ==> ms[i].None?
    decreases |ms| - p
  {
    if p < |ms| && ms[p].None? {
      FirstSomeSpec(ms, p + 1);
      if FirstSome(ms, p).Some? {
        var i :| p + 1 <= i < |ms| && ms[i] == FirstSome(ms, p + 1) && forall j :: p + 1 <= j < i ==> ms[j].None?;
        assert forall j :: p <= j < i ==> ms[j].None?;
      }
    }
  }

  /** The match the expression finds when tried at each position of the line. */
  function Attempts(line: string): seq<Option<Match>>
  {
    seq(|line|, i requires 0 <= i < |line| => MatchAt(line, i))
  }

  /** `CROSS_FEATURE_INTERNAL.search(line)` from position `p` on: the leftmost match. */
  function SearchFrom(line: string, p: nat): Option<Match>
    decreases |line| - p
  {
    if p >= |line| then None
    else if MatchAt(line, p).Some? then MatchAt(line, p)
    else SearchFrom(line, p + 1)
  }

  /** The search tries the positions in order, as `FirstSome` does on the attempts. */
  lemma {:induction false} SearchFromAttempts(line: string, p: nat)
    ensures SearchFrom(line, p) == FirstSome(Attempts(line), p)
    decreases |line| - p
  {
    if p < |line| {
      assert Attempts(line)[p] == MatchAt(line, p);
      SearchFromAttempts(line, p + 1);
    }
  }

  function Search(line: string): Option<Match>
  {
    SearchFrom(line, 0)
  }

  /** The search returns the match at the leftmost position where there is one, and none iff there is none. */
  lemma SearchFromSpec(line: string, p: nat)
    ensures SearchFrom(line, p).Some? ==>
      exists i :: p <= i < |line| && MatchAt(line, i) == SearchFrom(line, p)
        && forall j :: p <= j < i ==> MatchAt(line, j).None?
    ensures SearchFrom(line, p).None? <==> forall i :: p <= i < |line| ==> MatchAt(line, i).None?
  {
    var ms := Attempts(line);
    SearchFromAttempts(line, p);
    FirstSomeSpec(ms, p);
    assert forall i :: 0 <= i < |line| ==> ms[i] == MatchAt(line, i);
  }

  /**
   * What a match can be: a non-empty name of `[a-z0-9-]` characters, and an
   * internal path on one line without quotes that is not `index`, not
   * `types` and not under `types/` (the barrel and the type files are allowed).
   */
  lemma MatchShape(line: string, p: nat)
    requires MatchAt(line, p).Some?
    ensures var m := MatchAt(line, p).value;
      && m.feature != [] && (forall k :: 0 <= k < |m.feature| ==> IsFeatureChar(m.feature[k]))
      && (forall k :: 0 <= k < |m.internal| ==> !IsQuote(m.internal[k]) && m.internal[k] != '\n')
      && m.internal != "index" && m.internal != "types" && !StartsWith(m.internal, "types/")
  {
    var w := SpaceRun(line, p + 4);
    var q := p + 4 + w;
    var f0 := q + 12;
    var f := FeatureRun(line, f0);
    var u := f0 + f + 1;
    var k := ClosingQuote(line, u).value;
    var x, g := line[f0..f0 + f], line[u..k];
    assert MatchAt(line, p).value == Match(x, g) && f != 0 && !BarrelOrTypes(line[u..]);
    assert forall i :: 0 <= i < |x| ==> IsFeatureChar(x[i]) by {
      FeatureRunSpec(line, f0);
    }
    ClosingQuoteSpec(line, u);
    assert forall i :: 0 <= i < |g| ==> !IsQuote(g[i]) && g[i] != '\n';
    QuotedNotBarrel(line, u, k);
  }

  /** A path closed by a quote and not rejected by the lookahead is neither the barrel nor a types file. */
  lemma QuotedNotBarrel(line: string, u: nat, k: nat)
    requires u <= k < |line| && IsQuote(line[k]) && !BarrelOrTypes(line[u..])
    ensures var g := line[u..k]; g != "index" && g != "types" && !StartsWith(g, "types/")
  {
    assert line[u..] == line[u..k] + line[k..];
  }

  /**
   * The converse: an internal import `from '@/features/<x>/<g>'` of a named
   * feature is found, with `x` and `g` as its groups, whenever `g` is on one
   * line, has no quote and is neither the barrel nor a types file.
   */
  lemma InternalImportFound(x: string, g: string)
    requires x != [] && forall k :: 0 <= k < |x| ==> IsFeatureChar(x[k])
    requires forall k :: 0 <= k < |g| ==> !IsQuote(g[k]) && g[k] != '\n'
    requires g != "index" && g != "types" && !StartsWith(g, "types/")
    ensures Search(ImportLine(x, g)) == Some(Match(x, g))
  {
    var line := ImportLine(x, g);
    ImportLineParts(x, g);
    NotBarrel(g);
    MatchAtParts(line, x, g);
  }

  /** `from '@/features/<x>/<g>'`. */
  function ImportLine(x: string, g: string): string
  {
    "from '@/features/" + x + "/" + g + "'"
  }

  lemma ImportLineParts(x: string, g: string)
    ensures var line := ImportLine(x, g);
      && |line| == 19 + |x| + |g|
      && line[..4] == "from" && line[4] == ' ' && line[5] == '\''
      && line[6..][..11] == "@/features/" && line[17..17 + |x|] == x
      && line[17 + |x|] == '/' && line[18 + |x|..] == g + "'"
  {
    var h := "from '@/features/";
    var line := ImportLine(x, g);
    assert line == h + (x + ("/" + (g + "'")));
    assert line[..17] == h;
    assert line[6..][..11] == h[6..];
    assert line[17..] == x + ("/" + (g + "'"));
  }

  lemma MatchAtParts(line: string, x: string, g: string)
    requires x != [] && forall k :: 0 <= k < |x| ==> IsFeatureChar(x[k])
    requires forall k :: 0 <= k < |g| ==> !IsQuote(g[k]) && g[k] != '\n'
    requires !BarrelOrTypes(g + "'")
    requires |line| == 19 + |x| + |g|
      && line[..4] == "from" && line[4] == ' ' && line[5] == '\''
      && line[6..][..11] == "@/features/" && line[17..17 + |x|] == x
      && line[17 + |x|] == '/' && line[18 + |x|..] == g + "'"
    ensures Search(line) == Some(Match(x, g))
  {
    var u := 18 + |x|;
    assert SpaceRun(line, 4) == 1 by {
      assert SpaceRun(line, 5) == 0;
    }
    assert FeatureRun(line, 17) == |x| by {
      FeatureRunOf(line, 17, |x|);
    }
    assert ClosingQuote(line, u) == Some(u + |g|) && line[u..u + |g|] == g by {
      assert line[u..u + |g|] == g && line[u + |g|] == '\'';
      ClosingQuoteOf(line, u, |g|);
    }
    MatchAtStart(line, x, g);
    SearchAtStart(line);
  }

  /** The match at the start of a line whose parts have been read off. */
  lemma MatchAtStart(line: string, x: string, g: string)
    requires |line| == 19 + |x| + |g| && x != []
    requires line[..4] == "from" && SpaceRun(line, 4) == 1 && line[5] == '\'' && line[6..][..11] == "@/features/"
    requires FeatureRun(line, 17) == |x| && line[17..17 + |x|] == x && line[17 + |x|] == '/'
    requires !BarrelOrTypes(line[18 + |x|..])
    requires ClosingQuote(line, 18 + |x|) == Some(18 + |x| + |g|) && line[18 + |x|..18 + |x| + |g|] == g
    ensures MatchAt(line, 0) == Some(Match(x, g))
  {
    assert line[0..4] == line[..4];
  }

  /** A match at the start of the line is the one the search returns. */
  lemma SearchAtStart(line: string)
    requires MatchAt(line, 0).Some?
    ensures Search(line) == MatchAt(line, 0)
  {
  }

  /** A run of `n` feature characters followed by one that is not. */
  lemma {:induction false} FeatureRunOf(line: string, i: nat, n: nat)
    requires i + n < |line| && !IsFeatureChar(line[i + n])
    requires forall k :: i <= k < i + n ==> IsFeatureChar(line[k])
    ensures FeatureRun(line, i) == n
    decreases n
  {
    if n > 0 {
      FeatureRunOf(line, i + 1, n - 1);
    }
  }

  /** A quote after `n` characters that are neither quotes nor newlines closes the path. */
  lemma {:induction false} ClosingQuoteOf(line: string, i: nat, n: nat)
    requires i + n < |line| && IsQuote(line[i + n])
    requires forall k :: i <= k < i + n ==> !IsQuote(line[k]) && line[k] != '\n'
    ensures ClosingQuote(line, i) == Some(i + n)
    decreases n
  {
    if n > 0 {
      ClosingQuoteOf(line, i + 1, n - 1);
    }
  }

  /** The lookahead lets a quoted path through when it is neither the barrel nor a types file. */
  lemma NotBarrel(g: string)
    requires forall k :: 0 <= k < |g| ==> !IsQuote(g[k])
    requires g != "index" && g != "types" && !StartsWith(g, "types/")
    ensures !BarrelOrTypes(g + "'")
  {
    var t := g + "'";
    if |g| > 5 {
      assert t[..6] == g[..6];
      assert !IsQuote(t[5]);
    } else if |g| == 5 {
      assert t[..5] == g;
    }
  }

  // ---------------------------------------------------------------------------
  // check_file and main

  /** One reported import: the line number (from 1), the imported feature and the internal path. */
  datatype Violation = Violation(file: string, lineNumber: nat, target: string, internal: string)

  /** What one line contributes: its first match, when it names another feature. */
  function LineViolations(rel: string, feature: string, lineNumber: nat, line: string): (vs: seq<Violation>)
    ensures |vs| <= 1
    ensures forall v :: v in vs ==> v.file == rel && v.lineNumber == lineNumber && v.target != feature
  {
    var m := Search(line);
    if m.Some? && m.value.feature != feature then [Violation(rel, lineNumber, m.value.feature, m.value.internal)] else []
  }

  /** The violations of the first `|lines|` lines. */
  function LinesViolations(rel: string, feature: string, lines: seq<string>): seq<Violation>
  {
    if lines == [] then []
    else LinesViolations(rel, feature, lines[..|lines| - 1]) + LineViolations(rel, feature, |lines|, lines[|lines| - 1])
  }

  /** `check_file`: nothing without a (truthy) feature name or for an unreadable file. */
  function FileViolations(rel: string, lines: Option<seq<string>>): seq<Violation>
  {
    var feature := FeatureName(rel);
    if feature.None? || feature.value == "" || lines.None? then []
    else LinesViolations(rel, feature.value, lines.value)
  }

  /** The per-line loop of `check_file`. */
  method CheckFile(rel: string, lines: Option<seq<string>>) returns (violations: seq<Violation>)
    ensures violations == FileViolations(rel, lines)
  {
    violations := [];
    var feature := FeatureName(rel);
    if feature.None? || feature.value == "" || lines.None? {
      return;
    }
    var ls := lines.value;
    var i := 0;
    while i < |ls|
      invariant 0 <= i <= |ls|
      invariant violations == LinesViolations(rel, feature.value, ls[..i])
    {
      assert ls[..i + 1][..i] == ls[..i];
      var m := Search(ls[i]);
      if m.Some? && m.value.feature != feature.value {
        violations := violations + [Violation(rel, i + 1, m.value.feature, m.value.internal)];
      }
      i := i + 1;
    }
    assert ls[..i] == ls;
  }

  /** At most one violation per line, numbered from 1, in line order. */
  lemma {:induction false} LinesViolationsOrder(rel: string, feature: string, lines: seq<string>)
    ensures var vs := LinesViolations(rel, feature, lines);
      && |vs| <= |lines|
      && (forall i :: 0 <= i < |vs| ==> 1 <= vs[i].lineNumber <= |lines|)
      && (forall i, j :: 0 <= i < j < |vs| ==> vs[i].lineNumber < vs[j].lineNumber)
  {
    if lines != [] {
      LinesViolationsOrder(rel, feature, lines[..|lines| - 1]);
    }
  }

  /** Every violation reports the first match on its line, and that match names another feature. */
  lemma {:induction false} LinesViolationsSound(rel: string, feature: string, lines: seq<string>)
    ensures forall v :: v in LinesViolations(rel, feature, lines) ==>
      && 1 <= v.lineNumber <= |lines| && v.file == rel && v.target != feature
      && Search(lines[v.lineNumber - 1]) == Some(Match(v.target, v.internal))
  {
    if lines != [] {
      var n := |lines| - 1;
      LinesViolationsSound(rel, feature, lines[..n]);
      assert forall k :: 0 <= k < n ==> lines[..n][k] == lines[k];
    }
  }

  /** Line `k + 1` is reported iff its first match names a feature other than the file's own. */
  lemma {:induction false} LinesViolationsComplete(rel: string, feature: string, lines: seq<string>)
    ensures forall k :: 0 <= k < |lines| ==>
      ((exists v :: v in LinesViolations(rel, feature, lines) && v.lineNumber == k + 1) <==>
         Search(lines[k]).Some? && Search(lines[k]).value.feature != feature)
  {
    forall k | 0 <= k < |lines|
      ensures (exists v :: v in LinesViolations(rel, feature, lines) && v.lineNumber == k + 1) <==>
        Search(lines[k]).Some? && Search(lines[k]).value.feature != feature
    {
      LineReported(rel, feature, lines, k);
    }
  }

  /** Line `k + 1` alone: the induction behind `LinesViolationsComplete`. */
  lemma {:induction false} LineReported(rel: string, feature: string, lines: seq<string>, k: nat)
    requires k < |lines|
    ensures (exists v :: v in LinesViolations(rel, feature, lines) && v.lineNumber == k + 1) <==>
      Search(lines[k]).Some? && Search(lines[k]).value.feature != feature
  {
    var n := |lines| - 1;
    var init := LinesViolations(rel, feature, lines[..n]);
    var last := LineViolations(rel, feature, |lines|, lines[n]);
    assert LinesViolations(rel, feature, lines) == init + last;
    if k < n {
      LineReported(rel, feature, lines[..n], k);
      assert lines[..n][k] == lines[k];
      assert forall v :: v in last ==> v.lineNumber != k + 1;
    } else {
      LinesViolationsSound(rel, feature, lines[..n]);
      assert forall v :: v in init ==> v.lineNumber != k + 1;
    }
  }

  /** A file outside a feature directory, or a feature directory named by the empty string, has no violation. */
  lemma NoFeatureNoViolations(rel: string, lines: Option<seq<string>>)
    requires '/' !in rel || lines.None?
    ensures FileViolations(rel, lines) == []
  {
    FeatureNameSpec(rel);
  }

  /** One file found by `os.walk`: its path under `src/features` and its lines (absent when unreadable). */
  datatype WalkedFile = WalkedFile(rel: string, lines: Option<seq<string>>)

  predicate Scanned(f: WalkedFile)
  {
    EndsWith(f.rel, ".ts") || EndsWith(f.rel, ".tsx")
  }

  function ScannedViolations(f: WalkedFile): seq<Violation>
  {
    if Scanned(f) then FileViolations(f.rel, f.lines) else []
  }

  /** The walk of `main`: every `.ts`/`.tsx` file's violations, in walk order. */
  method CollectViolations(files: seq<WalkedFile>) returns (violations: seq<Violation>)
    ensures violations == FlatMap(files, ScannedViolations)
  {
    violations := [];
    var i := 0;
    while i < |files|
      invariant 0 <= i <= |files|
      invariant violations == FlatMap(files[..i], ScannedViolations)
    {
      FlatMapSnoc(files, ScannedViolations, i);
      if EndsWith(files[i].rel, ".ts") || EndsWith(files[i].rel, ".tsx") {
        var found := CheckFile(files[i].rel, files[i].lines);
        violations := violations + found;
      }
      i := i + 1;
    }
    assert files[..i] == files;
  }

  /** `main`'s return value. */
  function ExitCode(srcFeaturesExists: bool, files: seq<WalkedFile>): int
  {
    if !srcFeaturesExists then 1 else if FlatMap(files, ScannedViolations) != [] then 1 else 0
  }

  method RunCheck(srcFeaturesExists: bool, files: seq<WalkedFile>) returns (code: int, violations: seq<Violation>)
    ensures code == ExitCode(srcFeaturesExists, files)
    ensures srcFeaturesExists ==> violations == FlatMap(files, ScannedViolations)
  {
    violations := [];
    if !srcFeaturesExists {
      return 1, violations;
    }
    violations := CollectViolations(files);
    code := if violations != [] then 1 else 0;
  }

  /**
   * The command fails iff `src/features` is missing or some scanned `.ts` or
   * `.tsx` file has a violation; other files never matter.
   */
  lemma ExitCodeSpec(srcFeaturesExists: bool, files: seq<WalkedFile>)
    ensures ExitCode(srcFeaturesExists, files) in {0, 1}
    ensures ExitCode(srcFeaturesExists, files) == 1 <==>
      !srcFeaturesExists || exists i :: 0 <= i < |files| && Scanned(files[i]) && FileViolations(files[i].rel, files[i].lines) != []
  {
    FlatMapMembers(files, ScannedViolations);
  }
}
