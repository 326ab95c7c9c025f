/**
 * The eight checks of scripts/validate_docs_consistency.py (D1-D8) and
 * `run_all_checks`. `feature-registry.json`'s `mappings` (source feature
 * directory to documentation id) is an object; the file system is a value of
 * `DocsFs` holding the directory listings, the files the checks read and the
 * paths that exist. Details are structured values rather than the Japanese
 * message text.
 */
module ValidateDocs {
  import opened Common
  import opened Text
  import opened Sorting
  import opened SeverityReport

  /** `EXCLUDED_DIRS`. */
  const Excluded: set<string> := {".DS_Store", "_example", "__pycache__"}

  /** One entry of a directory listing. */
  datatype Entry = Entry(name: string, isDir: bool)

  /** A file inside a documentation directory. */
  datatype DocFile = DocFile(name: string, content: string)

  /** A value read from `CONTEXT.json`, as far as Python's truthiness, `isinstance` and `str` see it. */
  datatype JsonField =
    | Missing
    | Null
    | Flag(b: bool)
    | Number(value: real, shown: string)
    | Text(s: string)
    | Other(truthy: bool, shown: string)

  /** One element of a `related_code` list. */
  datatype CodeRef = PathRef(path: string) | NonStringRef

  /** A category value of a `related_code` object: a list or anything else. */
  datatype Category = ListCategory(refs: seq<CodeRef>) | NonListCategory

  /** `references.related_code`: an object of categories, a flat list or anything else (absent is `{}`). */
  datatype RelatedCode = RelatedDict(categories: seq<Category>) | RelatedList(refs: seq<CodeRef>) | RelatedOther

  datatype Context = Context(schemaVersion: JsonField, featureId: JsonField, title: JsonField, why: JsonField,
                             relatedCode: RelatedCode)

  /** A `CONTEXT.json` that exists: unparsable, or parsed. */
  datatype ContextFile = Unparsable | Parsed(ctx: Context)

  /**
   * The file system as the checks see it. `docDirs` and `docPlainFiles` say
   * which `docs/features/<id>` paths exist as directories (with their files)
   * or as plain files; `contexts` holds the `docs/features/<id>/CONTEXT.json`
   * files that exist; `projectPaths` the paths under the project root that
   * exist. A listing is absent when its directory does not exist.
   */
  datatype DocsFs = DocsFs(
    srcListing: Option<seq<Entry>>,
    docsListing: Option<seq<Entry>>,
    docDirs: map<string, seq<DocFile>>,
    docPlainFiles: set<string>,
    contexts: map<string, ContextFile>,
    index: Option<string>,
    projectPaths: set<string>)

  datatype FieldError = SchemaVersionInvalid | FeatureIdMissing | TitleMissing | WhyTooShort(length: nat)

  /** One line of a check's `details`. */
  datatype DocDetail =
    | Unregistered(srcDir: string)
    | DocDirMissing(docId: string, srcName: string)
    | DocDirAbsent(docId: string)
    | SpecFileMissing(docId: string, pattern: string)
    | ContextMissing(docId: string)
    | ContextUnparsable(docId: string)
    | ContextFieldErrors(docId: string, errors: seq<FieldError>)
    | IndexMissing
    | NotInIndex(docId: string, specNumber: string)
    | SectionsMissing(docId: string, sections: seq<nat>)
    | RelatedPathMissing(docId: string, path: string)
    | Orphan(dir: string)

  /** A `CheckResult`; the display name is left out. */
  datatype DocCheck = DocCheck(id: string, severity: Severity, passed: bool, total: int, okCount: int, details: seq<DocDetail>)

  // ---------------------------------------------------------------------------
  // Registry items

  /** Python's order on `(key, value)` tuples of strings. */
  predicate PairLt(a: (string, string), b: (string, string))
  {
    StrLt(a.0, b.0) || (a.0 == b.0 && StrLt(a.1, b.1))
  }

  lemma PairLtIsOrder()
    ensures StrictTotalOrder(PairLt)
  {
    StrLtIsOrder();
  }

  /** `sorted(mappings.items())`. */
  function Items(mappings: Obj<string>): seq<(string, string)>
  {
    Sort(mappings, PairLt)
  }

  lemma ItemsSpec(mappings: Obj<string>)
    ensures |Items(mappings)| == |mappings|
    ensures forall it :: it in Items(mappings) <==> it in mappings
    ensures Sorted(Items(mappings), PairLt)
  {
    PairLtIsOrder();
    SortLength(mappings, PairLt);
    SortSpec(mappings, PairLt);
  }

  /** `mappings.values()`. */
  function Values(mappings: Obj<string>): (vs: seq<string>)
    ensures |vs| == |mappings| && forall i :: 0 <= i < |mappings| ==> vs[i] == mappings[i].1
  {
    seq(|mappings|, i requires 0 <= i < |mappings| => mappings[i].1)
  }

  // ---------------------------------------------------------------------------
  // The per-mapping loops of D2-D7

  /** What one loop iteration does: count the entry as OK, record a failure, or `continue`. */
  datatype Verdict = Pass | Fail(detail: DocDetail) | Skip

  function Verdicts<I>(items: seq<I>, f: I -> Verdict): (vs: seq<Verdict>)
    ensures |vs| == |items| && forall i :: 0 <= i < |items| ==> vs[i] == f(items[i])
  {
    seq(|items|, i requires 0 <= i < |items| => f(items[i]))
  }

  /** `ok_count` after the loop has seen `vs`. */
  function PassCount(vs: seq<Verdict>): nat
  {
    if vs == [] then 0 else PassCount(vs[..|vs| - 1]) + if vs[|vs| - 1].Pass? then 1 else 0
  }

  function DetailOf(v: Verdict): seq<DocDetail>
  {
    if v.Fail? then [v.detail] else []
  }

  /** `details` after the loop has seen `vs`. */
  function FailDetails(vs: seq<Verdict>): seq<DocDetail>
  {
    FlatMap(vs, DetailOf)
  }

  /** The loop shared by D2-D7: `ok_count += 1` for a pass, `details.append` for a failure. */
  method TallyVerdicts(vs: seq<Verdict>) returns (okCount: nat, details: seq<DocDetail>)
    ensures okCount == PassCount(vs) && details == FailDetails(vs)
  {
    okCount, details := 0, [];
    var i := 0;
    while i < |vs|
      invariant 0 <= i <= |vs|
      invariant okCount == PassCount(vs[..i])
      invariant details == FailDetails(vs[..i])
    {
      assert vs[..i + 1][..i] == vs[..i];
      FlatMapSnoc(vs, DetailOf, i);
      if vs[i].Pass? {
        okCount := okCount + 1;
      } else if vs[i].Fail? {
        details := details + [vs[i].detail];
      }
      i := i + 1;
    }
    assert vs[..i] == vs;
  }

  /** Every iteration does at most one of the two, and exactly one when none is skipped. */
  lemma {:induction false} VerdictCounts(vs: seq<Verdict>)
    ensures PassCount(vs) + |FailDetails(vs)| <= |vs|
    ensures (forall i :: 0 <= i < |vs| ==> !vs[i].Skip?) ==> PassCount(vs) + |FailDetails(vs)| == |vs|
  {
    if vs != [] {
      var n := |vs| - 1;
      VerdictCounts(vs[..n]);
      FlatMapSnoc(vs, DetailOf, n);
      assert vs[..n + 1] == vs;
    }
  }

  /** The details are exactly the recorded failures, and there are none iff no iteration failed. */
  lemma FailDetailsSpec(vs: seq<Verdict>)
    ensures forall d :: d in FailDetails(vs) <==> exists i :: 0 <= i < |vs| && vs[i] == Fail(d)
    ensures FailDetails(vs) == [] <==> forall i :: 0 <= i < |vs| ==> !vs[i].Fail?
  {
    FlatMapMembers(vs, DetailOf);
  }

  /** A D2-D6 style result over the sorted registry items: `total` is the number of mappings. */
  function ItemsCheck(id: string, severity: Severity, mappings: Obj<string>, f: ((string, string)) -> Verdict): DocCheck
  {
    var vs := Verdicts(Items(mappings), f);
    DocCheck(id, severity, FailDetails(vs) == [], |mappings|, PassCount(vs), FailDetails(vs))
  }

  method CheckItems(id: string, severity: Severity, mappings: Obj<string>, f: ((string, string)) -> Verdict)
    returns (r: DocCheck)
    ensures r == ItemsCheck(id, severity, mappings, f)
  {
    var vs := Verdicts(Items(mappings), f);
    var okCount, details := TallyVerdicts(vs);
    r := DocCheck(id, severity, details == [], |mappings|, okCount, details);
  }

  /**
   * `total` is the number of mappings and `ok_count` never exceeds it; the
   * check fails iff some mapping fails, and the details are exactly the
   * failures of the mappings.
   */
  lemma ItemsCheckSpec(id: string, severity: Severity, mappings: Obj<string>, f: ((string, string)) -> Verdict)
    ensures var r := ItemsCheck(id, severity, mappings, f);
      && r.total == |mappings| && 0 <= r.okCount <= r.total
      && (r.passed <==> forall it :: it in mappings ==> !f(it).Fail?)
      && (forall d :: d in r.details <==> exists it :: it in mappings && f(it) == Fail(d))
  {
    var items := Items(mappings);
    var vs := Verdicts(items, f);
    ItemsSpec(mappings);
    VerdictCounts(vs);
    VerdictsOf(items, mappings, f);
  }

  /** Judging the items one by one gives the failures of the collection they enumerate. */
  lemma VerdictsOf<I>(items: seq<I>, xs: seq<I>, f: I -> Verdict)
    requires forall it :: it in items <==> it in xs
    ensures var ds := FailDetails(Verdicts(items, f));
      && (forall d :: d in ds <==> exists it :: it in xs && f(it) == Fail(d))
      && (ds == [] <==> forall it :: it in xs ==> !f(it).Fail?)
  {
    var vs := Verdicts(items, f);
    FailDetailsSpec(vs);
    forall d
      ensures (exists i :: 0 <= i < |vs| && vs[i] == Fail(d)) <==> exists it :: it in xs && f(it) == Fail(d)
    {
      if exists it :: it in xs && f(it) == Fail(d) {
        var it :| it in xs && f(it) == Fail(d);
        var i :| 0 <= i < |items| && items[i] == it;
        assert vs[i] == Fail(d);
      }
    }
    forall it | it in xs
      ensures f(it).Fail? ==> exists i :: 0 <= i < |vs| && vs[i].Fail?
    {
      var i :| 0 <= i < |items| && items[i] == it;
      assert vs[i] == f(it);
    }
  }

  // ---------------------------------------------------------------------------
  // D1: every source feature directory is registered

  /** `get_src_feature_dirs`, as a list of names. */
  function SrcDirNames(fs: DocsFs): seq<string>
  {
    if fs.srcListing.None? then []
    else FlatMap(fs.srcListing.value, (e: Entry) => if e.isDir && e.name !in Excluded then [e.name] else [])
  }

  /** `get_src_feature_dirs()`: the directories under `src/features` that are not excluded. */
  function SrcDirs(fs: DocsFs): set<string>
  {
    set n | n in SrcDirNames(fs)
  }

  function D1(fs: DocsFs, mappings: Obj<string>): DocCheck
  {
    var src := SrcDirs(fs);
    var missing := src - set k | k in Keys(mappings);
    var listed := UnregisteredDirs(fs, mappings);
    DocCheck("D1", Mvs, missing == {}, |src|, |src| - |missing|,
             seq(|listed|, i requires 0 <= i < |listed| => Unregistered(listed[i])))
  }

  /** `sorted(src_dirs - registered_src)`. */
  function UnregisteredDirs(fs: DocsFs, mappings: Obj<string>): seq<string>
  {
    SortedSet(Without(SrcDirNames(fs), Keys(mappings)), StrLt)
  }

  lemma UnregisteredDirsSpec(fs: DocsFs, mappings: Obj<string>)
    ensures var keys := set k | k in Keys(mappings);
      && |UnregisteredDirs(fs, mappings)| == |SrcDirs(fs) - keys|
      && (forall x :: x in UnregisteredDirs(fs, mappings) <==> x in SrcDirs(fs) - keys)
      && StrictlySorted(UnregisteredDirs(fs, mappings), StrLt)
  {
    var keys := set k | k in Keys(mappings);
    var listed := UnregisteredDirs(fs, mappings);
    StrLtIsOrder();
    SortedSetSpec(Without(SrcDirNames(fs), Keys(mappings)), StrLt);
    assert (set x | x in listed) == SrcDirs(fs) - keys;
    forall i, j | 0 <= i < j < |listed|
      ensures listed[i] != listed[j]
    {
      if listed[i] == listed[j] {
        StrLtIrreflexive(listed[i]);
      }
    }
    DistinctCard(listed);
  }

  lemma SplitCard<T>(a: set<T>, b: set<T>)
    ensures |a| == |a - b| + |a * b|
  {
    assert a == (a - b) + (a * b);
  }

  /**
   * D1 fails iff some source directory is unregistered; `ok_count` is the
   * number of registered source directories, and the details name each
   * unregistered directory once, in increasing order.
   */
  lemma D1Spec(fs: DocsFs, mappings: Obj<string>)
    ensures var r := D1(fs, mappings);
      var keys := set k | k in Keys(mappings);
      && r.total == |SrcDirs(fs)|
      && (r.passed <==> SrcDirs(fs) <= keys)
      && r.okCount == |SrcDirs(fs) * keys|
      && |r.details| == |SrcDirs(fs) - keys|
      && (forall i :: 0 <= i < |r.details| ==> r.details[i].Unregistered? && r.details[i].srcDir in SrcDirs(fs) - keys)
      && (forall i, j :: 0 <= i < j < |r.details| ==> StrLt(r.details[i].srcDir, r.details[j].srcDir))
  {
    var keys := set k | k in Keys(mappings);
    var listed := UnregisteredDirs(fs, mappings);
    UnregisteredDirsSpec(fs, mappings);
    SplitCard(SrcDirs(fs), keys);
    UnregisteredDetails(listed, SrcDirs(fs) - keys, D1(fs, mappings).details);
  }

  /** One `Unregistered` detail per listed directory, in the listed order. */
  lemma UnregisteredDetails(listed: seq<string>, missing: set<string>, details: seq<DocDetail>)
    requires |listed| == |missing| && StrictlySorted(listed, StrLt) && forall x :: x in listed <==> x in missing
    requires details == seq(|listed|, i requires 0 <= i < |listed| => Unregistered(listed[i]))
    ensures |details| == |missing|
    ensures forall i :: 0 <= i < |details| ==> details[i].Unregistered? && details[i].srcDir in missing
    ensures forall i, j :: 0 <= i < j < |details| ==> StrLt(details[i].srcDir, details[j].srcDir)
  {
    forall i | 0 <= i < |details|
      ensures details[i].srcDir in missing
    {
      assert listed[i] in listed;
    }
  }

  // ---------------------------------------------------------------------------
  // D2: the documentation directory exists

  function D2Of(fs: DocsFs): ((string, string)) -> Verdict
  {
    (it: (string, string)) => if it.1 in fs.docDirs then Pass else Fail(DocDirMissing(it.1, it.0))
  }

  function D2(fs: DocsFs, mappings: Obj<string>): DocCheck
  {
    ItemsCheck("D2", Mvs, mappings, D2Of(fs))
  }

  /** D2 passes iff every registered id names a directory; a plain file of that name does not count. */
  lemma D2Spec(fs: DocsFs, mappings: Obj<string>)
    ensures D2(fs, mappings).passed <==> forall it :: it in mappings ==> it.1 in fs.docDirs
    ensures 0 <= D2(fs, mappings).okCount <= D2(fs, mappings).total == |mappings|
  {
    ItemsCheckSpec("D2", Mvs, mappings, D2Of(fs));
  }

  // ---------------------------------------------------------------------------
  // D3: a SPEC file exists

  /** `SPEC-{number}-*.md` for a documentation id. */
  function SpecPattern(docId: string): string
  {
    "SPEC-" + BeforeFirstDash(docId) + "-*.md"
  }

  /** The name matches `SPEC-{number}-*.md`: the fixed prefix, then anything, then `.md`. */
  predicate MatchesSpec(docId: string, name: string)
  {
    var prefix := "SPEC-" + BeforeFirstDash(docId) + "-";
    |prefix| + 3 <= |name| && StartsWith(name, prefix) && EndsWith(name, ".md")
  }

  /** `doc_dir.glob(...)`, in listing order; empty when the path is not a directory. */
  function SpecFiles(fs: DocsFs, docId: string): seq<DocFile>
  {
    if docId !in fs.docDirs then []
    else FlatMap(fs.docDirs[docId], (f: DocFile) => if MatchesSpec(docId, f.name) then [f] else [])
  }

  lemma SpecFilesSpec(fs: DocsFs, docId: string)
    ensures forall f :: f in SpecFiles(fs, docId) <==> docId in fs.docDirs && f in fs.docDirs[docId] && MatchesSpec(docId, f.name)
  {
    if docId in fs.docDirs {
      FlatMapMembers(fs.docDirs[docId], (f: DocFile) => if MatchesSpec(docId, f.name) then [f] else []);
    }
  }

  predicate DocPathExists(fs: DocsFs, docId: string)
  {
    docId in fs.docDirs || docId in fs.docPlainFiles
  }

  function D3Of(fs: DocsFs): ((string, string)) -> Verdict
  {
    (it: (string, string)) =>
      if !DocPathExists(fs, it.1) then Fail(DocDirAbsent(it.1))
      else if SpecFiles(fs, it.1) != [] then Pass
      else Fail(SpecFileMissing(it.1, SpecPattern(it.1)))
  }

  function D3(fs: DocsFs, mappings: Obj<string>): DocCheck
  {
    ItemsCheck("D3", Mvs, mappings, D3Of(fs))
  }

  /** D3 passes iff every registered directory holds a file named `SPEC-{number}-*.md`. */
  lemma D3Spec(fs: DocsFs, mappings: Obj<string>)
    ensures D3(fs, mappings).passed <==>
      forall it :: it in mappings ==> it.1 in fs.docDirs && exists f :: f in fs.docDirs[it.1] && MatchesSpec(it.1, f.name)
    ensures 0 <= D3(fs, mappings).okCount <= D3(fs, mappings).total == |mappings|
  {
    ItemsCheckSpec("D3", Mvs, mappings, D3Of(fs));
    forall it | it in mappings
      ensures !D3Of(fs)(it).Fail? <==> it.1 in fs.docDirs && exists f :: f in fs.docDirs[it.1] && MatchesSpec(it.1, f.name)
    {
      SpecFilesSpec(fs, it.1);
      var sf := SpecFiles(fs, it.1);
      if sf != [] {
        assert sf[0] in sf;
      }
    }
  }

  // ---------------------------------------------------------------------------
  // D4: required CONTEXT.json fields

  /** Python truthiness. */
  predicate Truthy(v: JsonField)
  {
    match v
    case Missing => false
    case Null => false
    case Flag(b) => b
    case Number(x, _) => x != 0.0
    case Text(s) => s != ""
    case Other(t, _) => t
  }

  /** `len(str(why))` for `why = ctx.get("why", "")`. */
  function ShownLength(v: JsonField): nat
  {
    match v
    case Missing => 0
    case Null => 4
    case Flag(b) => if b then 4 else 5
    case Number(_, shown) => |shown|
    case Text(s) => |s|
    case Other(_, shown) => |shown|
  }

  /** `sv is None or (isinstance(sv, (int, float)) and sv < 6)`; a boolean is an `int` there. */
  predicate BadSchemaVersion(v: JsonField)
  {
    v.Missing? || v.Null? || v.Flag? || (v.Number? && v.value < 6.0)
  }

  /** The `errors` list of D4 for one parsed `CONTEXT.json`. */
  function FieldErrors(c: Context): seq<FieldError>
  {
    (if BadSchemaVersion(c.schemaVersion) then [SchemaVersionInvalid] else [])
    + (if !Truthy(c.featureId) then [FeatureIdMissing] else [])
    + (if !Truthy(c.title) then [TitleMissing] else [])
    + (if !Truthy(c.why) || ShownLength(c.why) < 10 then [WhyTooShort(ShownLength(c.why))] else [])
  }

  /**
   * A context has no field error iff its schema version is not absent, null,
   * boolean or a number below 6 (so a string passes), its feature id and
   * title are truthy, and its `why` is truthy with a text of 10 characters or
   * more; the errors keep that order.
   */
  lemma FieldErrorsSpec(c: Context)
    ensures FieldErrors(c) == [] <==>
      !BadSchemaVersion(c.schemaVersion) && Truthy(c.featureId) && Truthy(c.title) && Truthy(c.why) && ShownLength(c.why) >= 10
    ensures c.schemaVersion.Text? || c.schemaVersion.Other? ==> SchemaVersionInvalid !in FieldErrors(c)
    ensures c.why.Text? && |c.why.s| < 10 ==> WhyTooShort(|c.why.s|) in FieldErrors(c)
    ensures forall i, j :: 0 <= i < j < |FieldErrors(c)| ==> FieldRank(FieldErrors(c)[i]) < FieldRank(FieldErrors(c)[j])
  {
  }

  /** The position of each rule in the source. */
  function FieldRank(e: FieldError): nat
  {
    match e
    case SchemaVersionInvalid => 0
    case FeatureIdMissing => 1
    case TitleMissing => 2
    case WhyTooShort(_) => 3
  }

  function D4Of(fs: DocsFs): ((string, string)) -> Verdict
  {
    (it: (string, string)) =>
      if it.1 !in fs.contexts then Fail(ContextMissing(it.1))
      else if fs.contexts[it.1].Unparsable? then Fail(ContextUnparsable(it.1))
      else if FieldErrors(fs.contexts[it.1].ctx) == [] then Pass
      else Fail(ContextFieldErrors(it.1, FieldErrors(fs.contexts[it.1].ctx)))
  }

  function D4(fs: DocsFs, mappings: Obj<string>): DocCheck
  {
    ItemsCheck("D4", Mvs, mappings, D4Of(fs))
  }

  /** D4 passes iff every registered id has a parsable `CONTEXT.json` without field errors. */
  lemma D4Spec(fs: DocsFs, mappings: Obj<string>)
    ensures D4(fs, mappings).passed <==>
      forall it :: it in mappings ==> it.1 in fs.contexts && fs.contexts[it.1].Parsed? && FieldErrors(fs.contexts[it.1].ctx) == []
    ensures 0 <= D4(fs, mappings).okCount <= D4(fs, mappings).total == |mappings|
  {
    ItemsCheckSpec("D4", Mvs, mappings, D4Of(fs));
  }

  // ---------------------------------------------------------------------------
  // D5: index.md mentions every registered id

  /** The entry counts as referenced when the index contains the id or its number. */
  predicate Referenced(index: string, docId: string)
  {
    Contains(index, docId) || Contains(index, BeforeFirstDash(docId))
  }

  function D5Of(index: string): ((string, string)) -> Verdict
  {
    (it: (string, string)) => if Referenced(index, it.1) then Pass else Fail(NotInIndex(it.1, BeforeFirstDash(it.1)))
  }

  function D5(fs: DocsFs, mappings: Obj<string>): DocCheck
  {
    if fs.index.None? then DocCheck("D5", Mvs, false, |mappings|, 0, [IndexMissing])
    else ItemsCheck("D5", Mvs, mappings, D5Of(fs.index.value))
  }

  method CheckD5(fs: DocsFs, mappings: Obj<string>) returns (r: DocCheck)
    ensures r == D5(fs, mappings)
  {
    if fs.index.None? {
      r := DocCheck("D5", Mvs, false, |mappings|, 0, [IndexMissing]);
      return;
    }
    r := CheckItems("D5", Mvs, mappings, D5Of(fs.index.value));
  }

  /**
   * Without an index D5 fails with a single detail; with one it passes iff
   * every registered id, or the number before its first '-', occurs in it.
   */
  lemma D5Spec(fs: DocsFs, mappings: Obj<string>)
    ensures fs.index.None? ==> !D5(fs, mappings).passed && D5(fs, mappings).details == [IndexMissing]
    ensures fs.index.Some? ==>
      (D5(fs, mappings).passed <==> forall it :: it in mappings ==> Referenced(fs.index.value, it.1))
    ensures 0 <= D5(fs, mappings).okCount <= D5(fs, mappings).total == |mappings|
  {
    if fs.index.Some? {
      ItemsCheckSpec("D5", Mvs, mappings, D5Of(fs.index.value));
    }
  }

  /** An id that starts with a number the index mentions is referenced, whatever its title part. */
  lemma NumberAloneReferences(index: string, number: string, rest: string)
    requires Contains(index, number) && '-' !in number
    ensures Referenced(index, number + "-" + rest)
  {
    var id := number + "-" + rest;
    assert id == number + ("-" + rest);
    BeforeFirstDashOfPrefix(number, "-" + rest);
  }

  lemma BeforeFirstDashOfPrefix(a: string, b: string)
    requires '-' !in a && b != [] && b[0] == '-'
    ensures BeforeFirstDash(a + b) == a
  {
    assert (a + b)[..|a|] == a;
  }

  // ---------------------------------------------------------------------------
  // D6: SPEC headings

  /** Every character is whitespace in the sense of Python's `\s`. */
  predicate AllSpace(t: string)
  {
    forall k :: 0 <= k < |t| ==> IsPySpace(t[k])
  }

  /** `##`, one or more whitespace characters, the digit `d` and a full stop, starting at `i`. */
  predicate HeadingAt(s: string, i: nat, d: char)
  {
    i + 2 <= |s| && s[i] == '#' && s[i + 1] == '#'
    && exists j :: i + 2 < j && j + 2 <= |s| && s[j] == d && s[j + 1] == '.' && AllSpace(s[i + 2..j])
  }

  /** `re.search(rf"^##\s+{n}\.", s, re.MULTILINE)` finds a match: at the start or after a newline. */
  predicate HasHeading(s: string, d: char)
  {
    exists i: nat :: i < |s| && (i == 0 || s[i - 1] == '\n') && HeadingAt(s, i, d)
  }

  /** The sections among 0, 1 and 2 whose heading is missing, in that order. */
  function MissingSections(s: string): seq<nat>
  {
    (if HasHeading(s, '0') then [] else [0]) + (if HasHeading(s, '1') then [] else [1])
    + (if HasHeading(s, '2') then [] else [2])
  }

  /** A section is listed iff its heading is missing, each at most once and in ascending order. */
  lemma MissingSectionsSpec(s: string)
    ensures 0 in MissingSections(s) <==> !HasHeading(s, '0')
    ensures 1 in MissingSections(s) <==> !HasHeading(s, '1')
    ensures 2 in MissingSections(s) <==> !HasHeading(s, '2')
    ensures forall n :: n in MissingSections(s) ==> n <= 2
    ensures forall i, j :: 0 <= i < j < |MissingSections(s)| ==> MissingSections(s)[i] < MissingSections(s)[j]
    ensures MissingSections(s) == [] <==> HasHeading(s, '0') && HasHeading(s, '1') && HasHeading(s, '2')
  {
  }

  /** A heading written `## d.` at the start of a line is found. */
  lemma HeadingLine(s: string, p: nat, d: char)
    requires p + 5 <= |s| && (p == 0 || s[p - 1] == '\n')
    requires s[p] == '#' && s[p + 1] == '#' && s[p + 2] == ' ' && s[p + 3] == d && s[p + 4] == '.'
    ensures HasHeading(s, d)
  {
    assert AllSpace(s[p + 2..p + 3]) by {
      assert s[p + 2..p + 3] == [s[p + 2]];
    }
    assert HeadingAt(s, p, d);
  }

  /** Three lines opening with `## 0.`, `## 1.` and `## 2.`: a SPEC made of them has no missing section. */
  lemma HeadingsFound(l0: string, l1: string, l2: string)
    requires OpensHeading(l0, '0') && OpensHeading(l1, '1') && OpensHeading(l2, '2')
    requires l0[|l0| - 1] == '\n' && l1[|l1| - 1] == '\n'
    ensures MissingSections(l0 + l1 + l2) == []
  {
    var s := l0 + l1 + l2;
    assert HasHeading(s, '0') by {
      HeadingIn([], l0, l1 + l2, s, '0');
    }
    assert HasHeading(s, '1') by {
      HeadingIn(l0, l1, l2, s, '1');
    }
    assert HasHeading(s, '2') by {
      HeadingIn(l0 + l1, l2, [], s, '2');
    }
  }

  /** The line starts with `## d.`. */
  predicate OpensHeading(line: string, d: char)
  {
    |line| >= 5 && line[0] == '#' && line[1] == '#' && line[2] == ' ' && line[3] == d && line[4] == '.'
  }

  /** A line `## d.…` between two pieces, the first ending a line, is found. */
  lemma HeadingIn(pre: string, line: string, post: string, s: string, d: char)
    requires pre == [] || pre[|pre| - 1] == '\n'
    requires OpensHeading(line, d) && s == pre + line + post
    ensures HasHeading(s, d)
  {
    HeadingLine(s, |pre|, d);
  }

  function D6Of(fs: DocsFs): ((string, string)) -> Verdict
  {
    (it: (string, string)) =>
      if !DocPathExists(fs, it.1) || SpecFiles(fs, it.1) == [] then Skip
      else if MissingSections(SpecFiles(fs, it.1)[0].content) == [] then Pass
      else Fail(SectionsMissing(it.1, MissingSections(SpecFiles(fs, it.1)[0].content)))
  }

  function D6(fs: DocsFs, mappings: Obj<string>): DocCheck
  {
    ItemsCheck("D6", Tier, mappings, D6Of(fs))
  }

  /**
   * D6 passes iff the first SPEC file of every registered directory that has
   * one carries the three headings; a directory without a SPEC file is not
   * checked here.
   */
  lemma D6Spec(fs: DocsFs, mappings: Obj<string>)
    ensures D6(fs, mappings).passed <==>
      forall it :: it in mappings && SpecFiles(fs, it.1) != [] ==>
        HasHeading(SpecFiles(fs, it.1)[0].content, '0') && HasHeading(SpecFiles(fs, it.1)[0].content, '1')
        && HasHeading(SpecFiles(fs, it.1)[0].content, '2')
    ensures 0 <= D6(fs, mappings).okCount <= D6(fs, mappings).total == |mappings|
  {
    ItemsCheckSpec("D6", Tier, mappings, D6Of(fs));
    forall it | it in mappings && SpecFiles(fs, it.1) != []
      ensures DocPathExists(fs, it.1)
    {
      assert it.1 in fs.docDirs;
    }
    forall it | it in mappings && SpecFiles(fs, it.1) != []
      ensures MissingSections(SpecFiles(fs, it.1)[0].content) == [] <==>
        HasHeading(SpecFiles(fs, it.1)[0].content, '0') && HasHeading(SpecFiles(fs, it.1)[0].content, '1')
        && HasHeading(SpecFiles(fs, it.1)[0].content, '2')
    {
      MissingSectionsSpec(SpecFiles(fs, it.1)[0].content);
    }
  }

  // ---------------------------------------------------------------------------
  // D7: related code paths exist

  function RefPaths(refs: seq<CodeRef>): seq<string>
  {
    FlatMap(refs, (r: CodeRef) => if r.PathRef? then [r.path] else [])
  }

  /** The string paths of `related_code`: the list categories of an object in order, or a flat list. */
  function RelatedPaths(rc: RelatedCode): seq<string>
  {
    match rc
    case RelatedDict(cats) => FlatMap(cats, (c: Category) => if c.ListCategory? then RefPaths(c.refs) else [])
    case RelatedList(refs) => RefPaths(refs)
    case RelatedOther => []
  }

  /** One verdict per string path of a parsed `CONTEXT.json`; nothing for a missing or unparsable one. */
  function D7Of(fs: DocsFs): ((string, string)) -> seq<Verdict>
  {
    (it: (string, string)) =>
      if it.1 !in fs.contexts || fs.contexts[it.1].Unparsable? then []
      else Verdicts(RelatedPaths(fs.contexts[it.1].ctx.relatedCode),
                    (p: string) => if p in fs.projectPaths then Pass else Fail(RelatedPathMissing(it.1, p)))
  }

  function D7(fs: DocsFs, mappings: Obj<string>): DocCheck
  {
    var vs := FlatMap(Items(mappings), D7Of(fs));
    DocCheck("D7", Tier, FailDetails(vs) == [], |vs|, PassCount(vs), FailDetails(vs))
  }

  method CheckD7(fs: DocsFs, mappings: Obj<string>) returns (r: DocCheck)
    ensures r == D7(fs, mappings)
  {
    var vs := FlatMap(Items(mappings), D7Of(fs));
    var validPaths, details := TallyVerdicts(vs);
    r := DocCheck("D7", Tier, details == [], |vs|, validPaths, details);
  }

  /**
   * `total` counts every string path checked and each path is valid or
   * reported, never both; D7 passes iff every checked path exists.
   */
  lemma D7Spec(fs: DocsFs, mappings: Obj<string>)
    ensures var r := D7(fs, mappings);
      var vs := FlatMap(Items(mappings), D7Of(fs));
      && r.total == |vs| && r.okCount + |r.details| == r.total
      && (r.passed <==> forall i :: 0 <= i < |vs| ==> vs[i] == Pass)
  {
    var vs := FlatMap(Items(mappings), D7Of(fs));
    FlatMapMembers(Items(mappings), D7Of(fs));
    forall i | 0 <= i < |vs|
      ensures !vs[i].Skip?
    {
      assert vs[i] in vs;
    }
    VerdictCounts(vs);
    FailDetailsSpec(vs);
  }

  // ---------------------------------------------------------------------------
  // D8: orphan documentation directories

  /** `re.match(r"^\d{3}-", name)`. */
  predicate NumberedName(name: string)
  {
    |name| >= 4 && IsAsciiDigit(name[0]) && IsAsciiDigit(name[1]) && IsAsciiDigit(name[2]) && name[3] == '-'
  }

  function OrphanOf(registered: set<string>): Entry -> seq<string>
  {
    (e: Entry) => if e.isDir && e.name !in Excluded && NumberedName(e.name) && e.name !in registered then [e.name] else []
  }

  /** The loop of `d8_orphan_spec_detection` collecting `orphans`. */
  method CollectOrphans(listing: seq<Entry>, registered: set<string>) returns (orphans: seq<string>)
    ensures orphans == FlatMap(listing, OrphanOf(registered))
  {
    orphans := [];
    var i := 0;
    while i < |listing|
      invariant 0 <= i <= |listing|
      invariant orphans == FlatMap(listing[..i], OrphanOf(registered))
    {
      FlatMapSnoc(listing, OrphanOf(registered), i);
      var d := listing[i];
      if d.isDir && d.name !in Excluded && NumberedName(d.name) && d.name !in registered {
        orphans := orphans + [d.name];
      }
      i := i + 1;
    }
    assert listing[..i] == listing;
  }

  function D8(fs: DocsFs, mappings: Obj<string>): DocCheck
  {
    var registered := set v | v in Values(mappings);
    if fs.docsListing.None? then DocCheck("D8", Warning, true, 0, 0, [])
    else
      var orphans := FlatMap(fs.docsListing.value, OrphanOf(registered));
      var total := |orphans| + |registered|;
      DocCheck("D8", Warning, orphans == [], total, total - |orphans|, OrphanDetails(orphans))
  }

  /** `for d in sorted(orphans)`: one detail per orphan, in increasing order. */
  function OrphanDetails(orphans: seq<string>): seq<DocDetail>
  {
    var listed := Sort(orphans, StrLt);
    seq(|listed|, i requires 0 <= i < |listed| => Orphan(listed[i]))
  }

  lemma OrphanDetailsSpec(orphans: seq<string>)
    ensures |OrphanDetails(orphans)| == |orphans|
    ensures forall i :: 0 <= i < |OrphanDetails(orphans)| ==> OrphanDetails(orphans)[i].Orphan?
    ensures forall d :: Orphan(d) in OrphanDetails(orphans) <==> d in orphans
    ensures forall i, j :: 0 <= i < j < |OrphanDetails(orphans)| ==>
      !StrLt(OrphanDetails(orphans)[j].dir, OrphanDetails(orphans)[i].dir)
  {
    var listed := Sort(orphans, StrLt);
    var r := OrphanDetails(orphans);
    StrLtIsOrder();
    SortLength(orphans, StrLt);
    SortSpec(orphans, StrLt);
    forall d
      ensures Orphan(d) in r <==> d in orphans
    {
      if Orphan(d) in r {
        var i :| 0 <= i < |r| && r[i] == Orphan(d);
        assert listed[i] == d;
      }
      if d in orphans {
        var i :| 0 <= i < |listed| && listed[i] == d;
        assert r[i] == Orphan(d);
      }
    }
  }

  /** The orphans are the listed numbered directories, not excluded, that no mapping points to. */
  lemma OrphansSpec(listing: seq<Entry>, registered: set<string>)
    ensures forall d :: d in FlatMap(listing, OrphanOf(registered)) <==>
      Entry(d, true) in listing && d !in Excluded && NumberedName(d) && d !in registered
  {
    var orphans := FlatMap(listing, OrphanOf(registered));
    FlatMapMembers(listing, OrphanOf(registered));
    forall d
      ensures d in orphans <==> Entry(d, true) in listing && d !in Excluded && NumberedName(d) && d !in registered
    {
      if d in orphans {
        var i :| 0 <= i < |listing| && d in OrphanOf(registered)(listing[i]);
        assert listing[i] == Entry(d, true);
      }
      if Entry(d, true) in listing && d !in Excluded && NumberedName(d) && d !in registered {
        var i :| 0 <= i < |listing| && listing[i] == Entry(d, true);
        assert d in OrphanOf(registered)(listing[i]);
      }
    }
  }

  method CheckD8(fs: DocsFs, mappings: Obj<string>) returns (r: DocCheck)
    ensures r == D8(fs, mappings)
  {
    var registered := set v | v in Values(mappings);
    if fs.docsListing.None? {
      r := DocCheck("D8", Warning, true, 0, 0, []);
      return;
    }
    var orphans := CollectOrphans(fs.docsListing.value, registered);
    var total := |orphans| + |registered|;
    r := DocCheck("D8", Warning, orphans == [], total, total - |orphans|, OrphanDetails(orphans));
  }

  /**
   * An orphan is a listed directory, not excluded, named with three digits and
   * '-', that no mapping points to; `ok_count` is the number of distinct
   * registered ids, and the details name the orphans in increasing order.
   */
  lemma D8Spec(fs: DocsFs, mappings: Obj<string>)
    requires fs.docsListing.Some?
    ensures var r := D8(fs, mappings);
      var registered := set v | v in Values(mappings);
      && r.okCount == |registered|
      && (forall i :: 0 <= i < |r.details| ==> r.details[i].Orphan?)
      && (forall d :: Orphan(d) in r.details <==>
            Entry(d, true) in fs.docsListing.value && d !in Excluded && NumberedName(d) && d !in registered)
      && (forall i, j :: 0 <= i < j < |r.details| ==> !StrLt(r.details[j].dir, r.details[i].dir))
      && (r.passed <==> r.details == [])
  {
    var registered := set v | v in Values(mappings);
    var orphans := FlatMap(fs.docsListing.value, OrphanOf(registered));
    OrphanDetailsSpec(orphans);
    OrphansSpec(fs.docsListing.value, registered);
  }

  // ---------------------------------------------------------------------------
  // run_all_checks

  function AllChecks(fs: DocsFs, mappings: Obj<string>): (cs: seq<DocCheck>)
    ensures |cs| == 8
  {
    [D1(fs, mappings), D2(fs, mappings), D3(fs, mappings), D4(fs, mappings),
     D5(fs, mappings), D6(fs, mappings), D7(fs, mappings), D8(fs, mappings)]
  }

  function Outcomes(cs: seq<DocCheck>): (os: seq<Outcome>)
    ensures |os| == |cs| && forall i :: 0 <= i < |cs| ==> os[i] == Outcome(cs[i].severity, cs[i].passed)
  {
    seq(|cs|, i requires 0 <= i < |cs| => Outcome(cs[i].severity, cs[i].passed))
  }

  datatype DocsReport = DocsReport(results: seq<DocCheck>, counts: Counts)

  /** `run_all_checks`: the eight results in order, and the failures tallied by severity. */
  method RunAllChecks(fs: DocsFs, mappings: Obj<string>) returns (report: DocsReport)
    ensures report.results == AllChecks(fs, mappings)
    ensures report.counts == Tally(Outcomes(report.results))
  {
    var d2 := CheckItems("D2", Mvs, mappings, D2Of(fs));
    var d3 := CheckItems("D3", Mvs, mappings, D3Of(fs));
    var d4 := CheckItems("D4", Mvs, mappings, D4Of(fs));
    var d5 := CheckD5(fs, mappings);
    var d6 := CheckItems("D6", Tier, mappings, D6Of(fs));
    var d7 := CheckD7(fs, mappings);
    var d8 := CheckD8(fs, mappings);
    var checks := [D1(fs, mappings), d2, d3, d4, d5, d6, d7, d8];
    var counts := TallyFailures(Outcomes(checks));
    report := DocsReport(checks, counts);
  }

  /** The severities of eight checks, read back by position. */
  lemma SeverityTable(c1: DocCheck, c2: DocCheck, c3: DocCheck, c4: DocCheck, c5: DocCheck, c6: DocCheck,
                      c7: DocCheck, c8: DocCheck)
    requires c1.severity == c2.severity == c3.severity == c4.severity == c5.severity == Mvs
    requires c6.severity == c7.severity == Tier && c8.severity == Warning
    ensures var cs := [c1, c2, c3, c4, c5, c6, c7, c8];
      && (forall i :: 0 <= i < 5 ==> cs[i].severity == Mvs)
      && (forall i :: 5 <= i < 7 ==> cs[i].severity == Tier)
      && cs[7].severity == Warning
  {
  }

  /**
   * The exit code of the docs validator: 1 iff one of D1-D5 fails, 2 iff
   * those pass and D6 or D7 fails, 0 iff D1-D7 pass; D8 never matters.
   */
  lemma ExitCodeOfChecks(fs: DocsFs, mappings: Obj<string>)
    ensures var cs := AllChecks(fs, mappings);
      var code := ExitCode(Tally(Outcomes(cs)));
      && (code == 1 <==> exists i :: 0 <= i < 5 && !cs[i].passed)
      && (code == 2 <==> (forall i :: 0 <= i < 5 ==> cs[i].passed) && exists i :: 5 <= i < 7 && !cs[i].passed)
      && (code == 0 <==> forall i :: 0 <= i < 7 ==> cs[i].passed)
  {
    AllChecksSeverities(fs, mappings);
    ExitCodeBySeverity(AllChecks(fs, mappings));
  }

  lemma AllChecksSeverities(fs: DocsFs, mappings: Obj<string>)
    ensures var cs := AllChecks(fs, mappings);
      && (forall i :: 0 <= i < 5 ==> cs[i].severity == Mvs)
      && (forall i :: 5 <= i < 7 ==> cs[i].severity == Tier)
      && cs[7].severity == Warning
  {
    assert D1(fs, mappings).severity == D2(fs, mappings).severity == D3(fs, mappings).severity == Mvs;
    assert D4(fs, mappings).severity == D5(fs, mappings).severity == Mvs;
    assert D6(fs, mappings).severity == D7(fs, mappings).severity == Tier && D8(fs, mappings).severity == Warning;
    SeverityTable(D1(fs, mappings), D2(fs, mappings), D3(fs, mappings), D4(fs, mappings),
                  D5(fs, mappings), D6(fs, mappings), D7(fs, mappings), D8(fs, mappings));
  }

  lemma ExitCodeBySeverity(cs: seq<DocCheck>)
    requires |cs| == 8
    requires forall i :: 0 <= i < 5 ==> cs[i].severity == Mvs
    requires forall i :: 5 <= i < 7 ==> cs[i].severity == Tier
    requires cs[7].severity == Warning
    ensures var code := ExitCode(Tally(Outcomes(cs)));
      && (code == 1 <==> exists i :: 0 <= i < 5 && !cs[i].passed)
      && (code == 2 <==> (forall i :: 0 <= i < 5 ==> cs[i].passed) && exists i :: 5 <= i < 7 && !cs[i].passed)
      && (code == 0 <==> forall i :: 0 <= i < 7 ==> cs[i].passed)
  {
    ExitCodeOfOutcomes(Outcomes(cs));
  }

  /** `main`: exit 1 when `feature-registry.json` cannot be loaded, otherwise the report's exit code. */
  function MainExitCode(registry: Option<Obj<string>>, fs: DocsFs): int
  {
    if registry.None? then 1 else ExitCode(Tally(Outcomes(AllChecks(fs, registry.value))))
  }

  /** The command exits 0 only when the registry loads and D1-D7 pass, and 1 whenever the registry is missing. */
  lemma MainExitCodeSpec(registry: Option<Obj<string>>, fs: DocsFs)
    ensures registry.None? ==> MainExitCode(registry, fs) == 1
    ensures MainExitCode(registry, fs) == 0 <==>
      registry.Some? && forall i :: 0 <= i < 7 ==> AllChecks(fs, registry.value)[i].passed
    ensures MainExitCode(registry, fs) in {0, 1, 2}
  {
    if registry.Some? {
      ExitCodeOfChecks(fs, registry.value);
    }
  }
}
