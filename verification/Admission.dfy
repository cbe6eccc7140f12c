/** Observe, then admit: a create request is carried out only if looking again gives the
    same revision, arguments and execution. A revision is a digest of the bytes of canonical
    text and is taken to be collision-free on bytes; the names of record fields are stand-ins. */
module Admission {
  import opened Basics
  import Utf8
  import opened Utf16
  import opened CanonicalJson
  import opened Placement

  // ----- records as JSON

  /** The name of the i-th field of a record. */
  function FieldName(i: nat): (t: Text)
    ensures |t| == i + 1
  {
    if i == 0 then [97] else FieldName(i - 1) + [97]
  }
  /** A record with some of its fields present. */
  function RecordFrom(values: seq<Option<Json>>, i: nat): Fields<Json>
    decreases |values|
  {
    if values == [] then NoFields
    else if values[0].None? then RecordFrom(values[1..], i + 1)
    else Field(FieldName(i), values[0].value, RecordFrom(values[1..], i + 1))
  }
  function RecordOf(values: seq<Option<Json>>): Json { Object(RecordFrom(values, 0)) }

  ghost predicate GoodValues(values: seq<Option<Json>>) { forall v | v in values && v.Some? :: WellFormed(v.value) }

  lemma {:induction false} RecordHas(values: seq<Option<Json>>, i: nat, j: nat)
    ensures Has(RecordFrom(values, i), FieldName(j)) <==> i <= j < i + |values| && values[j - i].Some?
    ensures Has(RecordFrom(values, i), FieldName(j)) ==> Get(RecordFrom(values, i), FieldName(j)) == values[j - i].value
    decreases |values|
  {
    if values != [] {
      RecordHas(values[1..], i + 1, j);
      if j == i { RecordHas(values[1..], i + 1, i); }
      assert FieldName(i) == FieldName(j) <==> i == j;
    }
  }
  lemma {:induction false} RecordGood(values: seq<Option<Json>>, i: nat)
    requires GoodValues(values)
    ensures Distinct(RecordFrom(values, i)) && FieldsWellFormed(RecordFrom(values, i))
    decreases |values|
  {
    if values != [] {
      assert values[0] in values && forall v | v in values[1..] :: v in values;
      RecordGood(values[1..], i + 1);
      RecordHas(values[1..], i + 1, i);
    }
  }
  /** Fields of equal records are equal. */
  lemma {:induction false} SameFields(a: Fields<Json>, b: Fields<Json>, k: Text)
    requires Distinct(a) && Distinct(b) && FieldsSame(a, b)
    ensures Has(a, k) <==> Has(b, k)
    ensures Has(a, k) ==> Same(Get(a, k), Get(b, k))
  {
    if a.Field? {
      DropKeeps(b, a.key, k);
      SameFields(a.rest, Drop(b, a.key), k);
    }
  }
  lemma SameRecords(v: seq<Option<Json>>, w: seq<Option<Json>>, j: nat)
    requires GoodValues(v) && GoodValues(w) && |v| == |w| && Same(RecordOf(v), RecordOf(w)) && j < |v|
    ensures v[j].Some? <==> w[j].Some?
    ensures v[j].Some? ==> Same(v[j].value, w[j].value)
  {
    RecordGood(v, 0);
    RecordGood(w, 0);
    SameFields(RecordFrom(v, 0), RecordFrom(w, 0), FieldName(j));
    RecordHas(v, 0, j);
    RecordHas(w, 0, j);
  }

  function Maybe(t: Option<Text>): Option<Json> { if t.Some? then Some(String(t.value)) else None }
  function Always(t: Text): Option<Json> { Some(String(t)) }

  /** Records of plain strings are equal exactly as lists. */
  function StringsJson(values: seq<Option<Text>>): Json { RecordOf(Lifted(values)) }
  function Lifted(values: seq<Option<Text>>): (r: seq<Option<Json>>)
    ensures |r| == |values| && GoodValues(r) && forall i | 0 <= i < |r| :: r[i] == Maybe(values[i])
  {
    if values == [] then []
    else
      var r := [Maybe(values[0])] + Lifted(values[1..]);
      assert forall i | 0 < i < |r| :: r[i] == Lifted(values[1..])[i - 1];
      r
  }
  lemma StringsSame(v: seq<Option<Text>>, w: seq<Option<Text>>)
    requires |v| == |w|
    ensures WellFormed(StringsJson(v))
    ensures Same(StringsJson(v), StringsJson(w)) <==> v == w
  {
    RecordGood(Lifted(v), 0);
    if Same(StringsJson(v), StringsJson(w)) {
      forall j | 0 <= j < |v| ensures v[j] == w[j] { SameRecords(Lifted(v), Lifted(w), j); }
    } else if v == w {
      NormalIffSame(StringsJson(v), StringsJson(w));
    }
  }

  // ----- what is observed

  datatype Project = Project(name: Text, path: Text, branch: Option<Text>)
  datatype WorktreeArgs = WorktreeArgs(project: Option<Text>, path: Option<Text>, name: Option<Text>,
                                       branch: Option<Text>, aiCommand: Text)
  datatype TerminalArgs = TerminalArgs(cwd: Text, title: Option<Text>)
  datatype WorktreeExecution = WorktreeExecution(repo: Text, project: Text, baseBranch: Text, rawName: Text,
                                                 display: Text, base: Text, path: Text, branch: Text)
  datatype TerminalExecution = TerminalExecution(cwd: Text, display: Text)
  datatype Evidence = Evidence(gitIdentity: Text, baseOid: Text)

  function ArgsList(a: WorktreeArgs): seq<Option<Text>> { [a.project, a.path, a.name, a.branch, Some(a.aiCommand)] }
  function ExecutionList(x: WorktreeExecution): seq<Option<Text>> {
    [Some(x.repo), Some(x.project), Some(x.baseBranch), Some(x.rawName), Some(x.display), Some(x.base), Some(x.path),
     Some(x.branch)]
  }
  function EvidenceList(e: Evidence): seq<Option<Text>> { [Some(e.gitIdentity), Some(e.baseOid)] }
  function ProjectList(p: Project): seq<Option<Text>> { [Some(p.name), Some(p.path), p.branch] }
  function TerminalArgsList(a: TerminalArgs): seq<Option<Text>> { [Some(a.cwd), a.title] }
  function TerminalList(x: TerminalExecution): seq<Option<Text>> { [Some(x.cwd), Some(x.display)] }

  datatype Revision = Revision(bytes: seq<Utf8.Byte>)

  /** Everything a worktree revision covers. */
  datatype WorktreeView = WorktreeView(config: Option<Project>, args: WorktreeArgs, execution: WorktreeExecution,
                                       evidence: Evidence)

  // "create_worktree" and "create_terminal", in short
  const WORKTREE: Text := [119]
  const TERMINAL: Text := [116]

  function ObservationParts(v: WorktreeView): (r: seq<Option<Json>>)
    ensures |r| == 4
  {
    [Always(WORKTREE), Some(StringsJson(ArgsList(v.args))), Some(StringsJson(ExecutionList(v.execution))),
     Some(StringsJson(EvidenceList(v.evidence)))]
  }
  function ConfigJson(config: Option<Project>): Json {
    if config.Some? then StringsJson(ProjectList(config.value)) else Null
  }
  function ViewParts(v: WorktreeView): (r: seq<Option<Json>>)
    ensures |r| == 2
  {
    [Some(ConfigJson(v.config)), Some(RecordOf(ObservationParts(v)))]
  }
  function WorktreeRevision(v: WorktreeView): Revision { Revision(Bytes(Print(RecordOf(ViewParts(v))))) }

  lemma ObservationGood(v: WorktreeView)
    ensures GoodValues(ObservationParts(v)) && WellFormed(RecordOf(ObservationParts(v)))
  {
    StringsSame(ArgsList(v.args), ArgsList(v.args));
    StringsSame(ExecutionList(v.execution), ExecutionList(v.execution));
    StringsSame(EvidenceList(v.evidence), EvidenceList(v.evidence));
    RecordGood(ObservationParts(v), 0);
  }
  lemma ViewGood(v: WorktreeView)
    ensures GoodValues(ViewParts(v)) && WellFormed(RecordOf(ViewParts(v)))
  {
    if v.config.Some? { StringsSame(ProjectList(v.config.value), ProjectList(v.config.value)); }
    ObservationGood(v);
    RecordGood(ViewParts(v), 0);
  }

  lemma ArgsFromList(a: WorktreeArgs, b: WorktreeArgs)
    requires ArgsList(a) == ArgsList(b)
    ensures a == b
  {
    var x, y := ArgsList(a), ArgsList(b);
    assert x[0] == y[0] && x[1] == y[1] && x[2] == y[2] && x[3] == y[3] && x[4] == y[4];
  }
  lemma ExecutionFromList(a: WorktreeExecution, b: WorktreeExecution)
    requires ExecutionList(a) == ExecutionList(b)
    ensures a == b
  {
    var x, y := ExecutionList(a), ExecutionList(b);
    assert x[0] == y[0] && x[1] == y[1] && x[2] == y[2] && x[3] == y[3] && x[4] == y[4] && x[5] == y[5] && x[6] == y[6] && x[7] == y[7];
  }
  lemma EvidenceFromList(a: Evidence, b: Evidence)
    requires EvidenceList(a) == EvidenceList(b)
    ensures a == b
  {
    var x, y := EvidenceList(a), EvidenceList(b);
    assert x[0] == y[0] && x[1] == y[1];
  }
  lemma ProjectFromList(a: Project, b: Project)
    requires ProjectList(a) == ProjectList(b)
    ensures a == b
  {
    var x, y := ProjectList(a), ProjectList(b);
    assert x[0] == y[0] && x[1] == y[1] && x[2] == y[2];
  }

  lemma SameConfig(a: Option<Project>, b: Option<Project>)
    requires Same(ConfigJson(a), ConfigJson(b))
    ensures a == b
  {
    if a.Some? && b.Some? {
      StringsSame(ProjectList(a.value), ProjectList(b.value));
      ProjectFromList(a.value, b.value);
    }
  }
  lemma SameObservations(v: WorktreeView, w: WorktreeView)
    requires Same(RecordOf(ObservationParts(v)), RecordOf(ObservationParts(w)))
    ensures v.args == w.args && v.execution == w.execution && v.evidence == w.evidence
  {
    ObservationGood(v);
    ObservationGood(w);
    SameRecords(ObservationParts(v), ObservationParts(w), 1);
    SameRecords(ObservationParts(v), ObservationParts(w), 2);
    SameRecords(ObservationParts(v), ObservationParts(w), 3);
    StringsSame(ArgsList(v.args), ArgsList(w.args));
    StringsSame(ExecutionList(v.execution), ExecutionList(w.execution));
    StringsSame(EvidenceList(v.evidence), EvidenceList(w.evidence));
    ArgsFromList(v.args, w.args);
    ExecutionFromList(v.execution, w.execution);
    EvidenceFromList(v.evidence, w.evidence);
  }
  lemma SameViews(v: WorktreeView, w: WorktreeView)
    requires Same(RecordOf(ViewParts(v)), RecordOf(ViewParts(w)))
    ensures v == w
  {
    ViewGood(v);
    ViewGood(w);
    SameRecords(ViewParts(v), ViewParts(w), 0);
    SameRecords(ViewParts(v), ViewParts(w), 1);
    SameConfig(v.config, w.config);
    SameObservations(v, w);
  }

  /** Two views have the same revision exactly if they are the same in every part. */
  lemma RevisionsEqualIffSame(v: WorktreeView, w: WorktreeView)
    ensures WorktreeRevision(v) == WorktreeRevision(w) <==> v == w
  {
    ViewGood(v);
    ViewGood(w);
    BytesEqualIffSame(RecordOf(ViewParts(v)), RecordOf(ViewParts(w)));
    if Same(RecordOf(ViewParts(v)), RecordOf(ViewParts(w))) { SameViews(v, w); }
  }

  // ----- observing

  /** What the outside answers while a worktree target is observed. */
  datatype Catalog = Catalog(projects: Text -> Option<Project>, directory: Text -> Option<Text>,
                             inWorkTree: Text -> bool,
                             gitIdentity: Text -> Option<Text>, defaultBranch: Text -> Text,
                             baseOid: (Text, Text) -> Option<Text>,
                             base: Option<seq<Text>>, lastName: Text -> Text)

  const DEFAULT_PROJECT: Text := [112, 114, 111, 106, 101, 99, 116]   // "project"
  const DEFAULT_TERMINAL: Text := [84, 101, 114, 109, 105, 110, 97, 108] // "Terminal"

  function OrElse(t: Option<Text>, otherwise: Text): Text { if t.Some? then t.value else otherwise }
  function NonEmpty(t: Text, otherwise: Text): Text { if t == [] then otherwise else t }

  /** The execution that the arguments and the catalog determine. */
  function Resolve(dp: Digest, db: Digest, a: WorktreeArgs, c: Catalog, repo: Text, config: Option<Project>,
                   base: seq<Text>): WorktreeExecution {
    var project := OrElse(a.project, NonEmpty(c.lastName(repo), DEFAULT_PROJECT));
    var branch := OrElse(a.branch, if config.Some? && config.value.branch.Some? then config.value.branch.value else c.defaultBranch(repo));
    var name := Cut(if a.name.Some? then project + [45] + a.name.value else project);
    WorktreeExecution(repo, project, branch, name, OrElse(a.name, project), Render(base),
                      Render(base + [ProjectSegment(dp, project), Branch(db, name)]), Branch(db, name))
  }
  /** The checks on a resolved execution. */
  predicate Accepted(dp: Digest, x: WorktreeExecution) {
    && Bounded(x.project, PROJECT_BYTES) && Bounded(x.baseBranch, BRANCH_BYTES) && Bounded(x.rawName, 128)
    && Bounded(x.display, 128)
    && Placement.Parse(x.base, x.path, x.branch) == Some(ProjectSegment(dp, x.project))
  }

  function ObserveWorktree(dp: Digest, db: Digest, a: WorktreeArgs, c: Catalog): Option<WorktreeView> {
    var config := if a.project.Some? then c.projects(a.project.value) else None;
    if config.None? && a.path.None? then None
    else
      var repo := c.directory(if a.path.Some? then a.path.value else config.value.path);
      if repo.None? || !c.inWorkTree(repo.value) || c.base.None? then None
      else
        var identity := c.gitIdentity(repo.value);
        var x := Resolve(dp, db, a, c, repo.value, config, c.base.value);
        var oid := c.baseOid(repo.value, x.baseBranch);
        if identity.None? || oid.None? || !Accepted(dp, x) then None
        else Some(WorktreeView(config, a, x, Evidence(identity.value, oid.value)))
  }

  // ----- admitting

  datatype Response = Stale | Executed(execution: WorktreeExecution, args: WorktreeArgs)

  /** Looks again and runs the mutation only on an exact match. */
  method AdmitWorktree(dp: Digest, db: Digest, a: WorktreeArgs, revision: Revision, frozen: WorktreeExecution,
                       c: Catalog) returns (r: Response)
    ensures r.Executed? <==>
      (ObserveWorktree(dp, db, a, c).Some? && var now := ObserveWorktree(dp, db, a, c).value; WorktreeRevision(now) == revision && now.execution == frozen)
    ensures r.Executed? ==> r.execution == frozen && r.args == a
  {
    var now := ObserveWorktree(dp, db, a, c);
    if now.None? { return Stale; }
    StringsSame(ArgsList(now.value.args), ArgsList(a));
    StringsSame(ExecutionList(now.value.execution), ExecutionList(frozen));
    StringsSame(ExecutionList(frozen), ExecutionList(frozen));
    StringsSame(ArgsList(a), ArgsList(a));
    PrintsEqualIffSame(StringsJson(ArgsList(now.value.args)), StringsJson(ArgsList(a)));
    PrintsEqualIffSame(StringsJson(ExecutionList(now.value.execution)), StringsJson(ExecutionList(frozen)));
    if WorktreeRevision(now.value) != revision
      || Print(StringsJson(ArgsList(now.value.args))) != Print(StringsJson(ArgsList(a)))
      || Print(StringsJson(ExecutionList(now.value.execution))) != Print(StringsJson(ExecutionList(frozen))) { return Stale; }
    ExecutionFromList(now.value.execution, frozen);
    return Executed(frozen, a);
  }

  /** When a request with the revision of an earlier observation is carried out, nothing
      that the observation covers has changed: the configured project, the repository's git
      identity, the base commit and the place are the ones that were seen. */
  lemma AdmittedUnchanged(dp: Digest, db: Digest, a0: WorktreeArgs, c0: Catalog, a: WorktreeArgs, c: Catalog)
    ensures var before, now := ObserveWorktree(dp, db, a0, c0), ObserveWorktree(dp, db, a, c);
      before.Some? && now.Some? && WorktreeRevision(before.value) == WorktreeRevision(now.value) ==>
        && a == a0 && now == before
        && (var x := now.value.execution; c.gitIdentity(x.repo) == c0.gitIdentity(x.repo) && c.baseOid(x.repo, x.baseBranch) == c0.baseOid(x.repo, x.baseBranch))
        && (a.project.Some? ==> c.projects(a.project.value) == c0.projects(a.project.value))
  {
    var before, now := ObserveWorktree(dp, db, a0, c0), ObserveWorktree(dp, db, a, c);
    if before.Some? && now.Some? { RevisionsEqualIffSame(before.value, now.value); }
  }

  /** An observed worktree goes below the base, in two safe segments. */
  lemma ObservedPlace(dp: Digest, db: Digest, a: WorktreeArgs, c: Catalog)
    requires DigestShape(dp) && DigestShape(db) && ObserveWorktree(dp, db, a, c).Some?
    ensures var x := ObserveWorktree(dp, db, a, c).value.execution;
      Safe(x.branch) && Segments(x.base).Some? && x.path == Render(Segments(x.base).value + [ProjectSegment(dp, x.project)] + [x.branch])
  {
    var x := ObserveWorktree(dp, db, a, c).value.execution;
    assert Accepted(dp, x) && x.branch == Branch(db, x.rawName);
    AcceptedPlace(dp, db, x);
  }
  lemma AcceptedPlace(dp: Digest, db: Digest, x: WorktreeExecution)
    requires DigestShape(db) && Accepted(dp, x) && x.branch == Branch(db, x.rawName)
    ensures Safe(x.branch) && Segments(x.base).Some?
      && x.path == Render(Segments(x.base).value + [ProjectSegment(dp, x.project)] + [x.branch])
  {
    ParsedIsClosed(x.base, x.path, x.branch);
    HashedIsSafe(db, x.rawName);
    NoSlash(x.branch);
  }

  // ----- terminals

  datatype TerminalView = TerminalView(args: TerminalArgs, execution: TerminalExecution)

  function TerminalParts(v: TerminalView): seq<Option<Json>> {
    [Always(TERMINAL), Some(StringsJson(TerminalArgsList(v.args))), Some(StringsJson(TerminalList(v.execution)))]
  }
  /** The revision covers the canonical form of the arguments. */
  function TerminalRevision(x: TerminalExecution): Revision {
    Revision(Bytes(Print(RecordOf([Some(RecordOf(TerminalParts(TerminalView(TerminalArgs(x.cwd, Some(x.display)),
                                                                            x))))]))))
  }

  /** How directories resolve, and the last name of a path. */
  datatype Places = Places(directory: Text -> Option<Text>, lastName: Text -> Text)

  predicate TitleFits(t: Text) { Bounded(t, 128) }
  /** What the request reader lets through. */
  predicate TerminalRequest(a: TerminalArgs) {
    Bounded(a.cwd, PATH_BYTES) && (a.title.Some? ==> TitleFits(a.title.value))
  }

  /** An absolute path that normalizing leaves as it is; a slash may follow. */
  predicate NormalPath(t: Text) {
    Bounded(t, PATH_BYTES) && (Segments(t).Some? || (|t| > 2 && t[|t| - 1] == SLASH && Segments(t[..|t| - 1]).Some?))
  }
  function DerivedTitle(a: TerminalArgs, p: Places, cwd: Text): Text {
    OrElse(a.title, NonEmpty(p.lastName(cwd), DEFAULT_TERMINAL))
  }

  function ObserveTerminal(a: TerminalArgs, p: Places): Option<TerminalView> {
    if !TerminalRequest(a) || p.directory(a.cwd).None? || !NormalPath(p.directory(a.cwd).value) then None
    else
      var cwd := p.directory(a.cwd).value;
      Some(TerminalView(a, TerminalExecution(cwd, DerivedTitle(a, p, cwd))))
  }

  lemma TerminalRevisionExact(x: TerminalExecution, y: TerminalExecution)
    ensures TerminalRevision(x) == TerminalRevision(y) <==> x == y
  {
    var v, w := TerminalView(TerminalArgs(x.cwd, Some(x.display)), x),
    TerminalView(TerminalArgs(y.cwd, Some(y.display)), y);
    StringsSame(TerminalArgsList(v.args), TerminalArgsList(w.args));
    StringsSame(TerminalArgsList(w.args), TerminalArgsList(w.args));
    StringsSame(TerminalList(x), TerminalList(y));
    StringsSame(TerminalList(y), TerminalList(y));
    var p, q := TerminalParts(v), TerminalParts(w);
    RecordGood(p, 0);
    RecordGood(q, 0);
    var pp, qq := [Some(RecordOf(p))], [Some(RecordOf(q))];
    RecordGood(pp, 0);
    RecordGood(qq, 0);
    BytesEqualIffSame(RecordOf(pp), RecordOf(qq));
    if TerminalRevision(x) == TerminalRevision(y) {
      SameRecords(pp, qq, 0);
      SameRecords(p, q, 2);
      var a, b := TerminalList(x), TerminalList(y);
      assert a[0] == b[0] && a[1] == b[1];
    }
  }

  /** What the reader of an admission lets through: an execution in canonical form whose title
      is derived from its own directory. */
  predicate AdmitRequest(a: TerminalArgs, frozen: TerminalExecution, p: Places) {
    TerminalRequest(a) && NormalPath(frozen.cwd) && TitleFits(frozen.display) && frozen.display == DerivedTitle(a, p, frozen.cwd)
  }
  /** The request is well formed, names the revision of its own execution, and its directory
      still resolves to the frozen one. */
  predicate Unchanged(a: TerminalArgs, revision: Revision, frozen: TerminalExecution, p: Places) {
    AdmitRequest(a, frozen, p) && p.directory(a.cwd) == Some(frozen.cwd) && revision == TerminalRevision(frozen)
  }

  datatype TerminalResponse = Malformed | Outdated | Opened(args: TerminalArgs)

  /** Looks again and opens the terminal only on an exact match. */
  method AdmitTerminal(a: TerminalArgs, revision: Revision, frozen: TerminalExecution,
                       p: Places) returns (r: TerminalResponse)
    ensures r.Malformed? <==> !AdmitRequest(a, frozen, p)
    ensures r.Opened? <==> Unchanged(a, revision, frozen, p)
    ensures r.Opened? ==> r.args == a
  {
    if !AdmitRequest(a, frozen, p) { return Malformed; }
    var now := ObserveTerminal(a, p);
    if now.None? { return Outdated; }
    var v := now.value;
    StringsSame(TerminalArgsList(v.args), TerminalArgsList(a));
    StringsSame(TerminalList(v.execution), TerminalList(frozen));
    StringsSame(TerminalList(frozen), TerminalList(frozen));
    PrintsEqualIffSame(StringsJson(TerminalArgsList(v.args)), StringsJson(TerminalArgsList(a)));
    PrintsEqualIffSame(StringsJson(TerminalList(v.execution)), StringsJson(TerminalList(frozen)));
    TerminalRevisionExact(v.execution, frozen);
    if TerminalRevision(v.execution) != revision
      || Print(StringsJson(TerminalArgsList(v.args))) != Print(StringsJson(TerminalArgsList(a)))
      || Print(StringsJson(TerminalList(v.execution))) != Print(StringsJson(TerminalList(frozen))) {
      assert v.execution == frozen ==> revision != TerminalRevision(frozen);
      return Outdated;
    }
    var x, y := TerminalList(v.execution), TerminalList(frozen);
    assert x[0] == y[0] && x[1] == y[1];
    return Opened(a);
  }

  /** A directory already in canonical form resolves to itself. */
  ghost predicate Settled(p: Places) {
    forall d | p.directory(d).Some? :: p.directory(p.directory(d).value) == p.directory(d)
  }

  /** What was observed can be admitted as long as nothing moves, with the arguments as given
      and in their canonical form (the resolved directory and the derived title) alike, exactly
      if the derived title is one a request may carry. */
  lemma CanonicalTerminalStable(a: TerminalArgs, p: Places)
    requires Settled(p) && ObserveTerminal(a, p).Some?
    ensures var x := ObserveTerminal(a, p).value.execution;
      && (Unchanged(a, TerminalRevision(x), x, p) <==> TitleFits(x.display))
      && (Unchanged(TerminalArgs(x.cwd, Some(x.display)), TerminalRevision(x), x, p) <==> TitleFits(x.display))
  {
    var x := ObserveTerminal(a, p).value.execution;
    assert p.directory(x.cwd) == Some(x.cwd);
  }

  // "/ a"
  const SPACED: Text := [SLASH, 32, 97]
  /** A file system with just this one directory below the root. */
  const ONE_PLACE: Places := Places((d: Text) => if d == SPACED then Some(SPACED) else None,
                                    (d: Text) => Split(d)[|Split(d)| - 1])

  lemma SpacedReads()
    ensures Segments(SPACED).Some? && Split(SPACED) == [[], SPACED[1..]]
  {
    var name: Text := SPACED[1..];
    assert name == [32, 97];
    SplitOne(name);
    SplitOne([]);
    SplitStep([], name);
    assert SPACED == [] + ([SLASH] + name);
    assert AllPathNames([name]);
  }

  /** It fails: a directory whose name begins with a space is observed, and the observation can be
      admitted in neither form. */
  lemma SpacedDirectoryFails()
    ensures var a := TerminalArgs(SPACED, None); var seen := ObserveTerminal(a, ONE_PLACE);
      && Settled(ONE_PLACE) && seen.Some?
      && (var x := seen.value.execution;
          !Unchanged(a, TerminalRevision(x), x, ONE_PLACE) && !Unchanged(TerminalArgs(x.cwd, Some(x.display)), TerminalRevision(x), x, ONE_PLACE))
  {
    SpacedReads();
    AsciiLength(SPACED);
    assert NormalPath(SPACED);
    var x := ObserveTerminal(TerminalArgs(SPACED, None), ONE_PLACE).value.execution;
    assert x.display == SPACED[1..] && x.display[0] == 32;
    CanonicalTerminalStable(TerminalArgs(SPACED, None), ONE_PLACE);
  }

  /** A terminal admitted under an earlier revision, in whatever form, opens in the directory
      and under the title that were observed. */
  lemma TerminalAdmittedUnchanged(a0: TerminalArgs, p0: Places, a: TerminalArgs, frozen: TerminalExecution, p: Places)
    requires ObserveTerminal(a0, p0).Some?
    requires Unchanged(a, TerminalRevision(ObserveTerminal(a0, p0).value.execution), frozen, p)
    ensures var x := ObserveTerminal(a0, p0).value.execution;
      frozen == x && p.directory(a.cwd) == p0.directory(a0.cwd) && DerivedTitle(a, p, x.cwd) == x.display
  {
    TerminalRevisionExact(ObserveTerminal(a0, p0).value.execution, frozen);
  }
}
