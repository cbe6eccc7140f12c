/** Creating and restoring managed sessions. A trace records what was attempted and what
    was seen, in order; everything the outside answers is a parameter. */
module Creation {
  import opened Basics
  import opened Utf16
  import opened Lifecycle
  import Placement

  datatype Event =
    | Fetched | MadeParent
    | AddedWorktree(repo: Text, branch: Text, path: Text, base: Text)         // git worktree add was attempted
    | Started(name: Name, cwd: Text, birth: Marker, correlation: Correlation) // tmux new-session was attempted
    | Wrote(record: Record)                                                   // the state write was attempted
    | Saw(live: seq<Entry>) | Read(records: seq<Record>)

  datatype Trace = Nothing | After(prev: Trace, event: Event)

  /** Neither git, nor tmux, nor the state file was asked to change anything. */
  predicate Inert(t: Trace) {
    t.After? ==> !t.event.AddedWorktree? && !t.event.Started? && !t.event.Wrote? && Inert(t.prev)
  }
  predicate Attempted(t: Trace, e: Event) { t.After? && (t.event == e || Attempted(t.prev, e)) }
  predicate NoWorktree(t: Trace) { t.After? ==> !t.event.AddedWorktree? && NoWorktree(t.prev) }
  /** One trace goes on from another, with no further worktree. */
  predicate Extends(t: Trace, before: Trace) {
    t == before || (t.After? && !t.event.AddedWorktree? && Extends(t.prev, before))
  }

  lemma {:induction false} ExtendsKeeps(t: Trace, before: Trace)
    requires Extends(t, before)
    ensures forall e | Attempted(before, e) :: Attempted(t, e)
    ensures Inert(t) ==> Inert(before)
    ensures NoWorktree(before) ==> NoWorktree(t)
  {
    if t != before { ExtendsKeeps(t.prev, before); }
  }

  // ----- errors

  /** An error says that nothing happened, or that something may have. */
  datatype Failure = Plain | Doubt
  datatype Outcome<+T> = Done(value: T) | Fails(error: Failure)

  /** Once tmux was asked, every error becomes doubt. */
  function AfterMutation<T>(o: Outcome<T>): Outcome<T> { if o.Fails? then Fails(Doubt) else o }

  datatype Response = Succeeded(item: Item) | Failed | InDoubt
  function CreateFailure(error: Failure): Response { if error.Doubt? then InDoubt else Failed }

  // ----- markers

  /** The markers a new session is to carry. */
  datatype Prepared = Prepared(birth: Marker, correlation: Correlation, title: Option<Text>)

  // "twbirth2."
  const BIRTH: Text := [116, 119, 98, 105, 114, 116, 104, 50, 46]
  predicate BirthShape(m: Marker) {
    |m| == 31 && m[..9] == BIRTH && forall u | u in m[9..] :: Placement.Alnum(u) || u == 95 || u == 45
  }
  // "null"
  const NULL: Text := [110, 117, 108, 108]
  function Base64Length(n: nat): nat { n / 3 * 4 + (if n % 3 == 0 then 0 else n % 3 + 1) }
  predicate CorrelationFits(c: Correlation) {
    0 < Base64Length(Placement.ByteLength(if c.reservation.Some? then c.reservation.value else NULL)) <= 4096
  }
  function Prepare(c: Correlation, title: Option<Text>, marker: Marker): Outcome<Prepared> {
    if title.Some? && !Placement.Bounded(title.value, 128) then Fails(Plain)
    else if !BirthShape(marker) then Fails(Plain)
    else if !CorrelationFits(c) then Fails(Plain)
    else Done(Prepared(marker, c, title))
  }

  function Starting(session: Name, cwd: Text, p: Prepared): Event {
    Event.Started(session, cwd, p.birth, p.correlation)
  }

  // ----- looking at the new session and its record

  /** The session of this name, if it carries exactly the prepared markers. */
  function Capture(session: Name, p: Prepared, live: Answer<seq<Entry>>): (r: Outcome<Extension>)
    ensures r.Done? ==> live.Got? && Shows(live.value, session, p, r.value) && r.value.title == p.title
  {
    if live.Threw? then Fails(Plain)
    else
      var e := FindEntry(live.value, session);
      if e.None? || !e.value.markersValid || e.value.identity.birth != Some(p.birth) || e.value.correlation != Some(p.correlation) then Fails(Doubt)
      else Done(Extension(e.value.identity, Incarnation(e.value.identity), p.correlation, p.title))
  }
  /** The listing shows the very session, marked as prepared. */
  predicate Shows(live: seq<Entry>, session: Name, p: Prepared, x: Extension) {
    var e := FindEntry(live, session);
    e.Some? && e.value.markersValid && e.value.identity == x.tmux && Incarnation(x.tmux) == x.incarnation
    && e.value.identity.birth == Some(p.birth) && e.value.correlation == Some(p.correlation)
    && x.correlation == p.correlation
  }
  predicate Stored(records: seq<Record>, session: Name, x: Extension) {
    var r := FindRecord(records, session);
    Authoritative(records) && r.Some? && r.value.extension.Some? && r.value.extension.value.incarnation == x.incarnation
  }
  /** Whether the state file has the record. */
  function WasCommitted(session: Name, x: Extension, state: Answer<seq<Record>>): Outcome<bool> {
    if state.Threw? || !Authoritative(state.value) then Fails(Plain) else Done(Stored(state.value, session, x))
  }

  /** The record made of a captured session is observed on that session as marked and on no
      other one. */
  lemma CapturedIsObserved(session: Name, kind: Kind, place: Place, p: Prepared, live: seq<Entry>, e: Entry)
    requires Capture(session, p, Got(live)).Done?
    ensures var x := Capture(session, p, Got(live)).value;
      var seen := Observe(Record(session, kind, place, Some(x)), e);
      && (seen.Some? <==> e.identity == x.tmux && e.markersValid && e.correlation == Some(p.correlation))
      && (seen.Some? ==> seen.value == Observation(x.incarnation, true, p.title))
      && Observe(Record(session, kind, place, Some(x)), FindEntry(live, session).value).Some?
  {}

  // ----- starting and committing

  /** The last state write was of exactly this record. */
  predicate WroteLast(t: Trace, record: Record) {
    t.After? && if t.event.Wrote? then t.event.record == record else WroteLast(t.prev, record)
  }
  /** Since that write, the marked session itself was seen. */
  predicate SawSince(t: Trace, session: Name, p: Prepared, x: Extension) {
    t.After? && !t.event.Wrote? && ((t.event.Saw? && Shows(t.event.live, session, p, x)) || SawSince(t.prev, session, p, x))
  }
  /** Since that write, its record was read back. */
  predicate ReadSince(t: Trace, session: Name, x: Extension) {
    t.After? && !t.event.Wrote? && ((t.event.Read? && Stored(t.event.records, session, x)) || ReadSince(t.prev, session, x))
  }
  /** The record was written, and after that both the marked session and its record were seen. */
  predicate Confirmed(t: Trace, record: Record, p: Prepared) {
    && record.extension.Some? && WroteLast(t, record)
    && SawSince(t, record.name, p, record.extension.value) && ReadSince(t, record.name, record.extension.value)
  }

  /** The answers met while a session is started and committed. */
  datatype CommitAnswers = CommitAnswers(started: bool, seen: Answer<seq<Entry>>, written: bool,
                                         reread: Answer<seq<Record>>,
                                         seenAgain: Answer<seq<Entry>>, readAgain: Answer<seq<Record>>)

  /** Every look finds the marked session and its record. A start that threw is made up for by
      seeing the session, a write that threw by reading the record back. */
  predicate Committed(session: Name, p: Prepared, a: CommitAnswers) {
    && a.seen.Got? && a.seenAgain.Got? && a.readAgain.Got?
    && Capture(session, p, a.seen).Done?
    && (var x := Capture(session, p, a.seen).value;
        && (!a.written ==> a.reread.Got? && Stored(a.reread.value, session, x))
        && Shows(a.seenAgain.value, session, p, x) && Stored(a.readAgain.value, session, x))
  }

  function Noted(t: Trace, live: Answer<seq<Entry>>): Trace { if live.Got? then After(t, Saw(live.value)) else t }
  function NotedRead(t: Trace, state: Answer<seq<Record>>): Trace {
    if state.Got? then After(t, Read(state.value)) else t
  }

  /** Starts the session and captures its identity, also when the start threw. */
  method Start(session: Name, cwd: Text, p: Prepared, a: CommitAnswers, before: Trace) returns (r: Outcome<Extension>,
                                                                                                trace: Trace)
    ensures r == AfterMutation(Capture(session, p, a.seen))
    ensures trace == Noted(After(before, Starting(session, cwd, p)), a.seen)
  {
    trace := After(before, Starting(session, cwd, p));
    var captured: Option<Extension> := None;
    if !a.started {
      trace := Noted(trace, a.seen);
      var c := AfterMutation(Capture(session, p, a.seen));
      if c.Fails? { return Fails(Doubt), trace; }
      captured := Some(c.value);
    }
    if captured.None? {
      trace := Noted(trace, a.seen);
      return AfterMutation(Capture(session, p, a.seen)), trace;
    }
    return Done(captured.value), trace;
  }

  /** Writes the record and, if that threw, reads it back. */
  method Store(session: Name, record: Record, x: Extension, a: CommitAnswers, before: Trace) returns (r: Outcome<()>,
                                                                                                      trace: Trace)
    ensures r.Done? <==> a.written || (a.reread.Got? && Stored(a.reread.value, session, x))
    ensures r.Fails? ==> r.error.Doubt?
    ensures WroteLast(trace, record) && Extends(trace, After(before, Wrote(record)))
  {
    trace := After(before, Wrote(record));
    if !a.written {
      trace := NotedRead(trace, a.reread);
      var c := AfterMutation(WasCommitted(session, x, a.reread));
      if c.Fails? { return Fails(c.error), trace; }
      if !c.value { return Fails(Doubt), trace; }
    }
    return Done(()), trace;
  }

  /** Looks at the session and at its record once more. */
  method Confirm(record: Record, x: Extension, p: Prepared, a: CommitAnswers, before: Trace) returns (r: Outcome<()>,
                                                                                                      trace: Trace)
    requires record.extension == Some(x) && Incarnation(x.tmux) == x.incarnation && x.correlation == p.correlation
      && WroteLast(before, record)
    ensures r.Done? ==> Confirmed(trace, record, p)
    ensures r.Done? <==>
      (Capture(record.name, p, a.seenAgain).Done? && Capture(record.name, p, a.seenAgain).value.incarnation == x.incarnation
       && a.readAgain.Got? && Stored(a.readAgain.value, record.name, x))
    ensures r.Fails? ==> r.error.Doubt?
    ensures Extends(trace, before)
  {
    trace := Noted(before, a.seenAgain);
    assert Extends(trace, before);
    var again := AfterMutation(Capture(record.name, p, a.seenAgain));
    if again.Fails? { return Fails(again.error), trace; }
    if again.value.incarnation != x.incarnation { return Fails(Doubt), trace; }
    trace := NotedRead(trace, a.readAgain);
    assert Extends(trace, before);
    var stored := AfterMutation(WasCommitted(record.name, x, a.readAgain));
    if stored.Fails? { return Fails(stored.error), trace; }
    if !stored.value { return Fails(Doubt), trace; }
    assert SawSince(trace.prev, record.name, p, x);
    return Done(()), trace;
  }

  lemma {:induction false} ExtendsOn(t: Trace, mid: Trace, before: Trace)
    requires Extends(t, mid) && Extends(mid, before)
    ensures Extends(t, before)
  {
    if t != mid { ExtendsOn(t.prev, mid, before); }
  }

  /** Starts the session, captures its identity, writes its record, and confirms both. Every
      error on the way is doubt. */
  method Commit(session: Name, cwd: Text, p: Prepared, kind: Kind, place: Place, a: CommitAnswers, before: Trace)
    returns (r: Outcome<Record>, trace: Trace)
    ensures r.Done? <==> Committed(session, p, a)
    ensures r.Done? ==>
      r.value == Record(session, kind, place, Some(Capture(session, p, a.seen).value)) && Confirmed(trace, r.value, p)
    ensures r.Fails? ==> r.error.Doubt?
    ensures Extends(trace, After(before, Starting(session, cwd, p)))
  {
    ghost var begun := After(before, Starting(session, cwd, p));
    var c;
    c, trace := Start(session, cwd, p, a, before);
    assert Extends(trace, begun);
    if c.Fails? { return Fails(c.error), trace; }
    var x := c.value;
    var record := Record(session, kind, place, Some(x));
    ghost var seen := trace;
    var s;
    s, trace := Store(session, record, x, a, trace);
    ExtendsOn(trace, After(seen, Wrote(record)), seen);
    ExtendsOn(trace, seen, begun);
    if s.Fails? { return Fails(s.error), trace; }
    ghost var stored := trace;
    s, trace := Confirm(record, x, p, a, trace);
    ExtendsOn(trace, stored, begun);
    if s.Fails? { return Fails(s.error), trace; }
    return Done(record), trace;
  }

  // ----- names

  function Decimal(n: nat): Text { if n < 10 then [48 + n] else Decimal(n / 10) + [48 + n % 10] }
  function Value(t: Text): int { if t == [] then 0 else Value(t[..|t| - 1]) * 10 + (t[|t| - 1] as int - 48) }
  lemma {:induction false} DecimalReads(n: nat)
    ensures Decimal(n) != [] && Value(Decimal(n)) == n
  {
    var d := Decimal(n);
    if n < 10 {
      assert d[..0] == [];
    } else {
      DecimalReads(n / 10);
      assert d[..|d| - 1] == Decimal(n / 10);
    }
  }
  function Numbered(base: Name, i: nat): Name { base + [45] + Decimal(i) }
  lemma NumberedDiffer(base: Name, i: nat, j: nat)
    ensures Numbered(base, i) != base && (Numbered(base, i) == Numbered(base, j) ==> i == j)
  {
    DecimalReads(i);
    DecimalReads(j);
    assert Numbered(base, i)[|base| + 1..] == Decimal(i) && Numbered(base, j)[|base| + 1..] == Decimal(j);
  }

  /** The base itself, or the first numbered one that is free. */
  ghost predicate FirstFree(base: Name, taken: set<Name>, name: Name) {
    name !in taken && (name == base
      || (base in taken && exists i: nat :: i > 0 && name == Numbered(base, i) && forall j | 0 < j < i :: Numbered(base, j) in taken))
  }

  /** The search ends because different numbers give different names. */
  method ResolveSessionName(base: Name, taken: set<Name>) returns (name: Name)
    ensures FirstFree(base, taken, name)
  {
    name := base;
    var i := 1;
    ghost var tried: set<Name> := {};
    while name in taken
      invariant i >= 1 && (name == base <==> i == 1) && (i > 1 ==> base in taken && name == Numbered(base, i - 1))
      invariant forall j | 0 < j < i - 1 :: Numbered(base, j) in taken
      invariant tried <= taken && |tried| == i - 1 && name !in tried
      invariant forall n | n in tried :: n == base || exists j | 0 < j < i - 1 :: n == Numbered(base, j)
      decreases |taken - tried|
    {
      ghost var was := tried;
      assert name in taken - was;
      tried := tried + {name};
      assert taken - tried == (taken - was) - {name};
      name := Numbered(base, i);
      NumberedDiffer(base, i, i);
      forall j | 0 < j < i ensures Numbered(base, j) != name { NumberedDiffer(base, i, j); }
      i := i + 1;
    }
  }

  // ----- a worktree

  datatype Frozen = Frozen(base: Text, branch: Text, path: Text)
  /** What is asked for; `frozen` if branch and path were settled beforehand. */
  datatype Wanted = Wanted(dir: Text, name: Name, worktrees: Text, project: Text, branch: Option<Text>,
                           correlation: Correlation, title: Option<Text>,
                           frozen: Option<Frozen>)

  /** What every kind of creation asks first. */
  datatype Authority = Authority(marker: Marker, state: Answer<seq<Record>>, tmux: bool, clock: bool)
  /** What creating a worktree meets before its session is started. */
  datatype Site = Site(onDisk: Text -> bool, isRepo: Text -> bool, taken: set<Name>, originHead: Text, hasMaster: bool,
                       fetched: bool,
                       before: Placement.Filesystem, parentMade: bool, between: Placement.Filesystem,
                       last: Placement.Filesystem,
                       id: Text, joined: Text, added: bool)

  const MASTER: Text := [109, 97, 115, 116, 101, 114]
  const MAIN: Text := [109, 97, 105, 110]

  function DetectBranch(explicit: Option<Text>, originHead: Text, hasMaster: bool): Text {
    if explicit.Some? && Trim(explicit.value, White) != [] then Trim(explicit.value, White)
    else if originHead != [] then originHead
    else if hasMaster then MASTER
    else MAIN
  }

  /** The markers are in order and the state file has one record for each name. */
  predicate Ready(c: Correlation, title: Option<Text>, h: Authority) {
    Prepare(c, title, h.marker).Done? && h.state.Got? && Authoritative(h.state.value)
  }
  /** The placement is closed, crosses no symbolic link, and nothing is there. */
  ghost predicate Vacant(worktrees: Text, z: Frozen, fs: Placement.Filesystem) {
    && Placement.Parse(worktrees, z.path, z.branch).Some?
    && Placement.Fenced(fs, Placement.Segments(worktrees).value)
    && Placement.Fenced(fs, Placement.Segments(z.path).value)
    && !fs.present(Placement.Segments(z.path).value)
  }
  /** Every check before the remote is asked for the branch, and that answer. */
  ghost predicate Clear(w: Wanted, h: Authority, s: Site) {
    && Ready(w.correlation, w.title, h) && s.onDisk(w.dir) && h.tmux && s.isRepo(w.dir) && h.clock && s.fetched
    && (w.frozen.Some? ==> Vacant(w.worktrees, w.frozen.value, s.before) && w.name !in s.taken)
  }
  /** The frozen place is still vacant after its parent was made, and at the last moment. */
  ghost predicate StillVacant(w: Wanted, s: Site) {
    w.frozen.Some? ==> Vacant(w.worktrees, w.frozen.value, s.between) && !s.last.present(Placement.Segments(w.frozen.value.path).value)
  }

  datatype Made = Made(record: Record, prepared: Prepared)

  /** The check made on a frozen placement. */
  method CheckVacant(worktrees: Text, z: Frozen, fs: Placement.Filesystem) returns (ok: bool)
    requires Placement.Parse(worktrees, z.path, z.branch).Some?
    ensures ok <==> Vacant(worktrees, z, fs)
  {
    var path := Placement.Segments(z.path).value;
    ok := Placement.CheckFilesystem(fs, Placement.Segments(worktrees).value, path);
    ok := ok && !fs.present(path);
  }

  /** Everything up to the fetch. */
  method Examine(w: Wanted, h: Authority, s: Site) returns (r: Outcome<(Name, Prepared)>, trace: Trace)
    ensures r.Done? <==> Clear(w, h, s)
    ensures r.Fails? ==> r.error.Plain?
    ensures Inert(trace) && NoWorktree(trace)
    ensures r.Done? ==> Prepare(w.correlation, w.title, h.marker) == Done(r.value.1)
    ensures r.Done? ==> if w.frozen.Some? then r.value.0 == w.name else FirstFree(w.name, s.taken, r.value.0)
  {
    trace := Nothing;
    var p := Prepare(w.correlation, w.title, h.marker);
    if p.Fails? { return Fails(p.error), trace; }
    if h.state.Threw? || !Authoritative(h.state.value) || !s.onDisk(w.dir) { return Fails(Plain), trace; }
    trace := After(trace, Read(h.state.value));
    var session := w.name;
    if w.frozen.Some? {
      if Placement.Parse(w.worktrees, w.frozen.value.path, w.frozen.value.branch).None? { return Fails(Plain), trace; }
      var vacant := CheckVacant(w.worktrees, w.frozen.value, s.before);
      if !vacant || w.name in s.taken { return Fails(Plain), trace; }
    } else {
      session := ResolveSessionName(w.name, s.taken);
    }
    if !h.tmux || !s.isRepo(w.dir) || !h.clock { return Fails(Plain), trace; }
    trace := After(trace, Fetched);
    if !s.fetched { return Fails(Plain), trace; }
    return Done((session, p.value)), trace;
  }

  /** Makes the parent directory; with a frozen place, an error here is already doubt. */
  method MakeParent(w: Wanted, h: Authority, s: Site, before: Trace) returns (r: Outcome<()>, trace: Trace)
    requires Clear(w, h, s) && Inert(before)
    ensures r.Done? <==> s.parentMade && (w.frozen.Some? ==> Vacant(w.worktrees, w.frozen.value, s.between))
    ensures r.Fails? ==> r.error == if w.frozen.Some? then Doubt else Plain
    ensures Inert(trace)
  {
    trace := After(before, MadeParent);
    if w.frozen.None? { return (if s.parentMade then Done(()) else Fails(Plain)), trace; }
    if !s.parentMade { return Fails(Doubt), trace; }
    var vacant := CheckVacant(w.worktrees, w.frozen.value, s.between);
    if !vacant { return Fails(Doubt), trace; }
    return Done(()), trace;
  }

  function PlaceFor(w: Wanted, s: Site, session: Name): Place {
    if w.frozen.Some? then Place(Some(w.project), Some(w.dir), Some(w.frozen.value.path), Some(w.frozen.value.branch), Some(w.frozen.value.base))
    else Place(Some(w.project), Some(w.dir), Some(s.joined), Some(session + [45] + s.id),
               Some(DetectBranch(w.branch, s.originHead, s.hasMaster)))
  }
  function Addition(place: Place): Event
    requires place.repo.Some? && place.branch.Some? && place.worktree.Some? && place.base.Some?
  {
    AddedWorktree(place.repo.value, place.branch.value, place.worktree.value, place.base.value)
  }

  /** Adds the worktree and starts its session. */
  method CreateManagedWorktree(w: Wanted, h: Authority, s: Site, a: CommitAnswers) returns (r: Outcome<Made>,
                                                                                            trace: Trace)
    // a plain error means that neither git, nor tmux, nor the state file was asked for anything
    ensures r.Fails? && r.error.Plain? ==> Inert(trace)
    ensures r.Fails? && r.error.Plain? <==> !Clear(w, h, s) || (w.frozen.None? && !s.parentMade)
    // doubt although nothing was asked for: exactly when a frozen place was spoilt at the last moment
    ensures r.Fails? && r.error.Doubt? && Inert(trace) <==>
      Clear(w, h, s) && w.frozen.Some? && !(s.parentMade && StillVacant(w, s))
    ensures r.Done? ==>
      && Confirmed(trace, r.value.record, r.value.prepared)
      && Prepare(w.correlation, w.title, h.marker) == Done(r.value.prepared)
    ensures r.Done? ==>
      && Clear(w, h, s) && s.parentMade && StillVacant(w, s) && s.added
      && (if w.frozen.Some? then r.value.record.name == w.name else FirstFree(w.name, s.taken, r.value.record.name))
      && Committed(r.value.record.name, r.value.prepared, a)
    ensures r.Done? ==>
      (var place := PlaceFor(w, s, r.value.record.name);
       && r.value.record.kind.Worktree? && r.value.record.place == place && Attempted(trace, Addition(place))
       && Attempted(trace, Starting(r.value.record.name, place.worktree.value, r.value.prepared)))
  {
    var first;
    first, trace := Examine(w, h, s);
    if first.Fails? { return Fails(first.error), trace; }
    var session, p := first.value.0, first.value.1;
    var made;
    made, trace := MakeParent(w, h, s, trace);
    if made.Fails? { return Fails(made.error), trace; }
    var place := PlaceFor(w, s, session);
    if w.frozen.Some? && s.last.present(Placement.Segments(w.frozen.value.path).value) { return Fails(Doubt), trace; }
    var add := Addition(place);
    trace := After(trace, add);
    ghost var adding := trace;
    assert !Inert(adding) && Attempted(adding, add);
    if !s.added { return Fails(Doubt), trace; }
    var c;
    c, trace := Commit(session, place.worktree.value, p, Worktree, place, a, trace);
    ghost var start := Starting(session, place.worktree.value, p);
    assert Attempted(After(adding, start), start) && Attempted(After(adding, start), add) && !Inert(After(adding, start));
    ExtendsKeeps(trace, After(adding, start));
    if c.Fails? { return Fails(c.error), trace; }
    return Done(Made(c.value, p)), trace;
  }

  // ----- a terminal, and a worktree that is already there

  // "tw-term-"
  const TERM: Text := [116, 119, 45, 116, 101, 114, 109, 45]
  const NO_PLACE: Place := Place(None, None, None, None, None)

  /** Opens a terminal in a directory; `id` is the first one drawn whose name is free. */
  method CreateManagedTerminal(cwd: Text, c: Correlation, title: Option<Text>, h: Authority, onDisk: Text -> bool,
                               taken: set<Name>, id: Text, a: CommitAnswers)
    returns (r: Outcome<Made>, trace: Trace)
    requires TERM + id !in taken
    ensures r.Fails? && r.error.Plain? ==> Inert(trace)
    ensures r.Fails? && r.error.Plain? <==>
      !(Ready(c, title, h) && h.tmux && h.clock && Trim(cwd, White) != [] && onDisk(Trim(cwd, White)))
    ensures Inert(trace) ==> r.Fails? && r.error.Plain?
    ensures r.Fails? && r.error.Doubt? ==> !Committed(TERM + id, Prepare(c, title, h.marker).value, a)
    ensures r.Done? ==>
      Confirmed(trace, r.value.record, r.value.prepared) && Prepare(c, title, h.marker) == Done(r.value.prepared)
    ensures r.Done? ==>
      && r.value.record.name == TERM + id
      && r.value.record.kind.Terminal?
      && Attempted(trace, Starting(TERM + id, Trim(cwd, White), r.value.prepared))
    ensures NoWorktree(trace)
  {
    trace := Nothing;
    var p := Prepare(c, title, h.marker);
    if !h.tmux || p.Fails? || h.state.Threw? || !Authoritative(h.state.value) { return Fails(Plain), trace; }
    var dir := Trim(cwd, White);
    if dir == [] || !onDisk(dir) || !h.clock { return Fails(Plain), trace; }
    var session := TERM + id;
    ghost var begun := After(trace, Starting(session, dir, p.value));
    var made;
    made, trace := Commit(session, dir, p.value, Terminal, NO_PLACE, a, trace);
    assert Attempted(begun, Starting(session, dir, p.value)) && !Inert(begun) && NoWorktree(begun);
    ExtendsKeeps(trace, begun);
    if made.Fails? { return Fails(made.error), trace; }
    return Done(Made(made.value, p.value)), trace;
  }

  /** What a worktree on disk answers about itself. */
  datatype Found = Found(onDisk: Text -> bool, hasGit: bool, isRepo: bool, branch: Text, repo: Option<Text>,
                         project: Option<Text>)

  predicate Restorable(path: Text, name: Name, title: Option<Text>, h: Authority, f: Found, taken: set<Name>) {
    && Ready(Correlation(None), title, h) && h.tmux && h.clock && Trim(path, White) != []
    && f.onDisk(Trim(path, White)) && f.hasGit && f.isRepo
    && Trim(f.branch, White) != [] && (Trim(name, White) != [] || [] in taken)
  }

  /** Starts a session in a worktree that is already there. */
  method RestoreManagedWorktree(path: Text, name: Name, title: Option<Text>, h: Authority, f: Found, taken: set<Name>,
                                a: CommitAnswers)
    returns (r: Outcome<Made>, trace: Trace)
    ensures r.Fails? && r.error.Plain? ==> Inert(trace)
    ensures r.Fails? && r.error.Plain? <==> !Restorable(path, name, title, h, f, taken)
    ensures Inert(trace) ==> r.Fails? && r.error.Plain?
    ensures r.Done? ==>
      && Confirmed(trace, r.value.record, r.value.prepared)
      && Prepare(Correlation(None), title, h.marker) == Done(r.value.prepared)
    ensures r.Done? ==> FirstFree(Trim(name, White), taken, r.value.record.name) && r.value.record.kind.Worktree?
    ensures r.Done? ==>
      r.value.record.place == Place(f.project, f.repo, Some(Trim(path, White)), Some(Trim(f.branch, White)),
                                    Some(Trim(f.branch, White)))
    ensures r.Done? ==> Attempted(trace, Starting(r.value.record.name, Trim(path, White), r.value.prepared))
    ensures NoWorktree(trace)
  {
    trace := Nothing;
    var p := Prepare(Correlation(None), title, h.marker);
    if !h.tmux || p.Fails? || h.state.Threw? || !Authoritative(h.state.value) { return Fails(Plain), trace; }
    var dir, branch := Trim(path, White), Trim(f.branch, White);
    if dir == [] || !f.onDisk(dir) || !f.hasGit || !f.isRepo || branch == [] { return Fails(Plain), trace; }
    var session := ResolveSessionName(Trim(name, White), taken);
    if session == [] || !h.clock { return Fails(Plain), trace; }
    ghost var begun := After(trace, Starting(session, dir, p.value));
    var made;
    made, trace := Commit(session, dir, p.value, Worktree,
                          Place(f.project, f.repo, Some(dir), Some(branch), Some(branch)), a, trace);
    assert Attempted(begun, Starting(session, dir, p.value)) && !Inert(begun) && NoWorktree(begun);
    ExtendsKeeps(trace, begun);
    if made.Fails? { return Fails(made.error), trace; }
    return Done(Made(made.value, p.value)), trace;
  }

  // ----- the list that other programs see

  datatype Item = Item(name: Name, kind: Kind, place: Place, cwd: Text, title: Option<Text>, incarnation: Incarnation)

  function ItemOf(record: Record, live: seq<Entry>): Option<Item> {
    var entry := LastEntry(live, record.name);
    if entry.None? then None
    else
      var seen := Observe(record, entry.value);
      if seen.None? || !seen.value.marked then None
      else Some(Item(record.name, record.kind, record.place, entry.value.cwd, seen.value.title, seen.value.incarnation))
  }
  function Listing(records: seq<Record>, live: seq<Entry>): seq<Item> {
    if records == [] then []
    else (var item := ItemOf(records[0], live); if item.Some? then [item.value] else []) + Listing(records[1..], live)
  }
  function FindItem(items: seq<Item>, name: Name, incarnation: Incarnation): (r: Option<Item>)
    ensures r.Some? ==> r.value in items && r.value.name == name && r.value.incarnation == incarnation
  {
    if items == [] then None
    else if items[0].name == name && items[0].incarnation == incarnation then Some(items[0])
    else FindItem(items[1..], name, incarnation)
  }

  predicate Backs(r: Record, e: Entry, item: Item) {
    r.name == item.name && r.place == item.place && e.identity.name == item.name
    && r.extension.Some? && r.extension.value.tmux == e.identity && item.incarnation == Incarnation(e.identity)
  }

  /** Every listed session is a record and a live session that agree in every marker. */
  lemma {:induction false} ListedExactly(records: seq<Record>, live: seq<Entry>, item: Item)
    requires item in Listing(records, live)
    ensures exists r, e :: r in records && e in live && Backs(r, e, item)
  {
    if ItemOf(records[0], live) == Some(item) {
      var e := LastEntry(live, records[0].name).value;
      assert records[0] in records && e in live && Backs(records[0], e, item);
    } else {
      ListedExactly(records[1..], live, item);
      var r, e :| r in records[1..] && e in live && Backs(r, e, item);
      assert r in records;
    }
  }

  lemma FewerAuthoritative(records: seq<Record>)
    requires Authoritative(records) && records != []
    ensures Authoritative(records[1..]) && forall r | r in records[1..] :: r.name != records[0].name
  {
    var rest := records[1..];
    forall i, j | 0 <= i < j < |rest| ensures rest[i].name != rest[j].name {
      assert rest[i] == records[i + 1] && rest[j] == records[j + 1];
    }
    forall r | r in rest ensures r.name != records[0].name {
      var j :| 0 <= j < |rest| && rest[j] == r;
      assert records[j + 1] == r && records[0].name != records[j + 1].name;
    }
  }
  lemma {:induction false} NotListed(records: seq<Record>, live: seq<Entry>, name: Name, incarnation: Incarnation)
    requires forall r | r in records :: r.name != name
    ensures FindItem(Listing(records, live), name, incarnation).None?
  {
    if records != [] {
      NotListed(records[1..], live, name, incarnation);
      var items, item := Listing(records, live), ItemOf(records[0], live);
      assert records[0] in records && forall r | r in records[1..] :: r in records;
      if item.Some? { assert items[0] == item.value && items[1..] == Listing(records[1..], live); } else { assert items == Listing(records[1..], live); }
    }
  }

  /** In an authoritative list a name is found under an incarnation exactly if its one record is
      observed as marked, under that incarnation, on the session that carries the name. */
  lemma {:induction false} ListedIff(records: seq<Record>, live: seq<Entry>, name: Name, incarnation: Incarnation)
    requires Authoritative(records)
    ensures var record, entry := FindRecord(records, name), LastEntry(live, name);
      FindItem(Listing(records, live), name, incarnation).Some? <==>
        (record.Some? && entry.Some? && (var seen := Observe(record.value, entry.value); seen.Some? && seen.value.marked && seen.value.incarnation == incarnation))
  {
    if records != [] {
      FewerAuthoritative(records);
      var items, item := Listing(records, live), ItemOf(records[0], live);
      if item.Some? { assert items[0] == item.value && items[1..] == Listing(records[1..], live); } else { assert items == Listing(records[1..], live); }
      if records[0].name == name { NotListed(records[1..], live, name, incarnation); } else { ListedIff(records[1..], live, name, incarnation); }
    }
  }

  // ----- what the caller is told

  /** Name, place, title and directory are the frozen ones. */
  predicate AsFrozen(item: Item, wanted: Item) {
    item.name == wanted.name && item.place == wanted.place && item.title == wanted.title && item.cwd == wanted.cwd
  }

  /** The committed session must be visible under its incarnation, and as asked for. */
  method Conclude(record: Record, p: Prepared, wanted: Option<Item>, state: Answer<seq<Record>>,
                  live: Answer<seq<Entry>>, before: Trace)
    returns (r: Response, trace: Trace)
    requires Confirmed(before, record, p)
    ensures !r.Failed? && Confirmed(trace, record, p) && Extends(trace, before)
    ensures r.Succeeded? ==>
      state.Got? && live.Got? && Authoritative(state.value) && r.item in Listing(state.value, live.value)
    ensures r.Succeeded? ==> r.item.name == record.name && r.item.incarnation == record.extension.value.incarnation
    ensures r.Succeeded? && wanted.Some? ==> AsFrozen(r.item, wanted.value)
    // without a frozen target, success is exactly that the one record of the name is observed on the live session
    ensures wanted.None? ==> (r.Succeeded? <==>
      (state.Got? && live.Got? && Authoritative(state.value)
       && (var now, entry := FindRecord(state.value, record.name), LastEntry(live.value, record.name);
           now.Some? && entry.Some?
           && (var seen := Observe(now.value, entry.value); seen.Some? && seen.value.marked && seen.value.incarnation == record.extension.value.incarnation))))
  {
    trace := before;
    if state.Threw? || !Authoritative(state.value) || live.Threw? { return InDoubt, trace; }
    trace := After(trace, Read(state.value));
    assert Extends(trace, before);
    trace := After(trace, Saw(live.value));
    ListedIff(state.value, live.value, record.name, record.extension.value.incarnation);
    var item := FindItem(Listing(state.value, live.value), record.name, record.extension.value.incarnation);
    if item.None? || (wanted.Some? && !AsFrozen(item.value, wanted.value)) { return CreateFailure(Doubt), trace; }
    return Response.Succeeded(item.value), trace;
  }

  /** Success means that the marked session and its record were both seen after the commit, and
      that they are listed. */
  ghost predicate Proven(r: Response, trace: Trace, c: Made) {
    && Confirmed(trace, c.record, c.prepared) && r.Succeeded? && r.item.name == c.record.name
    && r.item.incarnation == c.record.extension.value.incarnation
    && r.item.incarnation.of.birth == Some(c.prepared.birth)
  }

  lemma {:induction false} ConfirmedMarked(t: Trace, session: Name, p: Prepared, x: Extension)
    requires SawSince(t, session, p, x)
    ensures x.incarnation.of.birth == Some(p.birth)
  {
    if !(t.event.Saw? && Shows(t.event.live, session, p, x)) { ConfirmedMarked(t.prev, session, p, x); }
  }

  method CreateWorktree(w: Wanted, h: Authority, s: Site, a: CommitAnswers, state: Answer<seq<Record>>,
                        live: Answer<seq<Entry>>)
    returns (r: Response, trace: Trace, made: Option<Made>)
    // failed means that neither git, nor tmux, nor the state file was asked for anything
    ensures r.Failed? ==> Inert(trace)
    ensures r.Failed? <==> !Clear(w, h, s) || (w.frozen.None? && !s.parentMade)
    ensures r.Succeeded? ==>
      made.Some? && Proven(r, trace, made.value) && made.value.record.place == PlaceFor(w, s, made.value.record.name)
    ensures r.Succeeded? ==> Attempted(trace, Addition(PlaceFor(w, s, made.value.record.name)))
    ensures r.Succeeded? && w.frozen.Some? ==>
      r.item.name == w.name && r.item.place == PlaceFor(w, s, w.name) && r.item.title == w.title && r.item.cwd == w.frozen.value.path
  {
    var c;
    c, trace := CreateManagedWorktree(w, h, s, a);
    if c.Fails? { return CreateFailure(c.error), trace, None; }
    ghost var before := trace;
    var x := c.value.record.extension.value;
    var wanted := if w.frozen.Some? then Some(Item(w.name, Worktree, PlaceFor(w, s, w.name), w.frozen.value.path, w.title, x.incarnation)) else None;
    ConfirmedMarked(trace, c.value.record.name, c.value.prepared, x);
    r, trace := Conclude(c.value.record, c.value.prepared, wanted, state, live, trace);
    ExtendsKeeps(trace, before);
    made := Some(c.value);
  }

  method CreateTerminal(cwd: Text, c: Correlation, title: Option<Text>, h: Authority, onDisk: Text -> bool,
                        taken: set<Name>, id: Text,
                        a: CommitAnswers, state: Answer<seq<Record>>, live: Answer<seq<Entry>>)
    returns (r: Response, trace: Trace, made: Option<Made>)
    requires TERM + id !in taken
    ensures r.Failed? <==> Inert(trace)
    ensures r.Failed? <==>
      !(Ready(c, title, h) && h.tmux && h.clock && Trim(cwd, White) != [] && onDisk(Trim(cwd, White)))
    ensures r.Succeeded? ==> made.Some? && Proven(r, trace, made.value) && r.item.name == TERM + id
    ensures r.Succeeded? ==> Attempted(trace, Starting(TERM + id, Trim(cwd, White), made.value.prepared))
    ensures NoWorktree(trace)
  {
    var t;
    t, trace := CreateManagedTerminal(cwd, c, title, h, onDisk, taken, id, a);
    if t.Fails? { return CreateFailure(t.error), trace, None; }
    ghost var before := trace;
    ConfirmedMarked(trace, t.value.record.name, t.value.prepared, t.value.record.extension.value);
    r, trace := Conclude(t.value.record, t.value.prepared, None, state, live, trace);
    ExtendsKeeps(trace, before);
    made := Some(t.value);
  }

  method RestoreWorktree(path: Text, name: Name, title: Option<Text>, h: Authority, f: Found, taken: set<Name>,
                         a: CommitAnswers, state: Answer<seq<Record>>, live: Answer<seq<Entry>>)
    returns (r: Response, trace: Trace, made: Option<Made>)
    ensures r.Failed? <==> Inert(trace)
    ensures r.Failed? <==> !Restorable(path, name, title, h, f, taken)
    ensures r.Succeeded? ==>
      made.Some? && Proven(r, trace, made.value) && FirstFree(Trim(name, White), taken, r.item.name)
    ensures r.Succeeded? ==> Attempted(trace, Starting(r.item.name, Trim(path, White), made.value.prepared))
    ensures NoWorktree(trace)
  {
    var t;
    t, trace := RestoreManagedWorktree(path, name, title, h, f, taken, a);
    if t.Fails? { return CreateFailure(t.error), trace, None; }
    ghost var before := trace;
    ConfirmedMarked(trace, t.value.record.name, t.value.prepared, t.value.record.extension.value);
    r, trace := Conclude(t.value.record, t.value.prepared, None, state, live, trace);
    ExtendsKeeps(trace, before);
    made := Some(t.value);
  }
}
