/** Managed sessions across tmux, git and the state file: what an answer to create,
    restore or kill proves when others may replace sessions between any two steps.
    Every look at the outside is a parameter. */
module Lifecycle {
  import opened Basics
  import opened Utf16

  datatype Answer<+T> = Got(value: T) | Threw

  type Name = Text
  type Marker = Text

  /** Everything that tells one tmux session from every other one. */
  datatype Identity = Identity(socket: Text, pid: Text, started: Text, id: Text, name: Name, created: Text,
                               birth: Option<Marker>)
  /** The digest of an identity; collision-free. */
  datatype Incarnation = Incarnation(of: Identity)

  datatype Correlation = Correlation(reservation: Option<Text>)
  /** A listed session, with its birth option as tmux has it. Markers that are malformed or only
      half there count as absent in the identity. */
  datatype Entry = Entry(identity: Identity, raw: Marker, correlation: Option<Correlation>, markersValid: bool,
                         cwd: Text)
  /** How the identity of a listed session comes from its options. */
  predicate Parsed(e: Entry) { e.identity.birth == if e.markersValid && e.raw != [] then Some(e.raw) else None }
  /** The session itself, with the birth option that it really has. */
  function Itself(e: Entry): Identity { e.identity.(birth := if e.raw == [] then None else Some(e.raw)) }

  datatype Extension = Extension(tmux: Identity, incarnation: Incarnation, correlation: Correlation,
                                 title: Option<Text>)
  datatype Kind = Worktree | Terminal
  datatype Record = Record(name: Name, kind: Kind, place: Place, extension: Option<Extension>)
  /** Where the session works: project, repository, worktree, branch, base branch. */
  datatype Place = Place(project: Option<Text>, repo: Option<Text>, worktree: Option<Text>, branch: Option<Text>,
                         base: Option<Text>)

  /** Strict readers refuse two records of one name. */
  predicate Authoritative(records: seq<Record>) {
    forall i, j | 0 <= i < j < |records| :: records[i].name != records[j].name
  }

  function FindRecord(records: seq<Record>, name: Name): (r: Option<Record>)
    ensures r.Some? ==> r.value in records && r.value.name == name
    ensures r.None? ==> forall x | x in records :: x.name != name
  {
    if records == [] then None else if records[0].name == name then Some(records[0]) else FindRecord(records[1..], name)
  }
  function FindEntry(live: seq<Entry>, name: Name): (r: Option<Entry>)
    ensures r.Some? ==> r.value in live && r.value.identity.name == name
    ensures r.None? ==> forall x | x in live :: x.identity.name != name
  {
    if live == [] then None else if live[0].identity.name == name then Some(live[0]) else FindEntry(live[1..], name)
  }
  /** A later entry of the same name takes the place of an earlier one. */
  function LastEntry(live: seq<Entry>, name: Name): (r: Option<Entry>)
    ensures r.Some? ==> r.value in live && r.value.identity.name == name
  {
    if live == [] then None
    else if live[|live| - 1].identity.name == name then Some(live[|live| - 1])
    else LastEntry(live[..|live| - 1], name)
  }

  // ----- binding a record to a live session

  datatype Observation = Observation(incarnation: Incarnation, marked: bool, title: Option<Text>)

  function Observe(record: Record, live: Entry): (r: Option<Observation>) {
    if record.name != live.identity.name || !live.markersValid then None
    else if record.extension.None? then
      if live.identity.birth.Some? || live.correlation.Some? then None
      else Some(Observation(Incarnation(live.identity), false, None))
    else
      var x := record.extension.value;
      if x.tmux != live.identity || x.incarnation != Incarnation(live.identity) || live.correlation != Some(x.correlation) then None
      else Some(Observation(x.incarnation, true, x.title))
  }

  /** A marked record is bound to one session for good, two records of an authoritative list
      never stand for the same live session, and observations tell sessions apart. */
  lemma ObservesOneSession(records: seq<Record>, r1: Record, r2: Record, e1: Entry, e2: Entry)
    requires Authoritative(records) && r1 in records && r2 in records
    requires Observe(r1, e1).Some? && Observe(r2, e2).Some?
    ensures r1 == r2 && Observe(r1, e1).value.marked ==> e1.identity == e2.identity
    ensures e1.identity == e2.identity ==> r1 == r2
    ensures Observe(r1, e1).value.incarnation == Observe(r2, e2).value.incarnation <==> e1.identity == e2.identity
  {
    var i :| 0 <= i < |records| && records[i] == r1;
    var j :| 0 <= j < |records| && records[j] == r2;
    if e1.identity == e2.identity {
      assert !(i < j) && !(j < i);
    }
  }

  // ----- the exact kill

  datatype Field = Socket | Pid | Started | Id | Created | Birth
  datatype Condition = Same(field: Field, literal: Text) | Both(left: Condition, right: Condition)

  function Show(e: Identity, f: Field): Text {
    match f
    case Socket => e.socket
    case Pid => e.pid
    case Started => e.started
    case Id => e.id
    case Created => e.created
    case Birth => if e.birth.Some? then e.birth.value else []
  }
  /** tmux compares the fields of the session itself. */
  predicate Holds(c: Condition, e: Identity) {
    match c
    case Same(f, text) => Show(e, f) == text
    case Both(l, r) => Holds(l, e) && Holds(r, e)
  }
  const FIELDS: seq<Field> := [Socket, Pid, Started, Id, Created, Birth]

  /** The comparisons joined from the left. */
  function Joined(c: Condition, e: Identity, fields: seq<Field>): Condition
    decreases |fields|
  {
    if fields == [] then c else Joined(Both(c, Same(fields[0], Show(e, fields[0]))), e, fields[1..])
  }
  function KillCondition(e: Identity): Condition { Joined(Same(FIELDS[0], Show(e, FIELDS[0])), e, FIELDS[1..]) }

  lemma {:induction false} JoinedHolds(c: Condition, e: Identity, fields: seq<Field>, x: Identity)
    ensures Holds(Joined(c, e, fields), x) <==> Holds(c, x) && forall f | f in fields :: Show(x, f) == Show(e, f)
    decreases |fields|
  {
    if fields != [] {
      JoinedHolds(Both(c, Same(fields[0], Show(e, fields[0]))), e, fields[1..], x);
      assert fields == [fields[0]] + fields[1..];
    }
  }

  /** The condition made for a session whose markers are in order, together with the target name,
      fixes the whole session, birth option included, whatever the target's markers are like. */
  lemma ConditionIsExact(e: Entry, x: Entry)
    requires Parsed(e) && e.markersValid
    ensures Holds(KillCondition(e.identity), Itself(x)) && x.identity.name == e.identity.name <==>
      Itself(x) == e.identity
  {
    JoinedHolds(Same(FIELDS[0], Show(e.identity, FIELDS[0])), e.identity, FIELDS[1..], Itself(x));
    var rest := FIELDS[1..];
    assert rest == [Pid, Started, Id, Created, Birth];
    assert Pid in rest && Started in rest && Id in rest && Created in rest && Birth in rest;
  }

  /** What becomes of the one kill command: whether it ran, and what came back. */
  datatype Report = Clean | Garbled | Nonzero | NoExit
  datatype Fate = Fate(ran: bool, report: Report)

  /** Inside tmux the condition and the kill are one step on the session of that name. */
  function Victim(live: seq<Entry>, e: Identity, fate: Fate): (r: Option<Entry>)
    ensures r.Some? ==> r.value in live && r.value.identity.name == e.name
  {
    var target := FindEntry(live, e.name);
    if fate.ran && target.Some? && Holds(KillCondition(e), Itself(target.value)) then target else None
  }

  datatype KillVerdict = Killed | NotFound | Mismatch | Unsure

  /** What the caller is told about the kill of a listed session. */
  function Verdict(e: Entry, at: seq<Entry>, fate: Fate, after: Answer<seq<Entry>>): KillVerdict {
    if !e.markersValid then Mismatch
    else match fate.report
      case Clean => if Victim(at, e.identity, fate).Some? then Killed else Mismatch
      case Garbled => Unsure
      case NoExit => Unsure
      case Nonzero =>
        if after.Threw? then Unsure
        else
          var current := FindEntry(after.value, e.identity.name);
          if current.None? || current.value.identity == e.identity then Unsure else Mismatch
  }

  /** A session of this name is listed, and it is another one. */
  predicate Replaced(live: Answer<seq<Entry>>, e: Identity) {
    live.Got? && FindEntry(live.value, e.name).Some? && FindEntry(live.value, e.name).value.identity != e
  }
  /** The session of this name is this very one. */
  predicate Present(live: seq<Entry>, e: Identity) {
    FindEntry(live, e.name).Some? && Itself(FindEntry(live, e.name).value) == e
  }

  method KillExact(e: Entry, at: seq<Entry>, fate: Fate, after: Answer<seq<Entry>>) returns (verdict: KillVerdict,
                                                                                             victim: Option<Entry>)
    requires Parsed(e)
    ensures verdict == Verdict(e, at, fate, after)
    ensures victim == if e.markersValid then Victim(at, e.identity, fate) else None
    // exactly when something dies
    ensures victim.Some? <==> e.markersValid && fate.ran && Present(at, e.identity)
    ensures verdict.Killed? <==> victim.Some? && fate.report.Clean?
    // the one wrong answer: the command killed but exited with an error, and a successor took the name
    ensures verdict.Mismatch? && victim.Some? <==>
      e.markersValid && fate == Fate(true, Nonzero) && Present(at, e.identity) && Replaced(after, e.identity)
    ensures !verdict.NotFound?
  {
    var target := FindEntry(at, e.identity.name);
    if !e.markersValid { return Mismatch, None; }
    if target.Some? { ConditionIsExact(e, target.value); }
    victim := Victim(at, e.identity, fate);
    match fate.report {
      case Clean => return (if victim.Some? then Killed else Mismatch), victim;
      case Garbled => return Unsure, victim;
      case NoExit => return Unsure, victim;
      case Nonzero =>
        if after.Threw? { return Unsure, victim; }
        var current := FindEntry(after.value, e.identity.name);
        return (if current.None? || current.value.identity == e.identity then Unsure else Mismatch), victim;
    }
  }

  /** It does happen: the command kills the session and exits with an error, a new session
      takes the name, and the verdict is that nothing was killed. */
  lemma MismatchAfterKill(entry: Entry, successor: Entry)
    requires Parsed(entry) && entry.markersValid && successor.identity.name == entry.identity.name
      && successor.identity != entry.identity
    ensures var fate := Fate(true, Nonzero);
      && Verdict(entry, [entry], fate, Got([successor])) == Mismatch
      && Victim([entry], entry.identity, fate) == Some(entry)
  {
    ConditionIsExact(entry, entry);
  }

  /** A half marker put on an unmarked session since it was listed keeps the kill away. */
  lemma HalfMarkerSpares(e: Entry, x: Entry, fate: Fate)
    requires Parsed(e) && e.markersValid && e.raw == [] && x.identity.name == e.identity.name && x.raw != []
    ensures Victim([x], e.identity, fate) == None
  {
    ConditionIsExact(e, x);
  }

  /** The record of the name and the live session of the name are one, the expected one. */
  predicate Agreed(records: seq<Record>, live: seq<Entry>, name: Name, expected: Incarnation) {
    var record, entry := FindRecord(records, name), FindEntry(live, name);
    record.Some? && entry.Some? && Observe(record.value, entry.value).Some? && Observe(record.value, entry.value).value.incarnation == expected
  }

  predicate Asks(name: Name, expected: Incarnation, state: Answer<seq<Record>>, live: Answer<seq<Entry>>) {
    state.Got? && live.Got? && Authoritative(state.value) && Agreed(state.value, live.value, name, expected)
  }

  datatype KillResult = Succeeded(name: Name, kind: Kind, incarnation: Incarnation, sessionId: Text)
    | NotApplied(missing: bool) | Doubtful | Refused

  function Dropped(records: seq<Record>, name: Name): seq<Record> {
    if records == [] then [] else if records[0].name == name then records[1..] else [records[0]] + Dropped(records[1..], name)
  }

  /** Kills one managed session. `victim` is what tmux really killed and `saved` what was
      written to the state file. */
  method KillManaged(name: Name, expected: Incarnation, state: Answer<seq<Record>>, live: Answer<seq<Entry>>,
                     at: seq<Entry>, fate: Fate,
                     after: Answer<seq<Entry>>, broken: bool)
    returns (r: KillResult, asked: bool, victim: Option<Entry>, saved: Option<seq<Record>>)
    requires live.Got? ==> forall e | e in live.value :: Parsed(e)
    // a kill is asked for only after the record and the live session were seen to agree
    ensures asked <==> Asks(name, expected, state, live)
    // whatever was replaced meanwhile, only the expected session dies
    ensures victim.Some? ==>
      asked && victim.value in at && Incarnation(Itself(victim.value)) == expected && victim.value.identity.name == name
    ensures victim.Some? <==> asked && fate.ran && Present(at, expected.of)
    ensures victim.Some? ==> state.Got? && FindRecord(state.value, name).Some?
    // the file loses that one record, and only after a confirmed kill
    ensures saved.Some? ==> victim.Some? && state.Got? && saved.value == Dropped(state.value, name)
    ensures r.Succeeded? <==> saved.Some? && !broken
    ensures r.Succeeded? ==>
      && r.incarnation == expected
      && r.name == name
      && r.kind == FindRecord(state.value, name).value.kind
      && r.sessionId == victim.value.identity.id
    ensures r.NotApplied? ==> saved.None?
    // no effect claimed although the session died: exactly when the command killed but exited
    // with an error and a successor had taken the name by the time of the second look
    ensures r.NotApplied? && victim.Some? <==>
      asked && fate == Fate(true, Nonzero) && Present(at, expected.of) && Replaced(after, expected.of)
    ensures r.Refused? ==> !asked
    ensures !asked ==> victim.None? && saved.None?
  {
    asked, victim, saved := false, None, None;
    if state.Threw? || !Authoritative(state.value) { return Refused, asked, victim, saved; }
    var managed := FindRecord(state.value, name);
    if managed.None? { return NotApplied(true), asked, victim, saved; }
    if live.Threw? { return Doubtful, asked, victim, saved; }
    var entry := FindEntry(live.value, name);
    if entry.None? { return NotApplied(true), asked, victim, saved; }
    var seen := Observe(managed.value, entry.value);
    if seen.None? || seen.value.incarnation != expected { return NotApplied(false), asked, victim, saved; }
    asked := true;
    var verdict;
    verdict, victim := KillExact(entry.value, at, fate, after);
    match verdict {
      case NotFound => r := NotApplied(true);
      case Mismatch => r := NotApplied(false);
      case Unsure => r := Doubtful;
      case Killed =>
        saved := Some(Dropped(state.value, name));
        r := if broken then Doubtful else Succeeded(managed.value.name, managed.value.kind, seen.value.incarnation, entry.value.identity.id);
    }
  }

  /** Dropping a name from an authoritative list takes out that record and nothing else. */
  lemma {:induction false} DroppedExactly(records: seq<Record>, name: Name, x: Record)
    requires Authoritative(records)
    ensures x in Dropped(records, name) <==> x in records && x.name != name
  {
    if records != [] {
      assert records == [records[0]] + records[1..];
      assert Authoritative(records[1..]) by {
        forall i, j | 0 <= i < j < |records[1..]| ensures records[1..][i].name != records[1..][j].name {
          assert records[1..][i] == records[i + 1] && records[1..][j] == records[j + 1];
        }
      }
      if records[0].name == name {
        forall y | y in records[1..] ensures y.name != name {
          var j :| 0 <= j < |records[1..]| && records[1..][j] == y;
          assert records[j + 1] == y && records[0].name != records[j + 1].name;
        }
      } else {
        DroppedExactly(records[1..], name, x);
      }
    }
  }
}
