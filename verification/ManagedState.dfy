/** The managed-session state file: a list of records, one per name. */
module ManagedState {
  import opened Basics

  type Name = string
  type Info = string
  datatype Session = Session(name: Name, info: Info)

  /** What one locked operation does to the list. `Withdraw` is a confirmed kill, which
      takes out the one record it looked up. */
  datatype Op = Record(session: Session) | Remove(name: Name) | Withdraw(name: Name) | Keep

  function Without(sessions: seq<Session>, name: Name): (r: seq<Session>)
    ensures forall s | s in r :: s in sessions && s.name != name
    ensures forall s | s in sessions && s.name != name :: s in r
  {
    if sessions == [] then []
    else (if sessions[0].name == name then [] else [sessions[0]]) + Without(sessions[1..], name)
  }
  function WithoutFirst(sessions: seq<Session>, name: Name): seq<Session> {
    if sessions == [] then []
    else if sessions[0].name == name then sessions[1..]
    else [sessions[0]] + WithoutFirst(sessions[1..], name)
  }

  function Effect(op: Op, sessions: seq<Session>): seq<Session> {
    match op
    case Record(s) => Without(sessions, s.name) + [s]
    case Remove(n) => Without(sessions, n)
    case Withdraw(n) => WithoutFirst(sessions, n)
    case Keep => sessions
  }

  function Replay(sessions: seq<Session>, log: seq<Op>): seq<Session> {
    if log == [] then sessions else Effect(log[|log| - 1], Replay(sessions, log[..|log| - 1]))
  }

  function Find(sessions: seq<Session>, name: Name): (r: Option<Session>)
    ensures r.None? <==> forall s | s in sessions :: s.name != name
    ensures r.Some? ==> r.value in sessions && r.value.name == name
  {
    if sessions == [] then None
    else if sessions[0].name == name then Some(sessions[0])
    else Find(sessions[1..], name)
  }

  ghost predicate OnePerName(sessions: seq<Session>) {
    forall i, j | 0 <= i < j < |sessions| :: sessions[i].name != sessions[j].name
  }

  lemma OnePerNameRest(sessions: seq<Session>)
    requires OnePerName(sessions) && sessions != []
    ensures OnePerName(sessions[1..]) && forall s | s in sessions[1..] :: s.name != sessions[0].name
  {
    forall i, j | 0 <= i < j < |sessions[1..]| ensures sessions[1..][i].name != sessions[1..][j].name {
      assert sessions[1..][i] == sessions[i + 1] && sessions[1..][j] == sessions[j + 1];
    }
    forall s | s in sessions[1..] ensures s.name != sessions[0].name {
      var j :| 0 <= j < |sessions[1..]| && sessions[1..][j] == s;
      assert sessions[j + 1] == s;
    }
  }

  lemma OnePerNameCons(s: Session, rest: seq<Session>)
    requires OnePerName(rest) && forall t | t in rest :: t.name != s.name
    ensures OnePerName([s] + rest)
  {
    var all := [s] + rest;
    forall i, j | 0 <= i < j < |all| ensures all[i].name != all[j].name {
      assert all[j] == rest[j - 1] && rest[j - 1] in rest;
      if i > 0 { assert all[i] == rest[i - 1]; }
    }
  }

  lemma {:induction false} WithoutFinds(sessions: seq<Session>, name: Name, other: Name)
    ensures Find(Without(sessions, name), other) == if other == name then None else Find(sessions, other)
  {
    if sessions != [] {
      WithoutFinds(sessions[1..], name, other);
      var rest := Without(sessions[1..], name);
      assert ([sessions[0]] + rest)[1..] == rest && [] + rest == rest;
    }
  }

  lemma {:induction false} WithoutFirstIs(sessions: seq<Session>, name: Name)
    requires OnePerName(sessions)
    ensures WithoutFirst(sessions, name) == Without(sessions, name)
  {
    if sessions != [] {
      OnePerNameRest(sessions);
      if sessions[0].name == name {
        NothingLeft(sessions[1..], name);
        assert [] + sessions[1..] == sessions[1..];
      } else {
        WithoutFirstIs(sessions[1..], name);
      }
    }
  }
  lemma {:induction false} NothingLeft(sessions: seq<Session>, name: Name)
    requires forall s | s in sessions :: s.name != name
    ensures Without(sessions, name) == sessions
  {
    if sessions != [] {
      assert sessions[0] in sessions && forall s | s in sessions[1..] :: s in sessions;
      NothingLeft(sessions[1..], name);
      assert [sessions[0]] + sessions[1..] == sessions;
    }
  }
  lemma {:induction false} WithoutOnePerName(sessions: seq<Session>, name: Name)
    requires OnePerName(sessions)
    ensures OnePerName(Without(sessions, name))
  {
    if sessions != [] {
      OnePerNameRest(sessions);
      WithoutOnePerName(sessions[1..], name);
      var rest := Without(sessions[1..], name);
      if sessions[0].name != name { OnePerNameCons(sessions[0], rest); } else { assert [] + rest == rest; }
    }
  }
  lemma {:induction false} FindLast(sessions: seq<Session>, s: Session, other: Name)
    requires forall t | t in sessions :: t.name != s.name
    ensures Find(sessions + [s], other) == if other == s.name then Some(s) else Find(sessions, other)
  {
    if sessions != [] {
      assert sessions[0] in sessions && forall t | t in sessions[1..] :: t in sessions;
      FindLast(sessions[1..], s, other);
      assert (sessions + [s])[1..] == sessions[1..] + [s];
    }
  }
  lemma OnePerNameLast(sessions: seq<Session>, s: Session)
    requires OnePerName(sessions) && forall t | t in sessions :: t.name != s.name
    ensures OnePerName(sessions + [s])
  {
    var all := sessions + [s];
    forall i, j | 0 <= i < j < |all| ensures all[i].name != all[j].name {
      assert all[i] == sessions[i] && sessions[i] in sessions;
      if j < |sessions| { assert all[j] == sessions[j]; }
    }
  }

  predicate Touches(op: Op, name: Name) {
    (op.Record? && op.session.name == name) || ((op.Remove? || op.Withdraw?) && op.name == name)
  }
  function Outcome(op: Op): Option<Session> { if op.Record? then Some(op.session) else None }

  /** One operation settles the record of its own name and leaves all others alone. */
  lemma EffectIsLocal(op: Op, sessions: seq<Session>, name: Name)
    requires OnePerName(sessions)
    ensures OnePerName(Effect(op, sessions))
    ensures Find(Effect(op, sessions), name) == if Touches(op, name) then Outcome(op) else Find(sessions, name)
  {
    match op
    case Keep =>
    case Remove(n) =>
      WithoutFinds(sessions, n, name);
      WithoutOnePerName(sessions, n);
    case Withdraw(n) =>
      WithoutFirstIs(sessions, n);
      WithoutFinds(sessions, n, name);
      WithoutOnePerName(sessions, n);
    case Record(s) =>
      WithoutFinds(sessions, s.name, name);
      WithoutOnePerName(sessions, s.name);
      FindLast(Without(sessions, s.name), s, name);
      OnePerNameLast(Without(sessions, s.name), s);
  }

  /** What the last operation on a name did. */
  function LastWord(log: seq<Op>, name: Name): Option<Op> {
    if log == [] then None
    else if Touches(log[|log| - 1], name) then Some(log[|log| - 1])
    else LastWord(log[..|log| - 1], name)
  }

  /** No update is lost: every name has the record that the last operation on it left. */
  lemma {:induction false} NoLostUpdate(sessions: seq<Session>, log: seq<Op>, name: Name)
    requires OnePerName(sessions)
    ensures OnePerName(Replay(sessions, log))
    ensures Find(Replay(sessions, log), name)
      == if LastWord(log, name).Some? then Outcome(LastWord(log, name).value) else Find(sessions, name)
  {
    if log != [] {
      var before := log[..|log| - 1];
      NoLostUpdate(sessions, before, name);
      EffectIsLocal(log[|log| - 1], Replay(sessions, before), name);
    }
  }
}
