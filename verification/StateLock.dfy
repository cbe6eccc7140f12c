/** The inter-process lock around the managed state: a directory made with mkdir, an
    owner record in it, and a rename into quarantine when it looks abandoned. Any number
    of contenders take their steps in any order; a contender is one acquisition. */
module StateLock {
  import opened Basics
  import opened ManagedState

  type Proc = nat
  type Time = int

  const STALE_MS: Time := 60000

  datatype LockDir = LockDir(madeAt: Time, owner: Option<Proc>)

  /** Where a contender stands in its operation. */
  datatype Place =
    | Idle
    | Wanting                                // about to mkdir
    | Checking                               // making it failed
    | Judging                                // the directory is there
    | SawStale                               // it looked abandoned
    | Renamed                                // it is in this contender's quarantine
    | Made                                   // mkdir succeeded, no owner record yet
    | Holding                                // the lock was returned
    | Loaded(seen: seq<Session>)             // the state file was read
    | Saved                                  // the new state is in place
    | Releasing                              // the owner record was found to be its own
    | Finished
    | Failed
    | Dead

  datatype World = World(lock: Option<LockDir>, quarantine: map<Proc, LockDir>, at: map<Proc, Place>, ops: Proc -> Op,
                         file: seq<Session>, clock: Time, log: seq<Op>)

  function Where(w: World, p: Proc): Place { if p in w.at then w.at[p] else Idle }

  /** Between mkdir and release, and alive. */
  predicate Critical(w: World, p: Proc) {
    match Where(w, p)
    case Made | Holding | Loaded(_) | Saved | Releasing => true
    case _ => false
  }

  /** Abandoned: its owner is no longer running, or it has had no owner record for long. */
  predicate LooksStale(w: World, d: LockDir) {
    if d.owner.Some? then Where(w, d.owner.value).Dead? else w.clock - d.madeAt > STALE_MS
  }

  datatype Step =
    | Start(p: Proc) | Mkdir(p: Proc) | Check(p: Proc) | Judge(p: Proc, giveUp: bool) | Rename(p: Proc) | Recheck(p: Proc)
    | WriteOwner(p: Proc, broken: bool) | Load(p: Proc) | Save(p: Proc) | ReadOwner(p: Proc) | Remove(p: Proc)
    | Die(p: Proc) | Tick(now: Time)

  predicate Enabled(w: World, s: Step) {
    match s
    case Start(p) => Where(w, p).Idle?
    case Mkdir(p) => Where(w, p).Wanting?
    case Check(p) => Where(w, p).Checking?
    case Judge(p, _) => Where(w, p).Judging?
    case Rename(p) => Where(w, p).SawStale?
    case Recheck(p) => Where(w, p).Renamed? && p in w.quarantine
    case WriteOwner(p, _) => Where(w, p).Made?
    case Load(p) => Where(w, p).Holding?
    case Save(p) => Where(w, p).Loaded?
    case ReadOwner(p) => Where(w, p).Saved?
    case Remove(p) => Where(w, p).Releasing?
    case Die(p) => !Where(w, p).Dead?
    case Tick(now) => now >= w.clock
  }

  function Go(w: World, p: Proc, place: Place): World { w.(at := w.at[p := place]) }

  /** What one step does. */
  function Next(w: World, s: Step): World
    requires Enabled(w, s)
  {
    match s
    case Start(p) => Go(w, p, Wanting)
    case Mkdir(p) =>
      if w.lock.None? then Go(w.(lock := Some(LockDir(w.clock, None))), p, Made) else Go(w, p, Checking)
    case Check(p) => Go(w, p, if w.lock.None? then Failed else Judging)
    case Judge(p, giveUp) =>
      // a directory gone meanwhile does not look abandoned
      if w.lock.Some? && LooksStale(w, w.lock.value) then Go(w, p, SawStale)
      else if giveUp then Go(w, p, Failed)
      else Go(w, p, Wanting)
    case Rename(p) =>
      if w.lock.None? then Go(w, p, Wanting)
      else Go(w.(lock := None, quarantine := w.quarantine[p := w.lock.value]), p, Renamed)
    case Recheck(p) =>
      var d := w.quarantine[p];
      if LooksStale(w, d) then Go(w.(quarantine := w.quarantine - {p}), p, Wanting)
      // renaming back replaces an empty directory but not one with an owner record
      else if w.lock.None? || w.lock.value.owner.None? then Go(w.(lock := Some(d), quarantine := w.quarantine - {p}), p, Wanting)
      else Go(w, p, Failed)
    case WriteOwner(p, broken) =>
      if w.lock.Some? && w.lock.value.owner.None? && !broken
      then Go(w.(lock := Some(w.lock.value.(owner := Some(p)))), p, Holding)
      // the directory is removed, and the contender looks whether there is another one
      else Go(w.(lock := None), p, Checking)
    case Load(p) => Go(w, p, Loaded(w.file))
    case Save(p) =>
      Go(w.(file := Effect(w.ops(p), w.at[p].seen), log := w.log + [w.ops(p)]), p, Saved)
    case ReadOwner(p) =>
      Go(w, p, if w.lock.Some? && w.lock.value.owner == Some(p) then Releasing else Finished)
    case Remove(p) => Go(w.(lock := None), p, Finished)
    case Die(p) => Go(w, p, Dead)
    case Tick(now) => w.(clock := now)
  }

  // ----- runs

  predicate Possible(w: World, run: seq<Step>)
    decreases |run|
  {
    run == [] || (Enabled(w, run[0]) && Possible(Next(w, run[0]), run[1..]))
  }
  function After(w: World, run: seq<Step>): World
    requires Possible(w, run)
    decreases |run|
  {
    if run == [] then w else After(Next(w, run[0]), run[1..])
  }

  /** Nobody has begun. */
  predicate Fresh(w: World) { w.lock.None? && w.quarantine == map[] && w.at == map[] && w.log == [] }

  /** At most one contender is between mkdir and release, and the file is what the
      operations made of it in the order in which they saved. */
  ghost predicate Exclusive(w: World, init: seq<Session>) {
    && (forall p, q | Critical(w, p) && Critical(w, q) :: p == q)
    && w.file == Replay(init, w.log)
  }

  // ----- the invariant

  ghost predicate Owned(w: World, p: Proc) {
    Critical(w, p) ==>
      && w.lock.Some? && w.lock.value.owner == (if Where(w, p).Made? then None else Some(p))
      && (Where(w, p).Loaded? ==> Where(w, p).seen == w.file)
  }
  ghost predicate Guarded(w: World, init: seq<Session>) {
    && Exclusive(w, init)
    && (forall p :: Owned(w, p))
    && (w.lock.Some? && w.lock.value.owner.Some? ==>
         Critical(w, w.lock.value.owner.value) || Where(w, w.lock.value.owner.value).Dead?)
    && (forall p | p in w.quarantine && w.quarantine[p].owner.Some? :: Where(w, w.quarantine[p].owner.value).Dead?)
  }

  /** A rename is harmless when nobody is between mkdir and release. */
  ghost predicate Harmless(w: World, s: Step) { s.Rename? ==> forall q :: !Critical(w, q) }

  lemma ReplayOne(init: seq<Session>, log: seq<Op>, op: Op)
    ensures Replay(init, log + [op]) == Effect(op, Replay(init, log))
  {
    assert (log + [op])[..|log|] == log;
  }

  lemma Moves(w: World, p: Proc, place: Place)
    ensures Where(Go(w, p, place), p) == place && forall q | q != p :: Where(Go(w, p, place), q) == Where(w, q)
  {}

  lemma Elsewhere(w: World, v: World)
    requires v.at == w.at
    ensures forall q :: Where(v, q) == Where(w, q) && Critical(v, q) == Critical(w, q)
  {}

  /** A contender that is outside stays outside. */
  lemma Aside(w: World, p: Proc, place: Place, init: seq<Session>)
    requires Guarded(w, init) && !Critical(w, p) && !Where(w, p).Dead?
    requires place.Wanting? || place.Checking? || place.Judging? || place.SawStale? || place.Failed?
    ensures Guarded(Go(w, p, place), init)
  {
    var v := Go(w, p, place);
    Moves(w, p, place);
    forall q ensures Owned(v, q) { assert Owned(w, q); }
    forall q | Critical(v, q) ensures Critical(w, q) {}
  }

  lemma MkdirGuarded(w: World, p: Proc, init: seq<Session>)
    requires Guarded(w, init) && Where(w, p).Wanting? && w.lock.None?
    ensures Guarded(Next(w, Mkdir(p)), init)
  {
    var v := Next(w, Mkdir(p));
    Moves(w.(lock := Some(LockDir(w.clock, None))), p, Made);
    forall q | q != p ensures !Critical(v, q) && Owned(v, q) { assert Owned(w, q); }
  }

  lemma RenameGuarded(w: World, p: Proc, init: seq<Session>)
    requires Guarded(w, init) && Where(w, p).SawStale? && w.lock.Some? && forall q :: !Critical(w, q)
    ensures Guarded(Next(w, Rename(p)), init)
  {
    var v := Next(w, Rename(p));
    Moves(w.(lock := None, quarantine := w.quarantine[p := w.lock.value]), p, Renamed);
    forall q ensures !Critical(v, q) { assert !Critical(w, q); }
  }

  lemma RecheckGuarded(w: World, p: Proc, init: seq<Session>)
    requires Guarded(w, init) && Enabled(w, Recheck(p))
    ensures Guarded(Next(w, Recheck(p)), init)
  {
    var d := w.quarantine[p];
    if LooksStale(w, d) {
      var u := w.(quarantine := w.quarantine - {p});
      Elsewhere(w, u);
      assert Guarded(u, init) by { forall q ensures Owned(u, q) { assert Owned(w, q); } }
      Aside(u, p, Wanting, init);
    } else if w.lock.None? || w.lock.value.owner.None? {
      var u := w.(lock := Some(d), quarantine := w.quarantine - {p});
      Elsewhere(w, u);
      assert Guarded(u, init) by { forall q ensures Owned(u, q) { assert Owned(w, q); } }
      Aside(u, p, Wanting, init);
    } else {
      Aside(w, p, Failed, init);
    }
  }

  /** What the one contender inside does to the lock is its own business. */
  lemma InsideGuarded(w: World, v: World, p: Proc, init: seq<Session>)
    requires Guarded(w, init) && Critical(w, p)
    requires forall q | q != p :: Where(v, q) == Where(w, q)
    requires v.quarantine == w.quarantine && v.file == Replay(init, v.log) && Owned(v, p)
    requires v.lock.Some? && v.lock.value.owner.Some? ==>
      v.lock.value.owner.value == p && (Critical(v, p) || Where(v, p).Dead?)
    ensures Guarded(v, init)
  {
    forall q | q != p ensures !Critical(v, q) && Owned(v, q) { assert Owned(w, q); assert !Critical(w, q); }
  }

  lemma DieGuarded(w: World, p: Proc, init: seq<Session>)
    requires Guarded(w, init)
    ensures Guarded(Go(w, p, Dead), init)
  {
    var v := Go(w, p, Dead);
    Moves(w, p, Dead);
    assert Owned(w, p);
    if Critical(w, p) {
      InsideGuarded(w, v, p, init);
    } else {
      forall q ensures Owned(v, q) { assert Owned(w, q); }
      forall q | Critical(v, q) ensures Critical(w, q) {}
    }
  }

  lemma WorkGuarded(w: World, s: Step, init: seq<Session>)
    requires Guarded(w, init) && Enabled(w, s) && (s.WriteOwner? || s.Load? || s.Save? || s.ReadOwner? || s.Remove?)
    ensures Guarded(Next(w, s), init)
  {
    var v := Next(w, s);
    assert Owned(w, s.p);
    if s.Save? { ReplayOne(init, w.log, w.ops(s.p)); }
    forall q | q != s.p ensures Where(v, q) == Where(w, q) {}
    InsideGuarded(w, v, s.p, init);
  }

  lemma GuardedStep(w: World, s: Step, init: seq<Session>)
    requires Guarded(w, init) && Enabled(w, s) && Harmless(w, s)
    ensures Guarded(Next(w, s), init)
  {
    var v := Next(w, s);
    match s
    case Start(p) => Aside(w, p, Wanting, init);
    case Mkdir(p) => if w.lock.None? { MkdirGuarded(w, p, init); } else { Aside(w, p, Checking, init); }
    case Check(p) => Aside(w, p, Where(v, p), init);
    case Judge(p, _) => Aside(w, p, Where(v, p), init);
    case Rename(p) => if w.lock.None? { Aside(w, p, Wanting, init); } else { RenameGuarded(w, p, init); }
    case Recheck(p) => RecheckGuarded(w, p, init);
    case Tick(now) =>
      Elsewhere(w, v);
      forall q ensures Owned(v, q) { assert Owned(w, q); }
    case Die(p) => DieGuarded(w, p, init);
    case _ => WorkGuarded(w, s, init);
  }

  /** No rename of the run falls between somebody's mkdir and release. */
  ghost predicate Gentle(w: World, run: seq<Step>)
    requires Possible(w, run)
    decreases |run|
  {
    run == [] || (Harmless(w, run[0]) && Gentle(Next(w, run[0]), run[1..]))
  }

  lemma {:induction false} GuardedRun(w: World, run: seq<Step>, init: seq<Session>)
    requires Guarded(w, init) && Possible(w, run) && Gentle(w, run)
    ensures Guarded(After(w, run), init)
    decreases |run|
  {
    if run != [] {
      GuardedStep(w, run[0], init);
      GuardedRun(Next(w, run[0]), run[1..], init);
    }
  }

  /** Mutual exclusion and no lost update, holders dying or not, as long as every rename
      is harmless. */
  lemma MutualExclusion(w: World, run: seq<Step>)
    requires Fresh(w) && Possible(w, run) && Gentle(w, run)
    ensures Exclusive(After(w, run), w.file)
  {
    GuardedRun(w, run, w.file);
  }

  // ----- runs in which no holder dies

  /** Nobody dies between mkdir and release, and an owner record is written in time. */
  ghost predicate Calm(w: World, s: Step) {
    && (s.Die? ==> !Critical(w, s.p))
    && (s.Tick? && w.lock.Some? && w.lock.value.owner.None? ==> s.now - w.lock.value.madeAt <= STALE_MS)
  }
  ghost predicate CalmRun(w: World, run: seq<Step>)
    requires Possible(w, run)
    decreases |run|
  {
    run == [] || (Calm(w, run[0]) && CalmRun(Next(w, run[0]), run[1..]))
  }

  /** Then no lock ever looks abandoned. */
  ghost predicate Lively(w: World) {
    && w.quarantine == map[]
    && (forall p :: !Where(w, p).SawStale? && !Where(w, p).Renamed?)
    && (w.lock.Some? ==> if w.lock.value.owner.Some? then Critical(w, w.lock.value.owner.value) else w.clock - w.lock.value.madeAt <= STALE_MS)
  }

  lemma LivelyStep(w: World, s: Step, init: seq<Session>)
    requires Guarded(w, init) && Lively(w) && Enabled(w, s) && Calm(w, s)
    ensures Harmless(w, s) && Lively(Next(w, s))
  {
    var v := Next(w, s);
    if s.Tick? {
      Elsewhere(w, v);
    } else {
      assert Owned(w, s.p);
      forall q | q != s.p ensures Where(v, q) == Where(w, q) {}
      if w.lock.Some? && w.lock.value.owner.Some? { assert Owned(w, w.lock.value.owner.value); }
    }
  }

  lemma {:induction false} CalmIsGentle(w: World, run: seq<Step>, init: seq<Session>)
    requires Guarded(w, init) && Lively(w) && Possible(w, run) && CalmRun(w, run)
    ensures Gentle(w, run)
    decreases |run|
  {
    if run != [] {
      LivelyStep(w, run[0], init);
      GuardedStep(w, run[0], init);
      CalmIsGentle(Next(w, run[0]), run[1..], init);
    }
  }

  /** Any number of contenders in any order: if no holder dies and owner records are
      written in time, they exclude each other, the file is the effects in lock order, and
      every name has the record of the last operation on it. */
  lemma SerialWhileHoldersLive(w: World, run: seq<Step>, name: Name)
    requires Fresh(w) && Possible(w, run) && CalmRun(w, run) && OnePerName(w.file)
    ensures Exclusive(After(w, run), w.file)
    ensures var last := LastWord(After(w, run).log, name);
      Find(After(w, run).file, name) == if last.Some? then Outcome(last.value) else Find(w.file, name)
  {
    CalmIsGentle(w, run, w.file);
    MutualExclusion(w, run);
    NoLostUpdate(w.file, After(w, run).log, name);
  }

  // ----- when a rename is not harmless

  lemma {:induction false} Unused(used: set<Proc>) returns (r: Proc)
    ensures r !in used && forall q | q in used :: q < r
    decreases used
  {
    if used == {} {
      r := 0;
    } else {
      var q :| q in used;
      var r' := Unused(used - {q});
      r := if q < r' then r' else q + 1;
      forall x | x in used ensures x < r { if x != q { assert x in used - {q}; } }
    }
  }

  /** Taking away the lock of a contender that is inside lets a further one in. */
  lemma RenameBreaks(w: World, p: Proc, q: Proc, init: seq<Session>) returns (run: seq<Step>)
    requires Where(w, p).SawStale? && w.lock.Some? && Critical(w, q)
    ensures |run| > 0 && run[0] == Rename(p) && Possible(w, run) && !Exclusive(After(w, run), init)
    ensures Gentle(Next(w, run[0]), run[1..])
  {
    var r := Unused(w.at.Keys + {p, q});
    var w1 := Next(w, Rename(p));
    var w2 := Next(w1, Start(r));
    var w3 := Next(w2, Mkdir(r));
    run := [Rename(p), Start(r), Mkdir(r)];
    assert run[1..] == [Start(r), Mkdir(r)] && [Start(r), Mkdir(r)][1..] == [Mkdir(r)] && |[Mkdir(r)][1..]| == 0;
    assert Possible(w3, [Mkdir(r)][1..]);
    assert Possible(w2, [Mkdir(r)]) && Possible(w1, [Start(r), Mkdir(r)]);
    assert After(w2, [Mkdir(r)]) == w3 && After(w1, [Start(r), Mkdir(r)]) == w3;
    assert Gentle(w2, [Mkdir(r)]) && Gentle(w1, [Start(r), Mkdir(r)]);
    assert After(w, run) == w3;
    assert Critical(w3, q) && Critical(w3, r) && q != r;
  }

  /** Exclusion holds from here on in every run without a harmful rename. */
  ghost predicate StaysExclusive(w: World, init: seq<Session>) {
    forall run: seq<Step> | Possible(w, run) && Gentle(w, run) :: Exclusive(After(w, run), init)
  }

  /** For a contender that is about to rename a lock: exclusion survives the rename in
      every continuation without another harmful one, exactly if nobody is inside. */
  lemma RenameSafeExactlyWhenHarmless(w: World, p: Proc, init: seq<Session>)
    requires Guarded(w, init) && Where(w, p).SawStale? && w.lock.Some?
    ensures StaysExclusive(Next(w, Rename(p)), init) <==> Harmless(w, Rename(p))
  {
    var v := Next(w, Rename(p));
    if Harmless(w, Rename(p)) {
      GuardedStep(w, Rename(p), init);
      forall run: seq<Step> | Possible(v, run) && Gentle(v, run) ensures Exclusive(After(v, run), init) {
        GuardedRun(v, run, init);
      }
    } else {
      var q :| Critical(w, q);
      var run := RenameBreaks(w, p, q, init);
      var rest := run[1..];
      assert Possible(v, rest) && Gentle(v, rest) && !Exclusive(After(v, rest), init);
    }
  }

  // ----- a lost update

  lemma {:induction false} OneMore(w: World, run: seq<Step>, s: Step)
    requires Possible(w, run) && Enabled(After(w, run), s)
    ensures Possible(w, run + [s]) && After(w, run + [s]) == Next(After(w, run), s)
    decreases |run|
  {
    if run == [] {
      assert run + [s] == [s] && |[s][1..]| == 0;
    } else {
      assert (run + [s])[1..] == run[1..] + [s];
      OneMore(Next(w, run[0]), run[1..], s);
    }
  }

  /** The whole critical path of a contender that finds no lock. */
  lemma Enters(w: World, run: seq<Step>, p: Proc) returns (more: seq<Step>)
    requires Possible(w, run) && Where(After(w, run), p).Idle? && After(w, run).lock.None?
    ensures Possible(w, more)
    ensures var v := After(w, run);
      After(w, more) == v.(lock := Some(LockDir(v.clock, Some(p))), at := v.at[p := Holding])
  {
    more := run;
    OneMore(w, more, Start(p));
    more := more + [Start(p)];
    OneMore(w, more, Mkdir(p));
    more := more + [Mkdir(p)];
    OneMore(w, more, WriteOwner(p, false));
    more := more + [WriteOwner(p, false)];
    assert After(w, more).at == After(w, run).at[p := Holding];
  }

  /** A contender finds a lock whose owner has died. */
  lemma SeesDeadOwner(w: World, run: seq<Step>, p: Proc) returns (more: seq<Step>)
    requires Possible(w, run) && Where(After(w, run), p).Idle?
    requires var v := After(w, run);
      v.lock.Some? && v.lock.value.owner.Some? && v.lock.value.owner.value != p && Where(v, v.lock.value.owner.value).Dead?
    ensures Possible(w, more)
    ensures After(w, more) == After(w, run).(at := After(w, run).at[p := SawStale])
  {
    more := run;
    OneMore(w, more, Start(p));
    more := more + [Start(p)];
    OneMore(w, more, Mkdir(p));
    more := more + [Mkdir(p)];
    OneMore(w, more, Check(p));
    more := more + [Check(p)];
    OneMore(w, more, Judge(p, false));
    more := more + [Judge(p, false)];
    assert After(w, more).at == After(w, run).at[p := SawStale];
  }

  /** A holder dies, and two contenders see it. */
  lemma TwoSeeDeadOwner(w: World) returns (run: seq<Step>)
    requires Fresh(w)
    ensures Possible(w, run)
    ensures After(w, run) == w.(lock := Some(LockDir(w.clock, Some(0))),
                                at := map[0 := Dead, 1 := SawStale, 2 := SawStale])
  {
    run := Enters(w, [], 0);
    OneMore(w, run, Die(0));
    run := run + [Die(0)];
    run := SeesDeadOwner(w, run, 1);
    run := SeesDeadOwner(w, run, 2);
    assert After(w, run).at == map[0 := Dead, 1 := SawStale, 2 := SawStale];
  }

  /** The first of them clears the dead lock away. */
  lemma DeadLockCleared(w: World) returns (run: seq<Step>)
    requires Fresh(w)
    ensures Possible(w, run)
    ensures After(w, run) == w.(at := map[0 := Dead, 1 := Wanting, 2 := SawStale])
  {
    run := TwoSeeDeadOwner(w);
    OneMore(w, run, Rename(1));
    run := run + [Rename(1)];
    OneMore(w, run, Recheck(1));
    run := run + [Recheck(1)];
    assert After(w, run).at == map[0 := Dead, 1 := Wanting, 2 := SawStale];
  }

  /** It goes in, and the second, still acting on what it saw, takes the new lock away. */
  lemma LockTakenAway(w: World) returns (run: seq<Step>)
    requires Fresh(w)
    ensures Possible(w, run)
    ensures After(w, run)
      == w.(quarantine := map[2 := LockDir(w.clock, Some(1))], at := map[0 := Dead, 1 := Loaded(w.file), 2 := Renamed])
  {
    run := DeadLockCleared(w);
    OneMore(w, run, Mkdir(1));
    run := run + [Mkdir(1)];
    OneMore(w, run, WriteOwner(1, false));
    run := run + [WriteOwner(1, false)];
    OneMore(w, run, Load(1));
    run := run + [Load(1)];
    OneMore(w, run, Rename(2));
    run := run + [Rename(2)];
    assert After(w, run).at == map[0 := Dead, 1 := Loaded(w.file), 2 := Renamed];
  }

  /** One dead holder and three contenders: two of them are inside at once, both read the
      same list, and the record of the first to save is gone. */
  lemma LostUpdate(w: World, a: Session, b: Session) returns (run: seq<Step>)
    requires Fresh(w) && w.file == [] && a.name != b.name && w.ops(1) == Record(a) && w.ops(3) == Record(b)
    ensures Possible(w, run)
    ensures After(w, run).log == [Record(a), Record(b)] && Find(After(w, run).file, a.name) == None
  {
    run := LockTakenAway(w);
    run := Enters(w, run, 3);
    OneMore(w, run, Load(3));
    run := run + [Load(3)];
    OneMore(w, run, Save(1));
    run := run + [Save(1)];
    OneMore(w, run, Save(3));
    run := run + [Save(3)];
    assert After(w, run).file == [b];
  }
}
