/** Runs of the bridge that show where a promise fails; the exact conditions are
    `Bridge.Linkable`, `Bridge.Strands` and `BridgeHistory.Overtaken`. */
module BridgeCases {
  import opened Basics
  import opened BridgeTypes
  import opened BridgeHistory
  import opened BridgeInvariant
  import opened Bridge
  import opened BridgeRuns

  const TARGET: TargetId := 7
  const WATCH: WatchId := 9
  const WHOLE: Write := Write(4, [])
  const BROKEN: Write := Write(0, [])

  /** The lease of binding 0, and how the terminal shows it. */
  function LeaseFor(process: nat, id: nat): Lease {
    Lease(TARGET, 1, id, id, Owner(Feishu, ForBinding(0, process)), 1000000)
  }
  function Holding(id: nat): View { View(TARGET, 1, Held, Some(Feishu), id, None, None, id) }
  const FREE: View := View(TARGET, 1, Free, None, 0, None, None, 0)
  function Granting(process: nat, id: nat): Grant { Grant(Some(LeaseFor(process, id)), Holding(id)) }
  /** One look at the agent under lease `id`. */
  function Looking(id: nat, source: Option<Source>): Observation {
    Observation(TARGET, Corr(1, id, id, id), Feishu, source.Some?, source)
  }
  function Looks(id: nat, source: Option<Source>, newId: WatchId): Sight {
    Sight(Got(Holding(id)), Got(Looking(id, source)), newId)
  }
  /** The terminal is free, and its lease is granted. */
  const OFFER: LinkAnswers := LinkAnswers(true, Got(FREE), None, Got(FREE), Got(Granting(1, 1)))

  /** Links chat 3 to the terminal; the first look finds the agent as given. */
  method Linked(source: Option<Source>) returns (f: FeishuBridge)
    ensures fresh(f) && f.Inv() && f.process == 1 && f.leases == map[0 := LeaseFor(1, 1)] && Working(f.turns, 0).None?
    ensures f.bindings == map[0 := Binding(3, TARGET, 1, Topic, Active,
      Some(FirstSight(Binding(3, TARGET, 1, Topic, Active, None, None), LeaseFor(1, 1), Looks(1, source, WATCH), 0)),
      None)]
    ensures DiskBindings(f.history) == f.bindings && BoundWatches(f.history) <= {WATCH}
    ensures f.turns == [] && f.replies == [] && f.eventIds == [] && f.inFlight == {}
  {
    f := new FeishuBridge();
    EmptyLists(f.bindings);
    var r := f.CreateBinding(0, 3, 1, Topic, OFFER, Looks(1, source, WATCH), 0, (i: nat) => WHOLE);
    assert f.process == 1;
    assert CanWatch(Binding(3, TARGET, 1, Topic, Active, None, None), LeaseFor(1, 1), Looks(1, source, WATCH));
    assert r.Done?;
    assert f.bindings - {0} == map[] && f.leases - {0} == map[];
  }

  lemma EmptyLists(bindings: map<BindingId, Binding>)
    requires bindings == map[]
    ensures Calm([], bindings) && Short([], [])
    ensures forall e {:trigger EventsShortened([], e)} :: EventsShortened([], e) ==> e == []
  {
    forall e: seq<EventId> | EventsShortened([], e) ensures e == [] { assert OpenLists(0); }
  }

  /** The first write of a new binding fails after its lease was granted: it stays, active and
      without a lease. */
  method UnleasedFromTheStart() returns (f: FeishuBridge, script: seq<Command>, ghost trace: seq<State>)
    ensures f.Inv() && |trace| == |script| + 1 && Leased(trace[0]) && !Leased(trace[|script|])
    ensures forall i | 0 <= i < |script| :: Legal(trace[i], trace[i + 1])
  {
    f := new FeishuBridge();
    script := [OnBinding(Create(0, 3, 1, Topic, OFFER, Looks(1, None, WATCH), 0, (i: nat) => BROKEN))];
    trace := Run(f, script);
    assert Breaks(script[0], trace[0]);
  }

  /** A confirmed handoff cannot be stored, and the authority then says that Feishu still holds
      the terminal: the binding goes on, active and without a lease. */
  method UnleasedByHandover() returns (f: FeishuBridge)
    ensures f.Inv() && 0 in f.bindings && f.bindings[0].status.Active? && 0 !in f.leases
  {
    f := Linked(None);
    var draining := View(TARGET, 1, Draining, Some(Feishu), 1, Some(Dashboard), Some(4), 1);
    var given := Grant(Some(Lease(TARGET, 1, 2, 2, Owner(Dashboard, OtherInstance(0)), 1000000)),
                       View(TARGET, 1, Held, Some(Dashboard), 2, None, None, 1));
    assert Strands(f.bindings[0], f.leases[0], true, Got(draining), Got(given), Got(Holding(1)), 1, WHOLE, BROKEN);
    var _ := f.ReconcileHandoff(0, Got(draining), Got(given), Got(Holding(1)), 1, WHOLE, BROKEN, WHOLE);
  }

  const ONE: Source := Source(1, 0)
  const TWO: Source := Source(2, 0)
  /** Binding 0 with its watch. */
  function Watched(status: BindingStatus, w: Watch): Binding { Binding(3, TARGET, 1, Topic, status, Some(w), None) }
  /** The watch that knows the first source: as armed, and as it waits for the agent to stay idle. */
  const ARMED: Watch := Watch(WATCH, WatchStatus.Armed, 1, 1, 1, 1, Some(ONE), Some(0), None)
  const STOPPING: Watch := Watch(WATCH, WatchStatus.StopCandidate, 1, 2, 2, 2, Some(ONE), Some(0), Some(3000))

  /** The agent is seen under a second source, and that cannot be stored. */
  method SecondSource() returns (f: FeishuBridge)
    ensures fresh(f) && f.Steady() && f.process == 1
    ensures LatestSeen(f.history, WATCH) == Some(2) && BoundWatches(f.history) <= {WATCH}
      && DiskBindings(f.history) == map[0 := Watched(Active, ARMED)]
  {
    f := Linked(Some(ONE));
    assert f.bindings[0] == Watched(Active, ARMED);
    f.PollWatch(0, Got(Looking(1, Some(TWO))), Got(Holding(1)), Got(AgentResult(TARGET, Corr(1, 1, 1, 1), Feishu, TWO)),
                1000, BROKEN);
  }

  /** The process dies, and the next one starts from the files. */
  method NextProcess(f: FeishuBridge)
    requires f.Steady() && f.process == 1
    requires LatestSeen(f.history, WATCH) == Some(2) && BoundWatches(f.history) <= {WATCH}
      && DiskBindings(f.history) == map[0 := Watched(Active, ARMED)]
    modifies f
    ensures f.Inv() && f.process == 2
    ensures LatestSeen(f.history, WATCH) == Some(2) && BoundWatches(f.history) <= {WATCH}
      && f.bindings == map[0 := Watched(Stale, ARMED)]
  {
    var h := f.history;
    f.Restart(h, Quarantine(false, false, false, false), 2000, WHOLE);
    WritesSeeNothing(Then(h, Woke(2)), f.history, WATCH);
    WritesBindNothing(Then(h, Woke(2)), f.history);
  }

  /** The binding is repaired; the agent is idle. */
  method Repaired(f: FeishuBridge)
    requires f.Inv() && f.process == 2
    requires LatestSeen(f.history, WATCH) == Some(2) && BoundWatches(f.history) <= {WATCH}
      && f.bindings == map[0 := Watched(Stale, ARMED)]
    modifies f
    ensures f.Inv() && f.process == 2
    ensures LatestSeen(f.history, WATCH) == Some(2) && 0 in f.bindings && f.bindings[0] == Watched(Active, STOPPING)
    ensures 0 in f.leases && f.leases[0] == LeaseFor(2, 2)
  {
    var r := f.RepairBinding(0, Got(TARGET), Got(FREE), true, Got(Granting(2, 2)), Looks(2, None, WATCH + 1), 3000,
                             WHOLE, WHOLE);
    assert f.process == 2;
    assert CanWatch(Watched(Stale, ARMED), LeaseFor(2, 2), Looks(2, None, WATCH + 1));
  }

  /** The agent is seen under a new source, that cannot be stored, and the process dies. The next
      one, after a repair, captures the result of the old source. */
  method CaptureOfAnOldSource() returns (f: FeishuBridge, ghost p: History)
    ensures f.Inv() && Earlier(Then(p, Captured(WATCH, 5000, Corr(1, 2, 2, 2), ONE)), f.history)
    ensures LatestSeen(p, WATCH) == Some(2) && Overtaken(p, WATCH)
  {
    f := SecondSource();
    NextProcess(f);
    Repaired(f);
    ghost var before := f.history;
    f.PollWatch(0, Got(Looking(2, None)), Got(Holding(2)), Got(AgentResult(TARGET, Corr(1, 2, 2, 2), Feishu, ONE)),
                5000, WHOLE);
    p := Then(before, Seen(WATCH, 5000, false, 0));
    WritesAreLater(Then(p, Captured(WATCH, 5000, Corr(1, 2, 2, 2), ONE)), f.history);
    LawfulNow(f);
    CapturesCovered(f.history, p, WATCH, 5000, Corr(1, 2, 2, 2), ONE);
  }

  lemma {:induction false} WritesAreLater(p: History, h: History)
    requires OnlyWrites(p, h)
    ensures Earlier(p, h)
  {
    if p != h { WritesAreLater(p, h.prev); }
  }
  lemma LawfulNow(f: FeishuBridge)
    requires f.Inv()
    ensures Lawful(f.history)
  {
    assert OpenInv(0) && OpenWork(0);
  }
}
