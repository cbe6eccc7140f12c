/** Whole runs of the bridge: any script of commands, with any answers from outside, with
    the lanes interleaved in any way and with crashes at any point. */
module BridgeRuns {
  import opened Basics
  import opened BridgeTypes
  import opened BridgeHistory
  import opened BridgeInvariant
  import opened Bridge
  import opened Lineage
  import opened Retention

  datatype BindingCommand =
    | Create(b: BindingId, chat: ChatId, session: nat, mode: ReplyMode, answers: LinkAnswers, sight: Sight, now: Time,
             w: Writes)
    | Mode(b: BindingId, mode: ReplyMode, w: Writes)
    | Pause(b: BindingId, force: bool, release: Answer<View>, now: Time, w: Writes)
    | Resume(b: BindingId, capable: bool, resolved: Answer<TargetId>, grant: Answer<Grant>, sight: Sight, now: Time,
             w: Writes)
    | Repair(b: BindingId, capable: bool, resolved: Answer<TargetId>, status: Answer<View>, grant: Answer<Grant>,
             sight: Sight, now: Time, w: Writes)
    | Remove(b: BindingId, force: bool, release: Answer<View>, status: Answer<View>, resolved: Answer<TargetId>,
             again: Answer<View>, now: Time, w: Writes)
    | Takeover(b: BindingId, owner: Instance, force: bool, begin: Answer<View>, grant: Answer<Grant>, now: Time,
               w: Writes)
    | Return(b: BindingId, local: Lease, status: Answer<View>, capable: bool, begin: Answer<View>, grant: Answer<Grant>,
             sight: Sight, now: Time, w: Writes)
    | EndTarget(b: BindingId, status: Answer<View>, resolved: Answer<TargetId>, again: Answer<View>, now: Time,
                w: Writes)
    | Handover(b: BindingId, status: Answer<View>, grant: Answer<Grant>, latest: Answer<View>, now: Time, w: Writes)

  datatype LaneCommand =
    | Event(b: BindingId, event: EventId, message: MessageId, screen: Screening, status: Answer<View>,
            receipt: Answer<Receipt>, k: HandoffAnswers, now: Time, w: Writes)
    | Poll(b: BindingId, poll: PollAnswers, now: Time, w: Writes)
    | Watching(b: BindingId, look: Answer<Observation>, before: Answer<View>, result: Answer<AgentResult>, now: Time,
               w: Writes)
    | Verdict(b: BindingId, watch: WatchId, verdict: CardVerdict, w: Writes)
    | RenewalOut(b: BindingId)
    | RenewalBack(b: BindingId, issued: Lease, answer: Answer<Grant>, now: Time, w: Writes)
    | CardOut(id: AttemptId, w: Writes)
    | CardBack(id: AttemptId, confirmed: bool, now: Time, w: Writes)
    | Shutdown(order: seq<BindingId>, releases: map<BindingId, Answer<View>>, now: Time, w: Writes)

  /** A crash undoes the last `back` acts of the operation that was running. */
  datatype Command = OnBinding(binding: BindingCommand) | OnLane(lane: LaneCommand) | Crash(back: nat, lost: Quarantine,
                                                                                            now: Time, w: Writes)

  // ----- what a step may do

  datatype State = State(process: nat, bindings: map<BindingId, Binding>, leases: map<BindingId, Lease>,
                         turns: seq<Turn>, replies: seq<Reply>, events: seq<EventId>, queued: set<AttemptId>,
                         inFlight: set<AttemptId>,
                         renewals: set<Lease>, history: History, stuck: set<TurnId>)

  /** Turns and replies move as they may, no turn is finished and no reply marked sent,
      and at most one turn starts, for an event not remembered before. */
  ghost predicate Ordinary(a: State, b: State) {
    && b.process == a.process
    && exists start: Option<TurnId> :: (start.Some? ==> start.value.event !in a.events)
         && Moved(Base(a.process, a.turns, a.replies, a.history, start), b.turns, b.replies, b.history)
  }
  /** Where the rest of a delivery begins: the reply is marked sent, and the turn it answers is finished. */
  function AfterDelivery(a: State, j: nat, now: Time): Base
    requires j < |a.replies|
  {
    var sent := a.replies[j := a.replies[j].(status := ReplyStatus.Sent)];
    Base(a.process, Finished(a.turns, a.replies[j].body, now), sent, a.history, None)
  }
  /** First one prepared reply is marked sent and the turn it answers is finished with it;
      the rest is ordinary. */
  ghost predicate Delivery(a: State, b: State) {
    && b.process == a.process
    && exists j: nat, now: Time :: j < |a.replies| && a.replies[j].status.Prepared?
         && Moved(AfterDelivery(a, j, now), b.turns, b.replies, b.history)
  }
  /** Where a new process begins. */
  function FromFiles(process: nat, h: History): Base {
    Base(process, DiskTurns(h), DiskReplies(h), Then(h, Woke(process)), None)
  }
  /** A new process starts from the files as some earlier point of the history left them. */
  ghost predicate Restarted(a: State, b: State) {
    && b.process == a.process + 1 && b.leases == map[]
    && exists cut: History, lost: Quarantine :: Earlier(cut, a.history)
         && Moved(FromFiles(b.process, SetAside(cut, lost)), b.turns, b.replies, b.history)
  }
  ghost predicate Legal(a: State, b: State) { Ordinary(a, b) || Delivery(a, b) || Restarted(a, b) }

  ghost predicate Leased(s: State) { Backed(s.bindings, s.leases) }

  /** What holds in every state of every run. */
  ghost predicate Sound(s: State) {
    && SingleLive(s.turns)
    && Unique(s.replies, ReplyKey)
    && LeasesFit(s.bindings, s.leases, s.process)
    && ChatsDistinct(s.bindings)
    && Lawful(s.history)
    && UnderWay(s.turns, s.replies, s.stuck)
  }

  ghost function StateOf(f: FeishuBridge): State
    reads f
  {
    State(f.process, f.bindings, f.leases, f.turns, f.replies, f.eventIds, f.queued, f.inFlight, f.renewals, f.history,
          f.stuck)
  }

  lemma InvSound(f: FeishuBridge)
    requires f.Inv()
    ensures Sound(StateOf(f))
  {
    assert OpenInv(0) && OpenBindings(0) && OpenWork(0);
  }

  lemma IsOrdinary(a: State, b: State, base: Base)
    requires b.process == a.process && base == Base(a.process, a.turns, a.replies, a.history, base.incoming)
    requires base.incoming.Some? ==> base.incoming.value.event !in a.events
    requires Moved(base, b.turns, b.replies, b.history)
    ensures Legal(a, b)
  {
    var start := base.incoming;
    assert Moved(Base(a.process, a.turns, a.replies, a.history, start), b.turns, b.replies, b.history);
  }

  lemma IsDelivery(a: State, b: State, j: nat, now: Time)
    requires b.process == a.process && j < |a.replies| && a.replies[j].status.Prepared?
    requires Moved(AfterDelivery(a, j, now), b.turns, b.replies, b.history)
    ensures Legal(a, b)
  {}

  lemma IsRestarted(a: State, b: State, cut: History, lost: Quarantine)
    requires b.process == a.process + 1 && b.leases == map[] && Earlier(cut, a.history)
    requires Moved(FromFiles(b.process, SetAside(cut, lost)), b.turns, b.replies, b.history)
    ensures Legal(a, b)
  {}

  /** A binding is active without holding a lease. */
  predicate Bare(s: State, b: BindingId) { b in s.bindings && s.bindings[b].status.Active? && b !in s.leases }

  lemma BackedUnlessBare(b: BindingId, x: State, y: State)
    requires y.bindings - {b} == x.bindings - {b} && y.leases - {b} == x.leases - {b}
    ensures Backed(x.bindings, x.leases) ==> (Backed(y.bindings, y.leases) <==> !Bare(y, b))
  {
    if Backed(x.bindings, x.leases) && !Bare(y, b) { BackedStill(x.bindings, x.leases, y.bindings, y.leases, b); }
  }

  // ----- steps

  /** The command leaves a binding active without a lease: a new one whose first write fails
      after its lease was granted, or an idle one whose handoff cannot be stored after its commit
      was confirmed while the authority says that Feishu still holds the terminal. */
  predicate Breaks(c: Command, s: State) {
    match c
    case OnBinding(Create(b, chat, _, _, a, sight, now, w)) =>
      && b !in s.bindings && (forall l | l in s.renewals :: l.owner != Owner(Feishu, ForBinding(b, s.process)))
      && sight.newId !in BoundWatches(s.history)
      && Linkable(s.bindings, Owner(Feishu, ForBinding(b, s.process)), chat, a, now)
      && a.dashboard.None? && w(0).files < 4
    case OnBinding(Handover(b, status, grant, latest, now, w)) =>
      && b in s.bindings && b in s.leases && Owning(s.bindings[b].status)
      && Strands(s.bindings[b], s.leases[b], Working(s.turns, b).None?, status, grant, latest, now, w(0), w(1))
    case OnLane(Event(b, event, _, screen, status, receipt, k, now, w)) =>
      && b in s.bindings && b in s.leases && s.bindings[b].status.Active? && event !in s.events && screen.Admitted?
      && EventStrands(s.bindings[b], s.leases[b], s.turns, b, status, receipt, k, now, w(0), w(1))
    case _ => false
  }

  // ----- which turns wait for a reply in vain

  /** The attempt is on record and prepared. */
  predicate Pending(s: State, id: AttemptId) {
    FindReply(s.replies, id).Some? && s.replies[FindReply(s.replies, id).value].status.Prepared?
  }
  /** The delivery lane takes up an attempt that it can only give up. */
  predicate GivesUp(s: State, id: AttemptId) {
    id in s.queued && id !in s.inFlight && Pending(s, id) && !Deliverable(s.turns, s.replies[FindReply(s.replies, id).value].body)
  }
  /** The turns once the answer about a card is in. */
  function TurnsAfter(s: State, id: AttemptId, confirmed: bool, now: Time): seq<Turn>
    requires Pending(s, id)
  {
    var body := s.replies[FindReply(s.replies, id).value].body;
    if confirmed then Finished(s.turns, body, now) else WithLost(s.turns, Answered(s.turns, body), now)
  }

  /** How a command changes the stuck turns: those replying while their reply is not prepared. */
  ghost predicate StuckStep(c: Command, a: State, b: State) {
    match c
    case OnLane(Poll(x, k, _, _)) =>
      PollSticks(a.turns, a.replies, a.stuck, b.turns, b.stuck, x,
                 x in a.leases && PollsDirectly(Working(a.turns, x), a.leases[x], k))
    case OnLane(CardOut(id, _)) => b.stuck == if GivesUp(a, id) then Settling(a.turns, a.stuck, id) else a.stuck
    case OnLane(CardBack(id, confirmed, now, _)) =>
      b.stuck == if id in a.inFlight && Pending(a, id) then Settling(TurnsAfter(a, id, confirmed, now), a.stuck, id) else a.stuck
    case Crash(_, _, _, _) => b.stuck == {}
    case _ => b.stuck == a.stuck
  }

  /** The command may leave this turn stuck: a poll of it while a settled reply of its id is on
      record, or a card whose attempt is settled while the turn goes on replying. */
  ghost predicate Jams(c: Command, a: State, id: TurnId) {
    match c
    case OnLane(Poll(x, _, _, _)) =>
      && Working(a.turns, x).Some? && Working(a.turns, x).value.id == id && Working(a.turns, x).value.status.Awaiting?
      && HasSettled(a.replies, ReplyTo(id))
    case OnLane(CardOut(card, _)) => card == ReplyTo(id) && GivesUp(a, card) && IsReplying(a.turns, id)
    case OnLane(CardBack(card, confirmed, now, _)) =>
      card == ReplyTo(id) && card in a.inFlight && Pending(a, card) && IsReplying(TurnsAfter(a, card, confirmed, now), id)
    case _ => false
  }

  /** A poll that stores something before the turn's reply: a settled reply may leave the memory then. */
  ghost predicate StoresFirst(c: Command, a: State) {
    c.OnLane? && c.lane.Poll? && !(c.lane.b in a.leases && PollsDirectly(Working(a.turns, c.lane.b), a.leases[c.lane.b], c.lane.poll))
  }

  /** A replying turn that was not stuck is left without a prepared reply only so, and always
      then, except by a poll that stores something first. */
  lemma StuckExactly(c: Command, a: State, b: State, t: Turn)
    requires StuckStep(c, a, b) && Sound(b) && t in b.turns && t.status.Replying? && t.id !in a.stuck
    ensures ReplyTo(t.id) !in PreparedIds(b.replies) ==> Jams(c, a, t.id)
    ensures !StoresFirst(c, a) ==> (ReplyTo(t.id) !in PreparedIds(b.replies) <==> Jams(c, a, t.id))
  {
    WorkingIs(b.turns, t);
  }

  lemma FirstStuck(c: Command, a: State, b: State)
    requires StuckStep(c, a, b) && a.stuck == {}
    ensures b.stuck != {} ==> exists id :: Jams(c, a, id)
  {
    if b.stuck != {} {
      var id :| id in b.stuck;
      assert Jams(c, a, id);
    }
  }
  /** In a run in which no command does that, every replying turn has its reply prepared. */
  lemma AllUnderWay(trace: seq<State>, script: seq<Command>)
    requires |trace| == |script| + 1 && trace[0].stuck == {} && forall s | s in trace :: Sound(s)
    requires forall i | 0 <= i < |script| :: StuckStep(script[i], trace[i], trace[i + 1]) && forall id :: !Jams(script[i], trace[i], id)
    ensures forall s, t | s in trace && t in s.turns && t.status.Replying? :: ReplyTo(t.id) in PreparedIds(s.replies)
  {
    var i := 0;
    while i < |script|
      invariant 0 <= i <= |script| && forall k | 0 <= k <= i :: trace[k].stuck == {}
    {
      FirstStuck(script[i], trace[i], trace[i + 1]);
      i := i + 1;
    }
    forall s, t | s in trace && t in s.turns && t.status.Replying? ensures ReplyTo(t.id) in PreparedIds(s.replies) {
      assert Sound(s);
    }
  }

  method StepBinding(f: FeishuBridge, c: BindingCommand)
    requires f.Inv()
    modifies f
    ensures f.Steady() && f.Since(old(f.Now()), None) && f.stuck == old(f.stuck)
    ensures f.bindings - {c.b} == old(f.bindings) - {c.b} && f.leases - {c.b} == old(f.leases) - {c.b}
    ensures !old(Bare(StateOf(f), c.b)) ==> (Bare(StateOf(f), c.b) <==> Breaks(OnBinding(c), old(StateOf(f))))
  {
    match c {
      case Create(b, chat, session, mode, a, sight, now, w) =>
        if f.NewBinding(b) && sight.newId !in BoundWatches(f.history) {
          var _ := f.CreateBinding(b, chat, session, mode, a, sight, now, w);
        } else { f.Begin(None); }
      case Mode(b, mode, w) => var _ := f.UpdateMode(b, mode, w(0));
      case Pause(b, force, release, now, w) => var _ := f.PauseBinding(b, force, release, now, w(0), w(1));
      case Resume(b, capable, resolved, grant, sight, now, w) =>
        if sight.newId !in BoundWatches(f.history) {
          var _ := f.ResumeBinding(b, capable, resolved, grant, sight, now, w(0), w(1));
        } else { f.Begin(None); }
      case Repair(b, capable, resolved, status, grant, sight, now, w) =>
        if sight.newId !in BoundWatches(f.history) {
          var _ := f.RepairBinding(b, resolved, status, capable, grant, sight, now, w(0), w(1));
        } else { f.Begin(None); }
      case Remove(b, force, release, status, resolved, again, now, w) => var _ := f.RemoveBindingFor(b, force, release, status, resolved, again, now, w(0));
      case Takeover(b, owner, force, begin, grant, now, w) => var _,
      _ := f.TakeoverBinding(b, owner, force, begin, grant, now, w(0), w(1), w(2), w(3));
      case Return(b, local, status, capable, begin, grant, sight, now, w) =>
        if sight.newId !in BoundWatches(f.history) {
          var _ := f.ReturnBinding(b, local, status, capable, begin, grant, sight, now, w);
        } else { f.Begin(None); }
      case EndTarget(b, status, resolved, again, now, w) => var _ := f.ReconcileTarget(b, status, resolved, again, now,
                                                                                       w(0));
      case Handover(b, status, grant, latest, now, w) => var _ := f.ReconcileHandoff(b, status, grant, latest, now,
                                                                                     w(0), w(1), w(2));
    }
  }

  method StepLane(f: FeishuBridge, c: LaneCommand)
    requires f.Inv()
    modifies f
    ensures f.Steady() && Legal(old(StateOf(f)), StateOf(f)) && f.base.history == old(f.history)
    ensures StuckStep(OnLane(c), old(StateOf(f)), StateOf(f))
    ensures old(Backed(f.bindings, f.leases)) ==>
      (Backed(f.bindings, f.leases) <==> !Breaks(OnLane(c), old(StateOf(f))))
  {
    if c.CardBack? {
      StepCardBack(f, c.id, c.confirmed, c.now, c.w);
    } else if c.CardOut? || c.RenewalOut? || c.RenewalBack? || c.Shutdown? {
      StepOther(f, c);
    } else {
      StepWork(f, c);
    }
  }

  method StepWork(f: FeishuBridge, c: LaneCommand)
    requires f.Inv() && (c.Event? || c.Poll? || c.Watching? || c.Verdict?)
    modifies f
    ensures f.Steady() && Legal(old(StateOf(f)), StateOf(f)) && f.base.history == old(f.history)
    ensures StuckStep(OnLane(c), old(StateOf(f)), StateOf(f))
    ensures old(Backed(f.bindings, f.leases)) ==>
      (Backed(f.bindings, f.leases) <==> !Breaks(OnLane(c), old(StateOf(f))))
  {
    ghost var was := StateOf(f);
    match c {
      case Event(b, event, message, screen, status, receipt, k, now, w) =>
        var _ := f.HandleEvent(b, event, message, screen, status, receipt, k, now, w(0), w(1));
        BackedUnlessBare(b, was, StateOf(f));
      case Poll(b, k, now, w) =>
        f.PollTurn(b, k, now, w(0), w(1), w(2), w(3));
      case Watching(b, look, before, result, now, w) =>
        f.PollWatch(b, look, before, result, now, w(0));
        BackedUnlessBare(b, was, StateOf(f));
      case Verdict(b, watch, verdict, w) =>
        f.SettleActivity(b, watch, verdict, w(0));
        BackedUnlessBare(b, was, StateOf(f));
    }
    IsOrdinary(was, StateOf(f), f.base);
  }

  method StepOther(f: FeishuBridge, c: LaneCommand)
    requires f.Inv() && (c.CardOut? || c.RenewalOut? || c.RenewalBack? || c.Shutdown?)
    modifies f
    ensures f.Steady() && Legal(old(StateOf(f)), StateOf(f)) && f.base.history == old(f.history)
    ensures StuckStep(OnLane(c), old(StateOf(f)), StateOf(f))
    ensures old(Backed(f.bindings, f.leases)) ==> Backed(f.bindings, f.leases)
  {
    ghost var was := StateOf(f);
    match c {
      case RenewalOut(b) =>
        f.IssueRenewal(b);
      case RenewalBack(b, issued, answer, now, w) =>
        if issued in f.renewals && issued.owner == Owner(Feishu, ForBinding(b, f.process)) {
          f.ApplyRenewal(b, issued, answer, now, w(0));
          BackedUnlessBare(b, was, StateOf(f));
        } else { f.Begin(None); }
      case CardOut(id, w) =>
        if id in f.queued && id !in f.inFlight { var _ := f.IssueOutbound(id, w(0)); } else { f.Begin(None); }
      case Shutdown(order, releases, now, w) =>
        if (forall b | b in f.leases :: b in order) && (forall b | b in order :: b in releases) {
          f.Close(order, releases, now, w(0));
        } else { f.Begin(None); }
    }
    IsOrdinary(was, StateOf(f), f.base);
  }

  method StepCardBack(f: FeishuBridge, id: AttemptId, confirmed: bool, now: Time, w: Writes)
    requires f.Inv()
    modifies f
    ensures f.Steady() && Legal(old(StateOf(f)), StateOf(f)) && f.base.history == old(f.history)
    ensures StuckStep(OnLane(CardBack(id, confirmed, now, w)), old(StateOf(f)), StateOf(f))
    ensures old(Backed(f.bindings, f.leases)) ==> Backed(f.bindings, f.leases)
  {
    ghost var was := StateOf(f);
    if id !in f.inFlight {
      f.Begin(None);
      IsOrdinary(was, StateOf(f), f.base);
    } else if confirmed {
      var j := FindReply(f.replies, id);
      f.ApplySent(id, now, w(0));
      if j.Some? && was.replies[j.value].status.Prepared? { IsDelivery(was, StateOf(f), j.value, now); }
      else { IsOrdinary(was, StateOf(f), f.base); }
    } else {
      f.ApplyUncertain(id, now, w(0));
      IsOrdinary(was, StateOf(f), f.base);
    }
  }

  /** The history without its last `n` acts, but not shorter than `p`. */
  function Rewind(p: History, h: History, n: nat): (r: History)
    ensures Earlier(r, h)
    ensures Earlier(p, h) ==> Earlier(p, r)
  {
    if n == 0 || h == p || h.Start? then h else Rewind(p, h.prev, n - 1)
  }

  lemma MovedEarlier(base: Base, turns: seq<Turn>, replies: seq<Reply>, h: History)
    requires Moved(base, turns, replies, h)
    ensures Earlier(base.history, h)
  {
    assert OpenMoves(0);
  }

  /** One command. `start` is where the previous operation began; `next` is how far back
      a crash can reach after this one. */
  method Step(f: FeishuBridge, start: History, c: Command) returns (next: History)
    requires f.Steady() && Earlier(start, f.history)
    modifies f
    ensures f.Steady() && Legal(old(StateOf(f)), StateOf(f)) && StuckStep(c, old(StateOf(f)), StateOf(f))
    ensures old(Backed(f.bindings, f.leases)) ==> (Backed(f.bindings, f.leases) <==> !Breaks(c, old(StateOf(f))))
    ensures next == if c.Crash? then Then(SetAside(Rewind(start, old(f.history), c.back), c.lost), Woke(f.process)) else old(f.history)
    ensures Earlier(next, f.history)
  {
    ghost var was := StateOf(f);
    next := f.history;
    match c {
      case OnBinding(bc) =>
        StepBinding(f, bc);
        IsOrdinary(was, StateOf(f), f.base);
        MovedEarlier(f.base, f.turns, f.replies, f.history);
        BackedUnlessBare(bc.b, was, StateOf(f));
      case OnLane(lc) =>
        StepLane(f, lc);
        MovedEarlier(f.base, f.turns, f.replies, f.history);
      case Crash(back, lost, now, w) =>
        var cut := Rewind(start, f.history, back);
        f.Restart(cut, lost, now, w(0));
        next := Then(SetAside(cut, lost), Woke(f.process));
        MovedEarlier(f.base, f.turns, f.replies, f.history);
        IsRestarted(was, StateOf(f), cut, lost);
    }
  }

  /** Every run: each state is sound, each step is legal, and as long as active bindings are
      leased they stay so exactly if the step does not break it. */
  method Run(f: FeishuBridge, script: seq<Command>) returns (ghost trace: seq<State>)
    requires f.Steady()
    modifies f
    ensures f.Inv() && |trace| == |script| + 1
    ensures trace[0] == old(StateOf(f)) && trace[|script|] == StateOf(f)
    ensures forall i | 0 <= i < |script| :: Legal(trace[i], trace[i + 1]) && StuckStep(script[i], trace[i], trace[i + 1])
    ensures forall s | s in trace :: Sound(s)
    ensures forall i | 0 <= i < |script| :: Leased(trace[i]) ==> (Leased(trace[i + 1]) <==> !Breaks(script[i], trace[i]))
    ensures Leased(trace[0]) && (forall i | 0 <= i < |script| :: !Breaks(script[i], trace[i])) ==> forall s | s in trace :: Leased(s)
  {
    var start := f.history;
    trace := [StateOf(f)];
    InvSound(f);
    var i := 0;
    while i < |script|
      invariant 0 <= i <= |script| && f.Steady() && Earlier(start, f.history)
      invariant |trace| == i + 1 && trace[0] == old(StateOf(f)) && trace[i] == StateOf(f)
      invariant forall k | 0 <= k < i :: Legal(trace[k], trace[k + 1]) && StuckStep(script[k], trace[k], trace[k + 1])
      invariant forall s | s in trace :: Sound(s)
      invariant forall k | 0 <= k < i :: Leased(trace[k]) ==> (Leased(trace[k + 1]) <==> !Breaks(script[k], trace[k]))
    {
      ghost var was := StateOf(f);
      start := Step(f, start, script[i]);
      InvSound(f);
      trace := trace + [StateOf(f)];
      i := i + 1;
    }
    StayLeased(trace, script);
  }

  /** What every step keeps holds to the end. */
  lemma StayLeased(trace: seq<State>, script: seq<Command>)
    requires |trace| == |script| + 1
    requires forall i | 0 <= i < |script| :: Leased(trace[i]) ==> (Leased(trace[i + 1]) <==> !Breaks(script[i], trace[i]))
    ensures Leased(trace[0]) && (forall i | 0 <= i < |script| :: !Breaks(script[i], trace[i])) ==> forall s | s in trace :: Leased(s)
  {
    if Leased(trace[0]) && forall i | 0 <= i < |script| :: !Breaks(script[i], trace[i]) {
      var i := 0;
      while i < |script|
        invariant 0 <= i <= |script| && forall k | 0 <= k <= i :: Leased(trace[k])
      {
        assert Leased(trace[i]) && !Breaks(script[i], trace[i]);
        i := i + 1;
      }
    }
  }

  // ----- what legal steps mean for one record

  predicate Terminal(s: TurnStatus) { !Live(s) }
  /** A turn goes forward only: prepared, awaiting, replying, and by a delivery to its end; from
      each of these it may be cancelled or lost, and from an end it goes nowhere. */
  predicate Forward(x: TurnStatus, y: TurnStatus, delivery: bool) {
    || x == y
    || (x.Prepared? && y.Awaiting?) || (x.Awaiting? && y.Replying?)
    || (delivery && x.Replying? && (y.Completed? || y.TimedOut?))
    || (Live(x) && (y.Cancelled? || y.RecoveryRequired?))
  }

  /** The first turns of `b` come from turns of `a`, in order, and went only forward. */
  ghost predicate TurnsForward(a: seq<Turn>, b: seq<Turn>, at: seq<nat>, delivery: bool) {
    && |at| <= |b| && (forall i, j | 0 <= i < j < |at| :: at[i] < at[j])
    && (forall j | 0 <= j < |at| :: at[j] < |a| && SameTurn(a[at[j]], b[j]) && Forward(a[at[j]].status, b[j].status, delivery))
  }

  /** A turn that an ordinary step started, for an event not remembered. */
  ghost predicate Newcomer(a: State, b: State, t: Turn) {
    Ordinary(a, b) && t.id.event !in a.events && !t.status.Replying? && !t.status.Completed? && !t.status.TimedOut?
  }

  lemma OrdinaryTurns(a: State, b: State, start: Option<TurnId>) returns (at: seq<nat>)
    requires start.Some? ==> start.value.event !in a.events
    requires Moved(Base(a.process, a.turns, a.replies, a.history, start), b.turns, b.replies, b.history)
    ensures TurnsForward(a.turns, b.turns, at, false)
    ensures forall j | |at| <= j < |b.turns| :: StartsFor(start, b.turns[j])
  {
    assert OpenMoves(0);
    at := Matches(a.turns, b.turns, TurnMove(start), Born(start));
    forall j | 0 <= j < |at| ensures Progress(start, a.turns[at[j]], b.turns[j]) {
      assert TurnMove(start)(a.turns[at[j]], b.turns[j]);
    }
    forall j | |at| <= j < |b.turns| ensures StartsFor(start, b.turns[j]) { assert Born(start)(b.turns[j]); }
  }
  lemma DeliveryTurns(a: State, b: State, body: Body, now: Time, replies: seq<Reply>) returns (at: seq<nat>)
    requires Moved(Base(a.process, Finished(a.turns, body, now), replies, a.history, None), b.turns, b.replies,
                   b.history)
    ensures TurnsForward(a.turns, b.turns, at, true) && |at| == |b.turns|
  {
    assert OpenMoves(0);
    var mid := Finished(a.turns, body, now);
    assert forall t: Turn :: !Born(None)(t);
    at := Matches(mid, b.turns, TurnMove(None), Born(None));
    forall j | 0 <= j < |at| ensures Progress(None, mid[at[j]], b.turns[j]) {
      assert TurnMove(None)(mid[at[j]], b.turns[j]);
    }
  }

  /** Within one process, turns keep their order and identity and only go forward. A terminal
      status never changes; only a delivery finishes a turn; a turn without predecessor belongs
      to an event that was not remembered. */
  lemma TerminalStays(a: State, b: State) returns (at: seq<nat>)
    requires Ordinary(a, b) || Delivery(a, b)
    ensures TurnsForward(a.turns, b.turns, at, !Ordinary(a, b))
    ensures forall j | 0 <= j < |at| && Terminal(a.turns[at[j]].status) :: b.turns[j].status == a.turns[at[j]].status
    ensures forall j | |at| <= j < |b.turns| :: Newcomer(a, b, b.turns[j])
  {
    if Ordinary(a, b) {
      var start: Option<TurnId> :| (start.Some? ==> start.value.event !in a.events)
        && Moved(Base(a.process, a.turns, a.replies, a.history, start), b.turns, b.replies, b.history);
      at := OrdinaryTurns(a, b, start);
      forall j | |at| <= j < |b.turns| ensures Newcomer(a, b, b.turns[j]) { assert StartsFor(start, b.turns[j]); }
    } else {
      var j: nat, now: Time :| j < |a.replies| && a.replies[j].status.Prepared?
        && Moved(AfterDelivery(a, j, now), b.turns, b.replies, b.history);
      at := DeliveryTurns(a, b, a.replies[j].body, now, a.replies[j := a.replies[j].(status := ReplyStatus.Sent)]);
    }
  }

  predicate AtEnd(s: TurnStatus) { s.Completed? || s.TimedOut? }
  /** The reply at `j` was prepared and is sent afterwards. */
  ghost predicate Delivers(a: State, b: State, j: nat) {
    j < |a.replies| && a.replies[j].status.Prepared? && Became(a, b, a.replies[j].(status := ReplyStatus.Sent))
  }
  /** The turn was finished before, or was replying and is finished as this reply says. */
  ghost predicate FinishedBy(turns: seq<Turn>, y: Turn, body: Option<Body>) {
    exists x | x in turns :: x.id == y.id
      && (x.status == y.status || (x.status.Replying? && body.Some? && body.value.TurnReply? && body.value.turn == y.id && y.status == FinalStatus(body.value.final)))
  }

  lemma FinishedInDelivery(a: State, b: State, j: nat, now: Time, y: Turn)
    requires j < |a.replies| && a.replies[j].status.Prepared? && y in b.turns && AtEnd(y.status)
    requires Moved(AfterDelivery(a, j, now), b.turns, b.replies, b.history)
    ensures FinishedBy(a.turns, y, Some(a.replies[j].body))
  {
    assert OpenMoves(0);
    var mid := Finished(a.turns, a.replies[j].body, now);
    Descends(mid, b.turns, TurnMove(None), Born(None), y);
    var x :| x in mid && Progress(None, x, y);
    var k :| 0 <= k < |mid| && mid[k] == x;
    assert a.turns[k] in a.turns;
  }
  lemma FinishedBefore(a: State, b: State, start: Option<TurnId>, y: Turn)
    requires Moved(Base(a.process, a.turns, a.replies, a.history, start), b.turns, b.replies, b.history)
      && y in b.turns && AtEnd(y.status)
    ensures FinishedBy(a.turns, y, None)
  {
    assert OpenMoves(0);
    Descends(a.turns, b.turns, TurnMove(start), Born(start), y);
    var x :| x in a.turns && Progress(start, x, y);
  }

  /** A turn becomes completed or timed out only in the step that marks its reply sent: it was
      replying, that reply was prepared before and is sent afterwards, and its final status is the
      one the reply carries. */
  lemma FinishedWithReply(a: State, b: State, y: Turn)
    requires (Ordinary(a, b) || Delivery(a, b)) && Sound(b) && y in b.turns && AtEnd(y.status)
    ensures FinishedBy(a.turns, y, None) || exists j: nat :: Delivers(a, b, j) && FinishedBy(a.turns, y, Some(a.replies[j].body))
  {
    if Ordinary(a, b) {
      var start: Option<TurnId> :| (start.Some? ==> start.value.event !in a.events)
        && Moved(Base(a.process, a.turns, a.replies, a.history, start), b.turns, b.replies, b.history);
      FinishedBefore(a, b, start, y);
    } else {
      var j: nat, now: Time :| j < |a.replies| && a.replies[j].status.Prepared?
        && Moved(AfterDelivery(a, j, now), b.turns, b.replies, b.history);
      FinishedInDelivery(a, b, j, now, y);
      SentAfter(a, b, j, now);
    }
  }

  /** The delivered reply is sent afterwards, and no other one is newly sent. */
  lemma SentAfter(a: State, b: State, j: nat, now: Time)
    requires j < |a.replies| && a.replies[j].status.Prepared? && Lawful(b.history)
    requires Moved(AfterDelivery(a, j, now), b.turns, b.replies, b.history)
    ensures Delivers(a, b, j)
    ensures forall r | r in b.replies && r.status.Sent? :: r in a.replies || r == a.replies[j].(status := ReplyStatus.Sent)
  {
    assert OpenMoves(0);
    var mid := a.replies[j := a.replies[j].(status := ReplyStatus.Sent)];
    assert mid[j] in mid;
    Settles(mid, b.replies, a.history, b.history, mid[j]);
    forall r | r in b.replies && r.status.Sent? ensures r in a.replies || r == mid[j] {
      Descends(mid, b.replies, ReplyMove, ReplyBorn, r);
      var q :| q in mid && ReplyMove(q, r);
      var k :| 0 <= k < |mid| && mid[k] == q;
      assert a.replies[k] in a.replies;
    }
  }

  /** A reply newly sent is the one that the step delivers: there is at most one, it was prepared,
      and an ordinary step has none. */
  lemma SentByDelivery(a: State, b: State) returns (delivered: Option<nat>)
    requires (Ordinary(a, b) || Delivery(a, b)) && Sound(b)
    ensures Ordinary(a, b) ==> delivered.None?
    ensures delivered.Some? ==> Delivers(a, b, delivered.value)
    ensures forall r | r in b.replies && r.status.Sent? ::
      r in a.replies || (delivered.Some? && delivered.value < |a.replies| && r == a.replies[delivered.value].(status := ReplyStatus.Sent))
  {
    if Ordinary(a, b) {
      var start: Option<TurnId> :| (start.Some? ==> start.value.event !in a.events)
        && Moved(Base(a.process, a.turns, a.replies, a.history, start), b.turns, b.replies, b.history);
      assert OpenMoves(0);
      delivered := None;
      forall r | r in b.replies && r.status.Sent? ensures r in a.replies {
        Descends(a.replies, b.replies, ReplyMove, ReplyBorn, r);
      }
    } else {
      var j: nat, now: Time :| j < |a.replies| && a.replies[j].status.Prepared?
        && Moved(AfterDelivery(a, j, now), b.turns, b.replies, b.history);
      SentAfter(a, b, j, now);
      delivered := Some(j);
    }
  }

  /** A settled reply stays as it is until it leaves the memory. A prepared one stays, or becomes
      uncertain, or by a delivery becomes sent; the payload never changes. */
  lemma RepliesOnlySettle(a: State, b: State, q: Reply)
    requires (Ordinary(a, b) || Delivery(a, b)) && q in a.replies && Sound(b)
    ensures !q.status.Prepared? ==> q in b.replies || LeftMemory(a.history, b.history, q)
    ensures q.status.Prepared? ==>
      || q in b.replies || Became(a, b, q.(status := ReplyStatus.Uncertain))
      || (Delivery(a, b) && Became(a, b, q.(status := ReplyStatus.Sent)))
  {
    if Ordinary(a, b) {
      var start: Option<TurnId> :| (start.Some? ==> start.value.event !in a.events)
        && Moved(Base(a.process, a.turns, a.replies, a.history, start), b.turns, b.replies, b.history);
      assert OpenMoves(0);
      Settles(a.replies, b.replies, a.history, b.history, q);
    } else {
      var j: nat, now: Time :| j < |a.replies| && a.replies[j].status.Prepared?
        && Moved(AfterDelivery(a, j, now), b.turns, b.replies, b.history);
      assert OpenMoves(0);
      var mid := a.replies[j := a.replies[j].(status := ReplyStatus.Sent)];
      var k :| 0 <= k < |a.replies| && a.replies[k] == q;
      assert mid[k] in mid;
      Settles(mid, b.replies, a.history, b.history, mid[k]);
    }
  }
  /** The settled reply is there, or has been and left the memory. */
  ghost predicate Became(a: State, b: State, r: Reply) { r in b.replies || LeftMemory(a.history, b.history, r) }

  lemma {:induction false} LeftSettled(p: History, h: History, q: Reply)
    requires Lawful(h) && LeftMemory(p, h, q) && q.status.Prepared?
    ensures LeftMemory(p, h, q.(status := ReplyStatus.Uncertain))
  {
    if h.act.Discarded? && exists r | r in h.act.dropped :: ReplyMove(q, r) {
      var r :| r in h.act.dropped && ReplyMove(q, r);
      assert ReplyMove(q.(status := ReplyStatus.Uncertain), r);
    } else {
      LeftSettled(p, h.prev, q);
    }
  }
  /** What has become of one reply. */
  lemma Settles(was: seq<Reply>, now: seq<Reply>, p: History, h: History, q: Reply)
    requires Kept(was, now, p, h) && q in was && Lawful(h)
    ensures !q.status.Prepared? ==> q in now || LeftMemory(p, h, q)
    ensures q.status.Prepared? ==>
      q in now || q.(status := ReplyStatus.Uncertain) in now || LeftMemory(p, h, q.(status := ReplyStatus.Uncertain))
  {
    if LeftMemory(p, h, q) && q.status.Prepared? { LeftSettled(p, h, q); }
  }
}
