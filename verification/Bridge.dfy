/** The Feishu bridge: one object whose fields are changed only by operations that
    run one at a time on the serial lane. Every answer of an outside system is a
    parameter, so each contract holds for all answers. */
module Bridge {
  import opened Basics
  import opened BridgeTypes
  import opened BridgeHistory
  import opened BridgeInvariant
  import opened Lineage
  import opened Retention

  const TURN_NOTICE: Text := 1
  const WATCH_NOTICE: Text := 2
  const UNCERTAIN_NOTICE: Text := 3
  const IDLE_NOTICE: Text := 4

  // ----- contracts of the operations

  /** How an operation ended: done, refused before it changed anything, or failed after. */
  datatype Outcome = Done | Refused | Failed

  /** The operation touched no binding and no lease but its own, and left the active
      bindings leased if they were. */
  ghost predicate Confined(b: BindingId, bindings: map<BindingId, Binding>, leases: map<BindingId, Lease>,
                           bindings': map<BindingId, Binding>, leases': map<BindingId, Lease>) {
    && bindings' - {b} == bindings - {b}
    && leases' - {b} == leases - {b}
    && (b in bindings' && bindings'[b].status.Active? ==>
         b in leases' || (b in bindings && bindings[b].status.Active? && b !in leases))
  }

  /** Work that an operation may not cancel: a reply or completion card on its way, or
      anything at all without force. */
  predicate Busy(turns: seq<Turn>, b: BindingId, x: Binding, force: bool) {
    var turn := ActiveTurn(turns, b);
    || (turn.Some? && turns[turn.value].status.Replying?)
    || (ActiveWatch(x.watch) && x.watch.value.status.Sending?)
    || ((turn.Some? || ActiveWatch(x.watch)) && !force)
  }

  function HandoffOf(id: nat, lease: Lease, next: OwnerKind, role: Role, status: HandoffStatus, drain: Drain): Handoff {
    Handoff(id, lease.epoch, lease.fence, next, role, status, drain)
  }

  /** The dashboard or the command line still holds the terminal under this very lease. */
  predicate LocallyHeld(lease: Lease, v: View) {
    v.epoch == lease.epoch && v.fence == lease.fence && v.state.Held?
    && !lease.owner.kind.Feishu? && v.ownerKind == Some(lease.owner.kind)
  }
  predicate Returnable(x: Binding, local: Lease, status: Answer<View>) {
    (x.status.Paused? || x.status.Stale?) && local.target == x.target && status.Got? && LocallyHeld(local, status.value)
  }
  /** The dashboard may hand this terminal to a new binding. */
  predicate Transferable(lease: Lease, v: View) {
    lease.target == v.target && lease.epoch == v.epoch && lease.fence == v.fence && lease.owner.kind.Dashboard?
    && v.state.Held? && v.ownerKind.Some? && !v.ownerKind.value.Feishu?
  }

  function TargetGoneFault(a: Answer<View>): bool { a.Threw? && a.fault.code.TargetGone? }
  predicate ProvedGone(a: Answer<View>) { (a.Got? && a.value.state.Gone?) || TargetGoneFault(a) }

  /** Proof that the bound terminal has ended: it is gone, or its session is. */
  predicate LifecycleEnded(target: TargetId, status: Answer<View>, resolved: Answer<TargetId>, again: Answer<View>) {
    if resolved.Got? && resolved.value != target then ProvedGone(status) || ProvedGone(again)
    else if resolved.Got? then ProvedGone(status)
    else resolved.fault.code.TargetNotFound? || ProvedGone(status)
  }

  /** A new binding may not reuse a chat, nor the terminal of a binding that is not stale. */
  predicate Admissible(bindings: map<BindingId, Binding>, chat: ChatId, target: TargetId) {
    forall c | c in bindings :: bindings[c].chat != chat && (bindings[c].target != target || bindings[c].status.Stale?)
  }

  /** A binding without a lease may go when nobody could be typing for it. */
  predicate UnleasedRemovable(target: TargetId, status: Answer<View>, resolved: Answer<TargetId>, again: Answer<View>) {
    if status.Got? then status.value.state.Free? || status.value.state.Gone? || (status.value.state.Held? && LocalKind(status.value.ownerKind))
    else if status.fault.code.TargetNotFound? then
      if resolved.Got? then resolved.value != target && ProvedGone(again) else resolved.fault.code.TargetNotFound?
    else status.fault.code.TargetGone?
  }

  /** What the link of a new binding is told: whether the authority can own terminals, the terminal
      asked for, the lease that the dashboard offers, the handoff begun with it, and the lease granted. */
  datatype LinkAnswers = LinkAnswers(capable: bool, resolved: Answer<View>, dashboard: Option<Lease>,
                                     begin: Answer<View>, grant: Answer<Grant>)

  /** A new binding is not refused: its chat and terminal are free for it, and the dashboard can
      hand the terminal over, or the lease asked for was granted. */
  predicate Linkable(bindings: map<BindingId, Binding>, owner: Owner, chat: ChatId, a: LinkAnswers, now: Time) {
    && a.capable && a.resolved.Got? && Admissible(bindings, chat, a.resolved.value.target)
    && (if a.dashboard.Some? then Transferable(a.dashboard.value, a.resolved.value)
        else a.grant.Got? && Granted(a.grant.value, a.resolved.value.target, owner, false, now).Some?)
  }
  /** Settling the handoff of an idle binding leaves it active without its lease: the authority
      drains the terminal, the handoff is stored and its commit confirmed, the outcome cannot be
      stored, and the authority then says that Feishu still holds the terminal. */
  predicate Strands(x: Binding, lease: Lease, idle: bool, status: Answer<View>, commit: Answer<Grant>,
                    latest: Answer<View>, now: Time, w0: Write, w1: Write) {
    && idle && !ActiveWatch(x.watch)
    && status.Got? && DrainingView(x.target, lease, status.value)
    && w0.files >= 4 && commit.Got? && LocalGrant(commit.value, x.target, lease, status.value.nextOwnerKind.value, now)
    && w1.files < 4 && latest.Got? && StillHeld(lease, latest.value)
  }
  /** Handling an event leads there: the terminal is being drained, or refuses the input of a new
      turn because of a handoff. */
  predicate EventStrands(x: Binding, lease: Lease, turns: seq<Turn>, b: BindingId, status: Answer<View>,
                         receipt: Answer<Receipt>, k: HandoffAnswers,
                         now: Time, w0: Write, w1: Write) {
    && status.Got? && w0.files >= 4
    && Strands(x, lease, Working(turns, b).None?, k.status, k.commit, k.latest, now, k.w0, k.w1)
    && (|| DrainingView(x.target, lease, status.value)
        || (LeaseView(x.target, lease, status.value) && receipt.Threw? && receipt.fault.code.HandoffPending? && w1.files >= 4))
  }

  /** A prepared handoff whose outcome is unknown. */
  function Doubted(k: Option<Handoff>): Option<Handoff> {
    if k.Some? && k.value.status == HandoffStatus.Prepared then Some(k.value.(status := HandoffStatus.Uncertain)) else k
  }

  /** The turns with the binding's live one, if any, brought to an end. */
  function Concluded(turns: seq<Turn>, b: BindingId, status: TurnStatus, now: Time): seq<Turn> {
    var i := ActiveTurn(turns, b);
    if i.None? then turns else turns[i.value := turns[i.value].(status := status, completedAt := Some(now))]
  }

  function TakeoverDrain(b: BindingId, turns: seq<Turn>, watch: Option<Watch>, force: bool, now: Time): Drain {
    var turn := ActiveTurn(turns, b);
    Drain(if force then DrainCancelled else Drained,
          if force && turn.Some? then OfTurn(turns[turn.value].id, true)
          else if force && ActiveWatch(watch) then OfWatch(watch.value.id)
          else FeishuDrained(b),
          now)
  }

  /** The binding's latest turn that has come to an end. */
  function LastDone(turns: seq<Turn>, b: BindingId): (r: Option<Turn>)
    ensures r.Some? ==> r.value in turns && r.value.binding == b && r.value.completedAt.Some?
    ensures r.None? ==> forall t | t in turns :: t.binding != b || t.completedAt.None?
  {
    if turns == [] then None
    else
      var last := turns[|turns| - 1];
      if last.binding == b && last.completedAt.Some? then Some(last) else LastDone(turns[..|turns| - 1], b)
  }
  /** How Feishu's side of a handoff was drained. */
  function DrainOf(turns: seq<Turn>, b: BindingId, now: Time): (d: Drain)
    ensures !d.disposition.DrainUncertain?
  {
    var last := LastDone(turns, b);
    if last.None? then Drain(Drained, FeishuDrained(b), now)
    else
      var cancelled := last.value.status.Cancelled?;
      Drain(if cancelled then DrainCancelled else Drained, OfTurn(last.value.id, cancelled),
            last.value.completedAt.value)
  }

  /** The authority says that the terminal is held under this lease, or is being drained. */
  predicate Answering(target: TargetId, lease: Lease, status: Answer<View>) {
    status.Got? && (DrainingView(target, lease, status.value) || LeaseView(target, lease, status.value))
  }
  /** A reply or completion card of the binding is on its way. */
  predicate Delivering(turns: seq<Turn>, b: BindingId, x: Binding) {
    (ActiveWatch(x.watch) && x.watch.value.status.Sending?) || (Working(turns, b).Some? && Working(turns, b).value.status.Replying?)
  }
  /** The terminal is held and idle and takes the input, and both writes succeed. */
  predicate Takes(x: Binding, lease: Lease, turns: seq<Turn>, b: BindingId, status: Answer<View>,
                  receipt: Answer<Receipt>, w0: Write, w1: Write) {
    && !Delivering(turns, b, x) && Working(turns, b).None?
    && status.Got? && !DrainingView(x.target, lease, status.value) && LeaseView(x.target, lease, status.value)
    && receipt.Got? && InputAccepted(lease, receipt.value) && w0.files >= 4 && w1.files >= 4
  }
  function BodyText(b: Body): Text { b.text }
  function ReplyBody(t: Turn, x: Binding, text: Text, final: Final): Body {
    TurnReply(t.id, t.message, text, x.session, x.mode, final)
  }
  /** The reply may be prepared: none is on record, or the one on record says the same. */
  predicate Replyable(replies: seq<Reply>, id: AttemptId, text: Text) {
    forall r | r in replies && r.id == id :: BodyText(r.body) == text && !r.body.Legacy?
  }
  predicate HasSettled(replies: seq<Reply>, id: AttemptId) { HasReply(replies, id) && id !in PreparedIds(replies) }
  /** Once a turn is replying: it is stuck exactly if its reply on record was settled before. */
  function StuckBy(replies: seq<Reply>, stuck: set<TurnId>, id: TurnId): set<TurnId> {
    if HasSettled(replies, ReplyTo(id)) then stuck + {id} else stuck - {id}
  }
  /** After a poll: a turn that it made replying is stuck only if its reply on record was settled
      before, and exactly then if the poll stored nothing on the way; nothing else became stuck. */
  ghost predicate PollSticks(turns: seq<Turn>, replies: seq<Reply>, stuck: set<TurnId>, turns': seq<Turn>,
                             stuck': set<TurnId>, b: BindingId, direct: bool) {
    if Working(turns, b).Some? && Working(turns, b).value.status.Awaiting? && Working(turns', b).Some? && Working(turns', b).value.status.Replying? then
      var id := Working(turns, b).value.id;
      && (stuck' == StuckBy(replies, stuck, id) || stuck' == stuck - {id})
      && (direct ==> stuck' == StuckBy(replies, stuck, id))
    else stuck' == stuck
  }
  /** What is settled after a persist was so before. */
  lemma SettledBefore(was: seq<Reply>, now: seq<Reply>, id: TurnId)
    requires Carried(was, now) == true && HasSettled(now, ReplyTo(id))
    ensures HasSettled(was, ReplyTo(id))
  {
    assert OpenReplies(0);
    var r :| r in now && ReplyKey(r) == ReplyTo(id);
    assert r in was;
  }
  /** The same, with a persist before the rest of the poll. */
  lemma PollSticksLater(turns: seq<Turn>, replies: seq<Reply>, stuck: set<TurnId>, mid: seq<Turn>, between: seq<Reply>,
                        turns': seq<Turn>, stuck': set<TurnId>, b: BindingId, direct: bool)
    requires PollSticks(mid, between, stuck, turns', stuck', b, direct) == true
      && (replies == between || Carried(replies, between) == true)
    requires Working(turns, b).Some? && Working(mid, b).Some?
    requires Working(mid, b).value.id == Working(turns, b).value.id
      && Working(mid, b).value.status == Working(turns, b).value.status
    ensures PollSticks(turns, replies, stuck, turns', stuck', b, false)
  {
    var id := Working(turns, b).value.id;
    if replies != between && HasSettled(between, ReplyTo(id)) { SettledBefore(replies, between, id); }
  }
  /** What one read of a turn's output amounts to. */
  datatype Reading = Waiting | Lost | Cursor | Bytes | Quiet

  function ReadingOf(t: Turn, lease: Lease, view: Answer<View>, tail: Answer<Chunk>, again: Answer<View>,
                     retained: bool): Reading {
    if t.generation.None? || view.Threw? || !TurnAuthority(t, lease, view.value) then Lost
    else if tail.Threw? then
      if tail.fault.code.StaleOutputCursor? then
        if again.Got? && TurnAuthority(t, lease, again.value) && retained then Cursor else Lost
      else if RetryableRead(tail.fault) then Waiting
      else Lost
    else if !ChunkMatches(t, tail.value) then Lost
    else if tail.value.nonempty then Bytes
    else Quiet
  }
  /** The pane shows a complete reply of the turn, which may be given and stored. */
  predicate Ripe(t: Turn, lease: Lease, marker: Marker, snapshot: Answer<Snapshot>, view: Answer<View>,
                 replies: seq<Reply>, w: Write) {
    && t.marked && marker.Closed? && snapshot.Got? && SnapshotMatches(t, snapshot.value) && snapshot.value.reply.Some?
    && view.Got? && TurnAuthority(t, lease, view.value)
    && Replyable(replies, ReplyTo(t.id), snapshot.value.reply.value) && w.files >= 4
  }
  /** A poll finds nothing new in the output and then such a reply, in time. */
  predicate Harvestable(t: Turn, lease: Lease, k: PollAnswers, replies: seq<Reply>, now: Time, w: Write) {
    && ReadingOf(t, lease, k.view, k.tail, k.again, k.retained).Quiet? && now < t.deadline
    && Ripe(t, lease, k.marker, k.snapshot, k.final, replies, w)
  }
  /** What a poll of a turn is told: the ownership of the terminal, a read of its output, the
      ownership again, whether the cursor it lost is still retained, what the output shows of the
      markers, the rendered pane, and the ownership at the end. */
  datatype PollAnswers = PollAnswers(view: Answer<View>, tail: Answer<Chunk>, again: Answer<View>, retained: bool,
                                     marker: Marker,
                                     snapshot: Answer<Snapshot>, final: Answer<View>)
  /** The poll stores nothing before the turn's reply. */
  predicate PollsDirectly(t: Option<Turn>, lease: Lease, k: PollAnswers) {
    t.Some? && ReadingOf(t.value, lease, k.view, k.tail, k.again, k.retained).Quiet? && !k.marker.NewlyClosed?
  }
  /** The binding has a watch that is polled. */
  predicate Pollable(x: Binding) { x.status.Active? && ActiveWatch(x.watch) && !x.watch.value.status.Sending? }

  /** The look shows the agent that the binding watches. */
  predicate Shown(bindings: map<BindingId, Binding>, leases: map<BindingId, Lease>, b: BindingId,
                  look: Answer<Observation>) {
    && b in bindings && b in leases && Pollable(bindings[b]) && look.Got?
    && Observed(bindings[b].target, bindings[b].watch.value, leases[b], look.value)
    && (look.value.running ==> look.value.source.Some?)
  }

  /** The watch of a binding, or a new one, tied to a lease and an output generation. */
  function Tied(previous: Option<Watch>, newId: WatchId, lease: Lease, generation: nat): Watch {
    var w := if ActiveWatch(previous) then previous.value
             else Watch(newId, WatchStatus.Probing, lease.epoch, lease.id, lease.fence, generation, None, None, None);
    w.(epoch := lease.epoch, lease := lease.id, fence := lease.fence, generation := generation,
       status := if w.runningAt.Some? then WatchStatus.Armed else WatchStatus.Probing, stopAt := None)
  }
  /** The first look does not break the watch. */
  predicate Watchable(target: TargetId, w: Watch, lease: Lease, look: Answer<Observation>) {
    if look.Threw? then !FatalActivity(look.fault)
    else Observed(target, w, lease, look.value) && (look.value.running ==> look.value.source.Some?)
  }
  /** What the first look makes of a watch just tied. */
  function Looked(w: Watch, o: Observation, now: Time): Watch {
    if o.running then w.(status := WatchStatus.Armed, runningAt := Some(now), source := o.source)
    else if w.runningAt.Some? then w.(status := WatchStatus.StopCandidate, stopAt := Some(now))
    else w.(status := WatchStatus.Cancelled)
  }

  /** What the start of a watch is told: the ownership of the terminal, a first look at the agent,
      and an id in case a new watch is needed. */
  datatype Sight = Sight(view: Answer<View>, look: Answer<Observation>, newId: WatchId)
  /** The first look does not show a running agent. */
  predicate SeesIdle(s: Sight) { s.look.Threw? || !s.look.value.running }

  /** A watch can be started for the binding under this lease. */
  predicate CanWatch(x: Binding, lease: Lease, s: Sight) {
    && s.view.Got? && LeaseView(x.target, lease, s.view.value)
    && Watchable(x.target, Tied(x.watch, s.newId, lease, s.view.value.generation), lease, s.look)
  }
  /** The watch just started, after its first look. */
  function FirstSight(x: Binding, lease: Lease, s: Sight, now: Time): Watch
    requires s.view.Got?
  {
    var w := Tied(x.watch, s.newId, lease, s.view.value.generation);
    if s.look.Threw? then w else Looked(w, s.look.value, now)
  }

  /** What an observation of a running agent makes of the watch. */
  function Rearmed(w: Watch, source: Source, now: Time): (r: Watch)
    ensures r.id == w.id && CorrOf(r) == CorrOf(w) && !r.status.Sending? && r.stopAt.None? && r.source.Some?
      && r.source.value.id == source.id
  {
    if !w.status.Armed? || w.stopAt.Some? || w.source.None? || w.source.value.id != source.id
    then w.(status := WatchStatus.Armed, runningAt := Some(now), source := Some(source), stopAt := None)
    else w
  }
  /** What an observation of an idle agent makes of the watch. */
  function Idled(w: Watch, now: Time): (r: Watch)
    ensures r.id == w.id && CorrOf(r) == CorrOf(w) && r.source == w.source
      && (r.stopAt == w.stopAt || r.stopAt == Some(now))
  {
    if w.runningAt.None? then w.(status := WatchStatus.Cancelled)
    else if !w.status.StopCandidate? || w.stopAt.None? then w.(status := WatchStatus.StopCandidate, stopAt := Some(now))
    else w
  }

  /** How the attempt to settle an activity watch went. */
  datatype Settlement = Settled | Retry | Broken
  function SettlementOf(target: TargetId, w: Watch, lease: Lease, before: Answer<View>,
                        result: Answer<AgentResult>): (s: Settlement)
    ensures s.Settled? ==> result.Got? && ResultMatches(target, w, lease, result.value)
    ensures s.Settled? ==> before.Got? && before.value.generation == w.generation
  {
    if before.Threw? then if FatalActivity(before.fault) then Broken else Retry
    else if !DrainingView(target, lease, before.value) && !LeaseView(target, lease, before.value) then Broken
    else if before.value.generation != w.generation || w.source.None? then Broken
    else if result.Threw? then if FatalActivity(result.fault) then Broken else Retry
    else if ResultMatches(target, w, lease, result.value) then Settled
    else Broken
  }

  /** What came of a completion card. */
  datatype CardVerdict = CardArrived | CardDoubtful | CardDeferred | CardFenced
  predicate VerdictApplies(s: WatchStatus, v: CardVerdict) {
    match v
    case CardArrived => !s.Cancelled? && !s.Uncertain?
    case CardDoubtful => !s.Sent?
    case CardDeferred => s.Sending?
    case CardFenced => s.Sending?
  }
  function VerdictStatus(v: CardVerdict): WatchStatus {
    match v
    case CardArrived => WatchStatus.Sent
    case CardDoubtful => WatchStatus.Uncertain
    case CardDeferred => WatchStatus.StopCandidate
    case CardFenced => WatchStatus.RecoveryRequired
  }

  /** Which of the four files were found corrupt and set aside. */
  datatype Quarantine = Quarantine(bindings: bool, dedup: bool, turns: bool, replies: bool)
  function Lose(h: History, lost: bool, a: Act): History { if lost then Then(h, a) else h }
  function SetAside(h: History, q: Quarantine): History {
    Lose(Lose(Lose(Lose(h, q.bindings, LostBindings), q.dedup, LostDedup), q.turns, LostTurns), q.replies, LostReplies)
  }
  lemma LoseKeeps(p: History, h: History, lost: bool, a: Act, n: nat)
    requires (a.LostBindings? || a.LostDedup? || a.LostTurns? || a.LostReplies?) && Lawful(h) && SentUpTo(h, n)
      && Earlier(p, h)
    ensures Lawful(Lose(h, lost, a)) && SentUpTo(Lose(h, lost, a), n) && Earlier(p, Lose(h, lost, a))
  {}
  lemma SetAsideKeeps(h: History, q: Quarantine, n: nat)
    requires Lawful(h) && SentUpTo(h, n)
    ensures Lawful(SetAside(h, q)) && SentUpTo(SetAside(h, q), n) && Earlier(h, SetAside(h, q))
  {
    LoseKeeps(h, h, q.bindings, LostBindings, n);
    var h1 := Lose(h, q.bindings, LostBindings);
    LoseKeeps(h, h1, q.dedup, LostDedup, n);
    var h2 := Lose(h1, q.dedup, LostDedup);
    LoseKeeps(h, h2, q.turns, LostTurns, n);
    LoseKeeps(h, Lose(h2, q.turns, LostTurns), q.replies, LostReplies, n);
  }

  /** A reply without payload is not one that a turn waits for. */
  lemma LegacyUnwaited(h: History, process: nat, w: Work, i: nat)
    requires WorkSound(h, process, w) && i < |w.replies| && w.replies[i].body.Legacy?
    requires forall t | t in w.turns && Live(t.status) :: ReplyWaits(t, w.replies)
    ensures w.replies[i].id.ReplyTo? ==> !IsReplying(w.turns, w.replies[i].id.turn)
  {
    assert OpenWork(0);
    var id := w.replies[i].id;
    if id.ReplyTo? && IsReplying(w.turns, id.turn) {
      var t :| t in w.turns && t.id == id.turn && t.status.Replying?;
      var r :| r in w.replies && r.id == ReplyTo(t.id) && r.status.Prepared? && !r.body.Legacy?;
      SameReply(w.replies, r, w.replies[i]);
    }
  }
  lemma StillWaits(turns: seq<Turn>, replies: seq<Reply>, replies': seq<Reply>, i: nat)
    requires i < |replies| && replies[i].body.Legacy?
      && replies' == replies[i := replies[i].(status := ReplyStatus.Uncertain)]
    requires forall t | t in turns && Live(t.status) :: ReplyWaits(t, replies)
    ensures forall t | t in turns && Live(t.status) :: ReplyWaits(t, replies')
  {
    forall t | t in turns && Live(t.status) ensures ReplyWaits(t, replies') {
      var r :| r in replies && r.id == ReplyTo(t.id) && r.status.Prepared? && !r.body.Legacy?;
      var j :| 0 <= j < |replies| && replies[j] == r;
      assert replies'[j] in replies';
    }
  }

  predicate SameGeneration(a: Lease, b: Lease) { a.epoch == b.epoch && a.id == b.id && a.fence == b.fence }

  function FindReply(replies: seq<Reply>, id: AttemptId): (r: Option<nat>)
    ensures r.Some? ==> r.value < |replies| && replies[r.value].id == id
    ensures r.None? ==> forall q | q in replies :: q.id != id
  {
    if replies == [] then None
    else if replies[0].id == id then Some(0)
    else
      var rest := FindReply(replies[1..], id);
      assert replies == [replies[0]] + replies[1..];
      if rest.Some? then Some(rest.value + 1) else None
  }
  function FinalStatus(f: Final): TurnStatus { if f.FinalCompleted? then TurnStatus.Completed else TurnStatus.TimedOut }
  /** The turns once the reply has arrived. */
  function Finished(turns: seq<Turn>, body: Body, now: Time): seq<Turn> {
    var i := Answered(turns, body);
    if i.None? then turns
    else turns[i.value := turns[i.value].(status := FinalStatus(body.final), completedAt := Some(now))]
  }
  /** The turns once the one at `i`, if any, is lost. */
  function WithLost(turns: seq<Turn>, i: Option<nat>, now: Time): seq<Turn>
    requires i.Some? ==> i.value < |turns|
  {
    if i.None? then turns else turns[i.value := turns[i.value].(status := TurnStatus.RecoveryRequired, completedAt := Some(now))]
  }
  function Staled(bindings: map<BindingId, Binding>, b: BindingId): map<BindingId, Binding> {
    if b in bindings then bindings[b := bindings[b].(status := Stale)] else bindings
  }
  predicate Deliverable(turns: seq<Turn>, body: Body) {
    !body.Legacy? && (body.TurnReply? ==> Answered(turns, body).Some?)
  }

  /** The receipt shows that the input reached the turn's own terminal. */
  predicate SteerAccepted(t: Turn, a: Receipt) {
    a.echoed && a.epoch == t.epoch && a.fence == t.fence && Some(a.generation) == t.generation && a.forward
  }
  predicate InputAccepted(lease: Lease, a: Receipt) { a.echoed && a.epoch == lease.epoch && a.fence == lease.fence }
  const FENCED: Fault := Fault(true, false, RecoveryRequiredCode, false)
  function NewTurn(b: BindingId, e: EventId, message: MessageId, target: TargetId, epoch: nat, lease: Lease,
                   now: Time): Turn {
    Turn(TurnId(b, e), message, TurnStatus.Prepared, true, target, epoch, lease.id, lease.fence, None,
         now + TURN_IDLE_TIMEOUT, None)
  }
  function Accepted(t: Turn, a: Receipt): Turn {
    t.(status := TurnStatus.Awaiting, epoch := a.epoch, fence := a.fence, generation := Some(a.generation))
  }
  /** The answers to a handoff that is settled along the way. */
  datatype HandoffAnswers = HandoffAnswers(status: Answer<View>, commit: Answer<Grant>, latest: Answer<View>, w0: Write,
                                           w1: Write, w2: Write)

  predicate Released(l: Lease, v: View) { v.target == l.target && v.epoch == l.epoch && v.state.Free? }

  /** What each write of an operation reaches. */
  type Writes = nat -> Write

  datatype FieldValues = FieldValues(bindings: map<BindingId, Binding>, leases: map<BindingId, Lease>, turns: seq<Turn>,
                                     replies: seq<Reply>, events: seq<EventId>, history: History)

  /** The turns that stay in memory, and the others. */
  method SplitTurns(turns: seq<Turn>) returns (kept: seq<Turn>, dropped: seq<Turn>)
    ensures TurnsShortened(turns, kept) && TurnsDropped(turns, dropped)
  {
    kept := TailKeepingKeys(turns, TURN_HISTORY_LIMIT, LiveIds(turns), TurnKey);
    dropped := DroppedTurns(turns);
  }
  /** The replies that stay in memory, and the others. */
  method SplitReplies(replies: seq<Reply>) returns (kept: seq<Reply>, dropped: seq<Reply>)
    ensures RepliesShortened(replies, kept) && RepliesDropped(replies, dropped)
  {
    kept := TailKeepingKeys(replies, REPLY_HISTORY_LIMIT, PreparedIds(replies), ReplyKey);
    dropped := DroppedReplies(replies);
  }

  ghost predicate KeptLists(was: FieldValues, turns: seq<Turn>, replies: seq<Reply>, events: seq<EventId>) {
    EventsShortened(was.events, events) && (Calm(was.turns, was.bindings) && Short(was.turns, was.replies) ==> turns == was.turns && replies == was.replies)
  }
  ghost predicate RestoredIn(was: FieldValues, now: FieldValues) {
    EventsShortened(was.events, now.events) && (Calm(was.turns, now.bindings) ==> TurnsShortened(was.turns, now.turns) && RepliesShortened(was.replies, now.replies))
  }
  /** Two stores of short lists, while one binding without doubt was changed. */
  lemma KeptTwice(was: FieldValues, mid: FieldValues, now: FieldValues, b: BindingId)
    requires RestoredIn(was, mid) == true && RestoredIn(mid, now) == true
    requires mid.bindings - {b} == was.bindings - {b} && now.bindings - {b} == was.bindings - {b}
    requires b in mid.bindings ==> !Doubtful(mid.bindings[b].watch)
    requires b in now.bindings ==> !Doubtful(now.bindings[b].watch)
    ensures KeptLists(was, now.turns, now.replies, now.events)
  {
    EventsShortenedTwice(was.events, mid.events, now.events);
    if Calm(was.turns, was.bindings) && Short(was.turns, was.replies) {
      StillCalm(was.turns, was.bindings, mid.bindings, b);
      ShortStays(was.turns, was.replies, mid.turns, mid.replies);
      StillCalm(was.turns, was.bindings, now.bindings, b);
      ShortStays(was.turns, was.replies, now.turns, now.replies);
    }
  }

  predicate OpenInv(k: int) { true }

  class FeishuBridge {
    var bindings: map<BindingId, Binding>
    var leases: map<BindingId, Lease>
    var turns: seq<Turn>
    var replies: seq<Reply>
    var eventIds: seq<EventId>
    var renewFailures: map<BindingId, Time>
    var noticed: Noticed
    var queued: set<AttemptId>
    var inFlight: set<AttemptId>
    var renewals: set<Lease>
    var process: nat
    var history: History
    // the replying turns whose reply goes out no more
    ghost var stuck: set<TurnId>
    // where the running operation began
    ghost var base: Base

    ghost predicate Inv()
      reads `bindings, `leases, `turns, `replies, `eventIds, `renewFailures, `inFlight, `noticed, `stuck, `renewals,
      `process, `history
    {
      forall k: int {:trigger OpenInv(k)} :: OpenInv(k) ==>
        && BindingsSound(history, process, bindings, leases) == true
        && RenewalsSound(process, bindings, renewals) == true
        && WorkSound(history, process, CurrentWork()) == true
        && NoticesSound(history, process, bindings, replies, noticed) == true
    }
    ghost function CurrentWork(): Work
      reads `turns, `replies, `eventIds, `renewFailures, `inFlight, `noticed, `stuck
    {
      Work(turns, replies, eventIds, renewFailures, inFlight, noticed, stuck)
    }

    /** The invariant, and what has happened since the operation began. */
    ghost predicate Steady()
      reads `bindings, `leases, `turns, `replies, `eventIds, `renewFailures, `inFlight, `noticed, `stuck, `renewals,
      `process, `history, `base
    {
      Inv() && Moved(base, turns, replies, history) == true && base.process == process
    }

    ghost function Now(): Base
      reads `process, `turns, `replies, `history
    {
      Base(process, turns, replies, history, None)
    }
    /** The operation began there and starts no turn but `start`. */
    ghost predicate Since(was: Base, start: Option<TurnId>)
      reads `base
    {
      base == was.(incoming := start)
    }

    /** An id that names no binding, now or when a lease went out for renewal. */
    predicate NewBinding(b: BindingId)
      reads `bindings, `renewals, `process
    {
      b !in bindings && forall l | l in renewals :: l.owner != Owner(Feishu, ForBinding(b, process))
    }

    function Fields(): FieldValues
      reads `bindings, `leases, `turns, `replies, `eventIds, `history
    {
      FieldValues(bindings, leases, turns, replies, eventIds, history)
    }
    /** Nothing has changed. */
    ghost predicate Untouched(was: FieldValues)
      reads `bindings, `leases, `turns, `replies, `eventIds, `history
    {
      Fields() == was
    }

    /** The first process, with nothing stored. */
    constructor ()
      ensures Steady() && Since(Now(), None) && history == Then(Start, Woke(1)) && process == 1
      ensures bindings == map[] && leases == map[] && renewals == {} && turns == [] && replies == [] && eventIds == []
        && inFlight == {}
    {
      bindings, leases, turns, replies, eventIds := map[], map[], [], [], [];
      renewFailures, inFlight, queued, renewals, history, process := map[], {}, {}, {}, Then(Start, Woke(1)), 1;
      noticed, stuck := Noticed({}, {}), {};
      new;
      RestartSound(Start, 0, []);
      assert AllWoken(DiskBindings(Start)) == map[] && WorkOnFile(Start, []) == CurrentWork();
      Begin(None);
    }

    ghost method Begin(start: Option<TurnId>)
      requires Inv()
      modifies `base
      ensures Since(Now(), start) && Steady()
    {
      base := Now().(incoming := start);
      MovesStart(base);
    }

    // ----- what the invariant says of one record

    lemma OwnLease(b: BindingId)
      requires Inv() && b in leases
      ensures b in bindings && leases[b].target == bindings[b].target
        && leases[b].owner == Owner(Feishu, ForBinding(b, process))
    {
      assert OpenInv(0);
      LeaseOwn(history, process, bindings, leases, b);
    }
    lemma OwnWatch(b: BindingId)
      requires Inv() && b in bindings
      ensures BindingTracked(history, bindings[b])
      ensures bindings[b].watch.Some? ==>
        WatchEvidence(history, bindings[b].watch.value) && Recalls(history, bindings[b].watch.value)
    {
      assert OpenInv(0);
      OwnTracked(history, process, bindings, leases, b);
    }
    lemma OneReply(j: nat, id: AttemptId)
      requires Inv() && j < |replies| && replies[j].id == id
      ensures forall r | r in replies && r.id == id :: r == replies[j]
    {
      assert OpenInv(0);
      OnlyReply(history, process, CurrentWork(), j, id);
    }
    lemma DueReply(t: Turn)
      requires Inv() && t in turns && t.status.Awaiting?
      ensures Unspent(history, process, ReplyTo(t.id))
    {
      assert OpenInv(0);
      ReplyDue(history, process, CurrentWork(), t);
    }
    lemma NewEvent(e: EventId)
      requires Inv() && e !in eventIds
      ensures !Typed(history, e)
    {
      assert OpenInv(0);
      UnseenUntyped(history, process, CurrentWork(), e);
    }

    lemma CutLawful(cut: History)
      requires Inv() && Earlier(cut, history)
      ensures Lawful(cut) && SentUpTo(cut, process)
    {
      assert OpenInv(0);
      CutSound(history, process, CurrentWork(), cut);
    }

    // ----- bindings and leases

    method Put(b: BindingId, x: Binding)
      requires Steady() && b in bindings && Replaces(history, bindings[b], x)
      modifies `bindings
      ensures Steady()
      ensures bindings == old(bindings)[b := x] && bindings - {b} == old(bindings) - {b}
    {
      assert OpenInv(0);
      BindingReplaced(history, process, bindings, leases, b, x);
      NoticesReplaced(history, process, bindings, replies, noticed, b, x);
      RenewalsKept(process, bindings, renewals, b, x);
      bindings := bindings[b := x];
    }

    method AddBinding(b: BindingId, x: Binding)
      requires Steady() && NewBinding(b) && x.watch.None? && forall c | c in bindings :: bindings[c].chat != x.chat
      modifies `bindings
      ensures Steady()
      ensures bindings == old(bindings)[b := x] && bindings - {b} == old(bindings) - {b}
    {
      assert OpenInv(0);
      BindingAdded(history, process, bindings, leases, b, x);
      NoticesUnwatched(history, process, bindings, replies, noticed, b, x);
      RenewalsKept(process, bindings, renewals, b, x);
      bindings := bindings[b := x];
    }

    method RemoveBinding(b: BindingId)
      requires Steady()
      modifies `bindings, `leases
      ensures Steady()
      ensures bindings == old(bindings) - {b} && leases == old(leases) - {b}
      ensures bindings - {b} == old(bindings) - {b} && leases - {b} == old(leases) - {b}
    {
      assert OpenInv(0);
      BindingRemoved(history, process, bindings, leases, b);
      NoticesLeft(history, process, bindings, replies, noticed, b);
      RenewalsLeft(process, bindings, renewals, b);
      bindings, leases := bindings - {b}, leases - {b};
    }

    method SetLease(b: BindingId, l: Lease)
      requires Steady() && b in bindings
      requires l.target == bindings[b].target && l.owner == Owner(Feishu, ForBinding(b, process))
      modifies `leases
      ensures Steady()
      ensures leases == old(leases)[b := l] && leases - {b} == old(leases) - {b}
    {
      assert OpenInv(0);
      LeaseSet(history, process, bindings, leases, b, l);
      leases := leases[b := l];
    }

    method DropLease(b: BindingId)
      requires Steady()
      modifies `leases
      ensures Steady()
      ensures leases == old(leases) - {b} && leases - {b} == old(leases) - {b}
    {
      assert OpenInv(0);
      LeaseDropped(history, process, bindings, leases, b);
      leases := leases - {b};
    }

    /** Sets a binding's status and handoff record; a watch comes along only where the
        binding already owned the terminal. */
    method SetStanding(b: BindingId, status: BindingStatus, k: Option<Handoff>)
      requires Steady() && b in bindings
      requires Owning(status) ==> Owning(bindings[b].status) || !ActiveWatch(bindings[b].watch)
      modifies `bindings
      ensures Steady()
      ensures bindings == old(bindings)[b := old(bindings[b]).(status := status, handoff := k)]
      ensures bindings - {b} == old(bindings) - {b}
    {
      Put(b, bindings[b].(status := status, handoff := k));
    }

    method MarkStale(b: BindingId)
      requires Steady() && b in bindings
      modifies `bindings
      ensures Steady()
      ensures bindings == old(bindings)[b := old(bindings[b]).(status := Stale)]
        && bindings - {b} == old(bindings) - {b}
    {
      Put(b, bindings[b].(status := Stale));
    }

    method EndWatch(b: BindingId, status: WatchStatus)
      requires Steady() && b in bindings && (status.Cancelled? || status.RecoveryRequired?)
      modifies `bindings
      ensures Steady()
      ensures bindings == old(bindings)[b := old(bindings[b]).(watch := Ended(old(bindings[b]).watch, status))]
      ensures bindings - {b} == old(bindings) - {b}
    {
      Put(b, bindings[b].(watch := Ended(bindings[b].watch, status)));
    }

    // ----- turns

    method EndTurn(i: nat, status: TurnStatus, now: Time)
      requires Steady() && i < |turns| && Live(turns[i].status)
      requires status.Cancelled? || status.RecoveryRequired?
      modifies `turns
      ensures Steady()
      ensures turns == old(turns)[i := old(turns[i]).(status := status, completedAt := Some(now))]
      ensures NoLive(turns, old(turns[i]).binding)
    {
      UpdateTurn(i, turns[i].(status := status, completedAt := Some(now)));
    }

    /** Changes the binding's live turn, which stays live. */
    method UpdateLive(b: BindingId, t: Turn)
      requires Steady() && Working(turns, b).Some? && MayMove(Working(turns, b).value, t) && Live(t.status)
      modifies `turns
      ensures Steady() && Working(turns, b) == Some(t) && turns == Renewed(old(turns), b, t)
    {
      assert OpenInv(0);
      var i := ActiveTurn(turns, b).value;
      UpdateTurn(i, t);
      assert turns[i] == t;
      LiveIsWorking(history, process, CurrentWork(), t);
    }

    /** A turn may become this; before it waits for output, its input was typed, and before it is
        replying, its reply is prepared, or it counts as stuck. */
    ghost predicate MayMove(a: Turn, t: Turn)
      reads `base, `history, `process, `replies, `stuck
    {
      && Progress(base.incoming, a, t)
      && (t.status.Replying? && !a.status.Replying? ==> (t.id in stuck <==> ReplyTo(t.id) !in PreparedIds(replies)))
      && (a.status.Prepared? && t.status.Awaiting? ==>
           EverTyped(history, t.id.event) && !Replied(history, process, t.id) && Said(history, t.id).None?)
    }

    method UpdateTurn(i: nat, t: Turn)
      requires Steady() && i < |turns| && MayMove(turns[i], t)
      modifies `turns
      ensures Steady()
      ensures turns == old(turns)[i := t]
      ensures old(Live(turns[i].status)) && !Live(t.status) ==> NoLive(turns, t.binding)
    {
      assert OpenInv(0);
      TurnSet(history, process, CurrentWork(), i, t);
      MovesTurn(base, turns, replies, history, i, t);
      turns := turns[i := t];
    }

    method PushTurn(t: Turn)
      requires Steady() && NoLive(turns, t.binding) && StartsFor(base.incoming, t) && t.status.Prepared?
      modifies `turns
      ensures Steady()
      ensures turns == old(turns) + [t]
      ensures Live(t.status) ==> Working(turns, t.binding) == Some(t)
    {
      assert OpenInv(0);
      TurnPushed(history, process, CurrentWork(), t);
      if Live(t.status) { LiveIsWorking(history, process, CurrentWork().(turns := turns + [t]), t); }
      MovesTurnBorn(base, turns, replies, history, t);
      turns := turns + [t];
    }

    // ----- outbound replies

    method PushReply(r: Reply)
      requires Steady() && !HasReply(replies, r.id) && ReplyBorn(r) && BodiesFit([r]) && Announces(noticed, r.id)
        && Unspent(history, process, r.id)
      requires r.id.ReplyTo? ==> Awaited(turns, r.id.turn)
      requires r.id.WatchNotice? ==> AllTold(bindings, r.id.watch) && r.id.watch in BoundWatches(history)
      modifies `replies
      ensures Steady()
      ensures replies == old(replies) + [r]
    {
      assert OpenInv(0);
      ReplyPushed(history, process, CurrentWork(), r);
      NoticesPushed(history, process, bindings, replies, noticed, r);
      MovesReplyBorn(base, turns, replies, history, r);
      replies := replies + [r];
    }

    method DoubtReply(i: nat)
      requires Steady() && i < |replies| && replies[i].status.Prepared?
      modifies `replies, `stuck
      ensures Steady()
      ensures stuck == Settling(turns, old(stuck), old(replies[i]).id)
      ensures replies == old(replies)[i := old(replies[i]).(status := ReplyStatus.Uncertain)]
    {
      MovesReply(base, turns, replies, history, i, replies[i].(status := ReplyStatus.Uncertain));
      SettleReply(i, ReplyStatus.Uncertain);
    }

    /** A reply is settled; a turn that is replying still is stuck then. */
    method SettleReply(i: nat, status: ReplyStatus)
      requires Inv() && i < |replies| && !status.Prepared?
      modifies `replies, `stuck
      ensures Inv() && replies == old(replies)[i := old(replies[i]).(status := status)]
      ensures stuck == Settling(turns, old(stuck), old(replies[i]).id)
    {
      assert OpenInv(0);
      ReplySettled(history, process, CurrentWork(), i, status);
      NoticesSettled(history, process, bindings, replies, noticed, i, replies[i].(status := status));
      stuck := Settling(turns, stuck, replies[i].id);
      replies := replies[i := replies[i].(status := status)];
    }

    /** Takes a turn that is not replying to be stuck, or not to be. */
    ghost method TakeAsStuck(id: TurnId, now: set<TurnId>)
      requires Steady() && now - {id} == stuck - {id}
      requires Working(turns, id.binding).Some? ==> !Working(turns, id.binding).value.status.Replying?
      modifies `stuck
      ensures Steady() && stuck == now
    {
      assert OpenInv(0);
      NoneReplying(history, process, CurrentWork(), id);
      StuckSet(history, process, CurrentWork(), id, now);
      stuck := now;
    }

    method LandCard(id: AttemptId)
      requires Steady() && forall r | r in replies && r.id == id :: !r.status.Prepared?
      modifies `inFlight, `queued
      ensures Steady()
      ensures inFlight == old(inFlight) - {id} && queued == old(queued) - {id}
    {
      assert OpenInv(0);
      CardLanded(history, process, CurrentWork(), id);
      inFlight, queued := inFlight - {id}, queued - {id};
    }

    // ----- events

    method Remember(e: EventId)
      requires Steady()
      modifies `eventIds
      ensures Steady()
      ensures eventIds == if e in old(eventIds) then old(eventIds) else old(eventIds) + [e]
    {
      assert OpenInv(0);
      if e !in eventIds {
        EventAdded(history, process, CurrentWork(), e);
        eventIds := eventIds + [e];
      }
    }

    // ----- acts

    method Log(a: Act)
      requires Steady() && IsPlain(a) && !IsWatchAct(a) && MayFollow(history, a)
      modifies `history
      ensures Steady()
      ensures history == Then(old(history), a)
    {
      assert OpenInv(0);
      PlainAct(history, process, CurrentWork(), a);
      Unwatched(history, a, process, bindings, leases);
      NoticesAct(history, a, process, bindings, replies, noticed);
      MovesAct(base, turns, replies, history, a);
      history := Then(history, a);
    }

    /** An act about the watch of `b`, which becomes `w`. */
    method LogWatch(b: BindingId, w: Watch, a: Act)
      requires Steady() && b in bindings && IsWatchAct(a) && a.watch == w.id && MayFollow(history, a)
      requires (SameWatch(bindings[b].watch, w.id) && ActiveWatch(bindings[b].watch)) || w.id !in BoundWatches(history)
      requires Tracked(Then(history, a), w) && WatchEvidence(Then(history, a), w) && Recalls(Then(history, a), w)
      modifies `bindings, `history
      ensures Steady()
      ensures bindings == old(bindings)[b := old(bindings[b]).(watch := Some(w))]
        && bindings - {b} == old(bindings) - {b}
      ensures history == Then(old(history), a)
    {
      assert OpenInv(0);
      if w.id !in BoundWatches(history) { FreshUnused(history, process, bindings, leases, w.id); }
      PlainAct(history, process, CurrentWork(), a);
      NoticesWatch(history, process, bindings, replies, noticed, b, w, a);
      WatchAct(history, process, bindings, leases, b, w, a);
      RenewalsKept(process, bindings, renewals, b, bindings[b].(watch := Some(w)));
      MovesAct(base, turns, replies, history, a);
      history := Then(history, a);
      bindings := bindings[b := bindings[b].(watch := Some(w))];
    }

    method LogCard(r: Reply)
      requires Steady() && r in replies && r.status.Prepared? && !r.body.Legacy? && r.id !in inFlight
      requires r.body.TurnReply? ==> Answered(turns, r.body).Some?
      modifies `history, `inFlight
      ensures Steady()
      ensures history == Then(old(history), CardSent(process, r)) && inFlight == old(inFlight) + {r.id}
    {
      assert OpenInv(0);
      CardLogged(history, process, CurrentWork(), r);
      Unwatched(history, CardSent(process, r), process, bindings, leases);
      NoticesSent(history, process, bindings, replies, noticed, r);
      MovesAct(base, turns, replies, history, CardSent(process, r));
      history, inFlight := Then(history, CardSent(process, r)), inFlight + {r.id};
    }

    method LogRetry(b: BindingId, now: Time)
      requires Steady()
      modifies `history, `renewFailures
      ensures Steady()
      ensures history == Then(old(history), RenewRetried(b, now))
      ensures renewFailures == if b in old(renewFailures) then old(renewFailures) else old(renewFailures)[b := now]
    {
      assert OpenInv(0);
      Log(RenewRetried(b, now));
      if b !in renewFailures {
        RetryNoted(history, process, CurrentWork(), b, now);
        renewFailures := renewFailures[b := now];
      }
    }

    method SettleRenewal(b: BindingId)
      requires Steady()
      modifies `history, `renewFailures
      ensures Steady()
      ensures history == Then(old(history), RenewSettled(b)) && renewFailures == old(renewFailures) - {b}
    {
      assert OpenInv(0);
      RenewalSettled(history, process, CurrentWork(), b);
      Unwatched(history, RenewSettled(b), process, bindings, leases);
      NoticesAct(history, RenewSettled(b), process, bindings, replies, noticed);
      MovesAct(base, turns, replies, history, RenewSettled(b));
      history, renewFailures := Then(history, RenewSettled(b)), renewFailures - {b};
    }

    // ----- activity watches

    /** Ties the watch of `b` to a lease and an output generation. */
    method Rebind(b: BindingId, w: Watch)
      requires Steady() && b in bindings && w.stopAt.None? && !w.status.Sending?
      requires (SameWatch(bindings[b].watch, w.id) && ActiveWatch(bindings[b].watch) && bindings[b].watch.value.source == w.source)
        || (w.source.None? && w.id !in BoundWatches(history))
      modifies `bindings, `history
      ensures Steady()
      ensures bindings == old(bindings)[b := old(bindings[b]).(watch := Some(w))]
        && bindings - {b} == old(bindings) - {b}
      ensures history == Then(old(history), Rebound(w.id, CorrOf(w), !SameWatch(old(bindings[b]).watch, w.id)))
      ensures Tracked(history, w) && ActiveWatch(Some(w)) == ActiveWatch(bindings[b].watch)
    {
      assert OpenInv(0);
      if w.id !in BoundWatches(history) { FreshUnused(history, process, bindings, leases, w.id); }
      OwnWatch(b);
      LogWatch(b, w, Rebound(w.id, CorrOf(w), !SameWatch(bindings[b].watch, w.id)));
    }

    /** One look at the agent of a bound watch, together with what it changes. */
    method Observe(b: BindingId, w: Watch, now: Time, running: bool, source: nat)
      requires Steady() && b in bindings && ActiveWatch(bindings[b].watch) && !w.status.Sending?
      requires var was := bindings[b].watch.value;
        && w.id == was.id && CorrOf(w) == CorrOf(was) && Tracked(history, was)
        && (running ==> w.stopAt.None? && w.source.Some? && w.source.value.id == source)
        && (!running ==> w.source == was.source && (w.stopAt == was.stopAt || w.stopAt == Some(now)))
      modifies `bindings, `history
      ensures Steady()
      ensures bindings == old(bindings)[b := old(bindings[b]).(watch := Some(w))]
        && bindings - {b} == old(bindings) - {b}
      ensures history == Then(old(history), Seen(w.id, now, running, source))
      ensures Tracked(history, w) && (!running ==> QuietAt(history, w.id, now))
    {
      OwnWatch(b);
      LogWatch(b, w, Seen(w.id, now, running, source));
    }

    /** The final result of a quiet agent is captured and goes out. */
    method Capture(b: BindingId, now: Time)
      requires Steady() && b in bindings && ActiveWatch(bindings[b].watch)
      requires var w := bindings[b].watch.value;
        && Tracked(history, w) && QuietAt(history, w.id, now) && w.source.Some?
        && w.stopAt.Some? && now - w.stopAt.value >= STOP_DEBOUNCE
      modifies `bindings, `history
      ensures Steady()
      ensures bindings == old(bindings)[b := old(bindings[b]).(watch := Some(old(bindings[b]).watch.value.(status := WatchStatus.Sending)))]
      ensures bindings - {b} == old(bindings) - {b}
      ensures var w := old(bindings[b]).watch.value;
        history == Then(old(history), Captured(w.id, now, CorrOf(w), w.source.value))
    {
      OwnWatch(b);
      var w := bindings[b].watch.value;
      LogWatch(b, w.(status := WatchStatus.Sending), Captured(w.id, now, CorrOf(w), w.source.value));
    }

    // ----- storing

    method StoreBindings()
      requires Steady()
      modifies `history
      ensures Steady()
      ensures history == Then(old(history), WroteBindings(bindings))
    {
      assert OpenInv(0);
      BindingsStored(history, process, CurrentWork(), bindings, leases);
      Unwatched(history, WroteBindings(bindings), process, bindings, leases);
      NoticesAct(history, WroteBindings(bindings), process, bindings, replies, noticed);
      MovesAct(base, turns, replies, history, WroteBindings(bindings));
      history := Then(history, WroteBindings(bindings));
    }

    method StoreEvents()
      requires Steady()
      modifies `history
      ensures Steady()
      ensures history.Then? && history.prev == old(history) && WritesEvents(history.act, eventIds) == true
    {
      assert OpenInv(0);
      var a := WroteDedup(Tail(eventIds, DEDUP_LIMIT));
      EventsWritten(history, process, CurrentWork());
      Unwatched(history, a, process, bindings, leases);
      NoticesAct(history, a, process, bindings, replies, noticed);
      MovesAct(base, turns, replies, history, a);
      history := Then(history, a);
    }

    method StoreTurns()
      requires Steady()
      modifies `history
      ensures Steady()
      ensures history.Then? && history.prev == old(history) && WritesTurns(history.act, turns) == true
    {
      assert OpenInv(0);
      var a := WroteTurns(Tail(turns, TURN_HISTORY_LIMIT));
      TurnsWritten(history, process, CurrentWork());
      Unwatched(history, a, process, bindings, leases);
      NoticesAct(history, a, process, bindings, replies, noticed);
      MovesAct(base, turns, replies, history, a);
      history := Then(history, a);
    }

    method StoreReplies()
      requires Steady() && DiskBindings(history) == bindings
      modifies `history
      ensures Steady()
      ensures history.Then? && history.prev == old(history) && WritesReplies(history.act, replies) == true
    {
      assert OpenInv(0);
      var a := WroteReplies(Tail(replies, REPLY_HISTORY_LIMIT));
      RepliesWritten(history, process, CurrentWork(), bindings);
      Unwatched(history, a, process, bindings, leases);
      NoticesAct(history, a, process, bindings, replies, noticed);
      MovesAct(base, turns, replies, history, a);
      history := Then(history, a);
    }

    /** Writes the first `files` of the four files. */
    method WriteFiles(files: nat)
      requires Steady()
      modifies `history
      ensures Steady()
      ensures OnlyWrites(old(history), history) && (files == 0 ==> history == old(history))
      ensures files >= 4 ==> Stored(history, bindings, turns, eventIds)
      ensures files >= 4 ==> JustWritten(history, replies, eventIds)
    {
      if files < 1 { return; }
      StoreBindings();
      ghost var first := history;
      if files < 2 { return; }
      StoreEvents();
      EventsNext(old(history), first, history, eventIds);
      if files < 3 { return; }
      StoreTurns();
      TurnsNext(old(history), first, history, eventIds, turns);
      if files < 4 { return; }
      StoreReplies();
      RepliesNext(old(history), first, history, bindings, eventIds, turns, replies);
    }

    // ----- trimming the in-memory history

    method TrimInMemoryHistory()
      requires Steady() && JustWritten(history, replies, eventIds) == true
      modifies `turns, `replies, `eventIds, `history
      ensures Steady()
      ensures ListsTrimmed(old(CurrentWork()), CurrentWork()) == true && SameLive(old(turns), turns) == true
      ensures TwiceDiscarded(old(history), history) == true
    {
      TrimTurns();
      TrimReplies();
      TrimEvents();
      ListsTrimmedIs(old(CurrentWork()), CurrentWork());
    }

    method TrimTurns()
      requires Steady() && JustWritten(history, replies, eventIds) == true
      modifies `turns, `history
      ensures Steady() && JustWritten(history, replies, eventIds) == true
      ensures history.Then? && history.prev == old(history) && history.act.Discarded?
      ensures TurnsShortened(old(turns), turns) == true && SameLive(old(turns), turns) == true
    {
      assert OpenInv(0);
      var kept, dropped := SplitTurns(turns);
      TurnsTrimSound(base, history, process, bindings, leases, CurrentWork(), kept, dropped);
      turns, history := kept, Then(history, Discarded(dropped, []));
    }

    method TrimReplies()
      requires Steady() && JustWritten(history, replies, eventIds) == true
      modifies `replies, `history
      ensures Steady()
      ensures RepliesShortened(old(replies), replies) == true
      ensures history.Then? && history.prev == old(history) && history.act.Discarded?
      ensures DiskEvents(history) == Tail(eventIds, DEDUP_LIMIT)
    {
      assert OpenInv(0);
      var kept, dropped := SplitReplies(replies);
      TrimSound(base, history, process, bindings, leases, CurrentWork(), kept, dropped);
      replies, history := kept, Then(history, Discarded([], dropped));
    }

    method TrimEvents()
      requires Steady() && DiskEvents(history) == Tail(eventIds, DEDUP_LIMIT)
      modifies `eventIds
      ensures Steady()
      ensures eventIds == Tail(old(eventIds), DEDUP_LIMIT)
    {
      assert OpenInv(0);
      EventsTrimmed(history, process, CurrentWork());
      if |eventIds| > DEDUP_LIMIT { eventIds := Tail(eventIds, DEDUP_LIMIT); }
    }

    // ----- recovery notices

    method NoticeTurns()
      requires Steady()
      modifies `noticed, `replies
      ensures Steady()
      ensures NoticesAdded(old(replies), replies)
      ensures forall t | t in turns :: TurnNoticed(t, bindings, old(noticed).turns, noticed.turns, replies)
      ensures noticed == old(noticed).(turns := old(noticed).turns + LostTurnIds(turns))
      ensures TurnNotices(turns, bindings, old(noticed), old(replies), replies) == true
      ensures Calm(turns, bindings) == true ==> replies == old(replies) && noticed == old(noticed)
    {
      var i := 0;
      while i < |turns|
        invariant 0 <= i <= |turns| && Steady()
        invariant NoticesAdded(old(replies), replies)
        invariant noticed == old(noticed).(turns := old(noticed).turns + LostTurnIds(turns[..i]))
        invariant TurnNotices(turns[..i], bindings, old(noticed), old(replies), replies) == true
        invariant Calm(turns, bindings) == true ==> replies == old(replies) && noticed == old(noticed)
      {
        ghost var mid := replies;
        LostGrows(turns, i);
        if turns[i].status.RecoveryRequired? && turns[i].id !in noticed.turns { NoticeTurn(old(replies), turns[i]); }
        TurnNoticesNext(turns, bindings, old(noticed), old(replies), mid, replies, i);
        i := i + 1;
      }
      assert turns[..|turns|] == turns;
      TurnNoticesDone(turns, bindings, old(noticed), noticed, old(replies), replies);
    }

    /** Announces one lost turn. */
    method NoticeTurn(ghost was: seq<Reply>, t: Turn)
      requires Steady() && NoticesAdded(was, replies) && t in turns && t.status.RecoveryRequired?
        && t.id !in noticed.turns
      modifies `noticed, `replies
      ensures Steady() && NoticesAdded(was, replies)
      ensures noticed == old(noticed).(turns := old(noticed).turns + {t.id})
      ensures forall id: TurnId ::
        HasReply(replies, TurnNotice(id)) <==> HasReply(old(replies), TurnNotice(id)) || (id == t.id && id.binding in bindings)
      ensures !Calm(turns, bindings)
    {
      assert OpenInv(0);
      NotCalm(turns, bindings, t);
      NoticeDue(history, process, CurrentWork(), t.id);
      NoticedGrows(history, process, CurrentWork(), noticed.(turns := noticed.turns + {t.id}));
      NoticesGrow(history, process, bindings, replies, noticed, noticed.(turns := noticed.turns + {t.id}));
      noticed := noticed.(turns := noticed.turns + {t.id});
      if t.binding in bindings && !HasReply(replies, TurnNotice(t.id)) {
        AddNotice(was, TurnNotice(t.id), TURN_NOTICE, t.binding);
      }
    }

    /** Puts one notice to the chat of a binding on record. */
    method AddNotice(ghost was: seq<Reply>, id: AttemptId, text: Text, b: BindingId)
      requires Steady() && b in bindings && !HasReply(replies, id) && NoticesAdded(was, replies)
      requires !id.ReplyTo? && Announces(noticed, id) && Unspent(history, process, id)
      requires id.WatchNotice? ==> AllTold(bindings, id.watch) && id.watch in BoundWatches(history)
      modifies `replies
      ensures Steady() && NoticesAdded(was, replies)
      ensures replies == old(replies) + [Reply(id, Notice(text, bindings[b].session, bindings[b].chat),
                                               ReplyStatus.Prepared)]
      ensures forall k :: HasReply(replies, k) <==> HasReply(old(replies), k) || k == id
    {
      var r := Reply(id, Notice(text, bindings[b].session, bindings[b].chat), ReplyStatus.Prepared);
      NoticeAdded(was, replies, r);
      KeysGrow(replies, r);
      PushReply(r);
    }

    method NoticeWatches(order: seq<BindingId>)
      requires Steady()
      modifies `noticed, `replies
      ensures Steady()
      ensures NoticesAdded(old(replies), replies)
      ensures forall b | b in order :: WatchNoticed(b, bindings, old(noticed).watches, noticed.watches, replies)
      ensures noticed.turns == old(noticed).turns
      ensures Calm(turns, bindings) == true ==> replies == old(replies) && noticed == old(noticed)
      ensures forall id | HasReply(old(replies), id) :: HasReply(replies, id)
      ensures forall id: TurnId :: HasReply(replies, TurnNotice(id)) <==> HasReply(old(replies), TurnNotice(id))
    {
      var i := 0;
      while i < |order|
        invariant 0 <= i <= |order| && Steady()
        invariant NoticesAdded(old(replies), replies)
        invariant old(noticed).watches <= noticed.watches && noticed.turns == old(noticed).turns
        invariant forall k | 0 <= k < i :: WatchNoticed(order[k], bindings, old(noticed).watches, noticed.watches,
                                                        replies)
        invariant forall id | id in noticed.watches && id !in old(noticed).watches :: HasReply(replies, WatchNotice(id))
        invariant forall id | HasReply(old(replies), id) :: HasReply(replies, id)
        invariant forall id: TurnId :: HasReply(replies, TurnNotice(id)) <==> HasReply(old(replies), TurnNotice(id))
        invariant Calm(turns, bindings) == true ==> replies == old(replies) && noticed == old(noticed)
      {
        var b := order[i];
        if b in bindings && Doubtful(bindings[b].watch) && bindings[b].watch.value.id !in noticed.watches {
          NoticeWatch(old(replies), b);
        }
        i := i + 1;
      }
    }

    /** Announces one watch in doubt. */
    method NoticeWatch(ghost was: seq<Reply>, b: BindingId)
      requires Steady() && NoticesAdded(was, replies)
      requires b in bindings && Doubtful(bindings[b].watch) && bindings[b].watch.value.id !in noticed.watches
      modifies `noticed, `replies
      ensures Steady() && NoticesAdded(was, replies)
      ensures noticed == old(noticed).(watches := old(noticed).watches + {bindings[b].watch.value.id})
      ensures HasReply(replies, WatchNotice(bindings[b].watch.value.id))
      ensures forall id | HasReply(old(replies), id) :: HasReply(replies, id)
      ensures forall id: TurnId :: HasReply(replies, TurnNotice(id)) <==> HasReply(old(replies), TurnNotice(id))
      ensures !Calm(turns, bindings)
    {
      assert OpenInv(0);
      var w := bindings[b].watch.value;
      DoubtIsNotCalm(turns, bindings, b);
      WatchNoticeDue(history, process, bindings, leases, replies, noticed, b);
      NoticedGrows(history, process, CurrentWork(), noticed.(watches := noticed.watches + {w.id}));
      NoticesGrow(history, process, bindings, replies, noticed, noticed.(watches := noticed.watches + {w.id}));
      noticed := noticed.(watches := noticed.watches + {w.id});
      if !HasReply(replies, WatchNotice(w.id)) {
        AddNotice(was, WatchNotice(w.id), if w.status.Uncertain? then UNCERTAIN_NOTICE else WATCH_NOTICE, b);
      }
    }

    /** Every lost turn and every doubtful watch gets its notice, once. */
    method AddNotices(order: seq<BindingId>)
      requires Steady()
      modifies `noticed, `replies
      ensures Steady()
      ensures Carried(old(replies), replies)
      ensures Announced(turns, bindings, order, old(noticed), noticed, replies)
      ensures Calm(turns, bindings) == true ==> replies == old(replies)
      ensures Noticing(turns, bindings, old(noticed), old(replies), replies) == true
    {
      NoticeTurns();
      ghost var mid := replies;
      NoticeWatches(order);
      NoticingIs(turns, bindings, old(noticed), old(replies), mid, replies);
      CarriedTwice(old(replies), mid, replies);
    }

    method QueuePrepared()
      modifies `queued
      ensures Queued(replies, old(queued), queued)
    {
      queued := queued + Sendable(replies);
    }

    /** Adds the missing notices, writes the files in order, and on success trims
        the history and queues every prepared attempt. */
    method Persist(w: Write) returns (ok: bool)
      requires Steady()
      modifies `history, `turns, `replies, `eventIds, `noticed, `queued
      ensures Steady()
      ensures ok <==> w.files >= 4
      ensures OnlyWrites(old(history), history)
      ensures SameLive(old(turns), turns) == true
      ensures Carried(old(replies), replies) == true && Newest(eventIds) == Newest(old(eventIds))
      ensures ok ==> Stored(history, bindings, old(turns), old(eventIds)) == true
      ensures ok ==>
        Trimmed(old(CurrentWork()), CurrentWork(), old(queued), queued, bindings, w.order, old(noticed),
                noticed) == true
      ensures !ok ==> turns == old(turns) && eventIds == old(eventIds) && queued == old(queued)
      ensures w.files == 0 ==> history == old(history)
      ensures ok ==> EventsShortened(old(eventIds), eventIds) == true && Queued(replies, old(queued), queued) == true
      // a notice about a turn comes to wait to be sent exactly if it is due and none is on record
      ensures Noticing(old(turns), bindings, old(noticed), old(replies), replies) == true
      // without notices to give, the lists are only trimmed
      ensures ok && Calm(old(turns), bindings) == true ==>
        TurnsShortened(old(turns), turns) == true && RepliesShortened(old(replies), replies) == true
    {
      AddNotices(w.order);
      ghost var noted := history;
      WriteFiles(w.files);
      ok := w.files >= 4;
      if ok {
        ghost var written := history;
        ghost var all := replies;
        Tidy(old(CurrentWork()), w.order);
        NoticingTrimmed(old(turns), bindings, old(noticed), old(replies), all, replies);
        DiscardsAreWrites(noted, written, history);
      }
    }

    /** After a complete write: trims the history and queues every prepared attempt. */
    method Tidy(ghost was: Work, ghost order: seq<BindingId>)
      requires Steady() && was.turns == turns && was.events == eventIds && was.failures == renewFailures
        && was.inFlight == inFlight && was.stuck == stuck
      requires Carried(was.replies, replies) == true
        && Announced(turns, bindings, order, was.noticed, noticed, replies) == true
      requires JustWritten(history, replies, eventIds) == true
      requires Stored(history, bindings, turns, eventIds) == true
      modifies `history, `turns, `replies, `eventIds, `queued
      ensures Steady()
      ensures Stored(history, bindings, was.turns, was.events) == true
      ensures Trimmed(was, CurrentWork(), old(queued), queued, bindings, order, was.noticed, noticed) == true
      ensures SameLive(old(turns), turns) == true && Carried(was.replies, replies) == true
        && Newest(eventIds) == Newest(old(eventIds))
      ensures TwiceDiscarded(old(history), history) == true
      ensures EventsShortened(old(eventIds), eventIds) == true && Queued(replies, old(queued), queued) == true
      ensures TurnsShortened(old(turns), turns) == true && RepliesShortened(old(replies), replies) == true
    {
      TrimInMemoryHistory();
      ListsTrimmedAre(old(CurrentWork()), CurrentWork());
      ghost var trimmed := CurrentWork();
      QueuePrepared();
      assert trimmed == CurrentWork();
      StoredStill(old(history), history, bindings, was.turns, was.events);
      TrimmedIs(was, old(CurrentWork()), trimmed, old(queued), queued, bindings, order, was.noticed, noticed);
    }

    /** A persist, seen from one binding. */
    method Save(ghost b: BindingId, w: Write) returns (ok: bool)
      requires Steady()
      modifies `history, `turns, `replies, `eventIds, `noticed, `queued
      ensures Steady()
      ensures ok <==> w.files >= 4
      ensures OnlyWrites(old(history), history) && Carried(old(replies), replies) == true
      ensures Working(turns, b) == Working(old(turns), b) && Newest(eventIds) == Newest(old(eventIds))
    {
      ok := Persist(w);
      SameLiveAt(old(turns), turns, b);
    }

    /** The same, with what the files then hold. */
    method SaveAll(ghost b: BindingId, w: Write) returns (ok: bool)
      requires Steady()
      modifies `history, `turns, `replies, `eventIds, `noticed, `queued
      ensures Steady()
      ensures ok <==> w.files >= 4
      ensures OnlyWrites(old(history), history)
      ensures Working(turns, b) == Working(old(turns), b) && Newest(eventIds) == Newest(old(eventIds))
      ensures ok ==> DiskBindings(history) == bindings
      ensures w.files == 0 ==> history == old(history)
      ensures ok ==> EventsShortened(old(eventIds), eventIds) == true
      ensures ok && Calm(old(turns), bindings) == true ==>
        TurnsShortened(old(turns), turns) == true && RepliesShortened(old(replies), replies) == true
    {
      ok := Persist(w);
      SameLiveAt(old(turns), turns, b);
      if ok { StoredBindings(history, bindings, old(turns), old(eventIds)); }
    }

    // ----- operations on one binding

    /** Ends the binding's live turn, if it has one. */
    method EndLive(b: BindingId, status: TurnStatus, now: Time)
      requires Steady() && (status.Cancelled? || status.RecoveryRequired?)
      modifies `turns
      ensures Steady() && Working(turns, b).None?
      ensures turns == Concluded(old(turns), b, status, now)
    {
      var turn := ActiveTurn(turns, b);
      if turn.Some? { EndTurn(turn.value, status, now); }
    }

    /** Cancels the binding's live turn and watch and gives it a new status. */
    method StopWork(b: BindingId, status: BindingStatus, now: Time)
      requires Steady() && b in bindings
      modifies `bindings, `turns
      ensures Steady() && Working(turns, b).None?
      ensures turns == Concluded(old(turns), b, TurnStatus.Cancelled, now)
      ensures bindings == old(bindings)[b := old(bindings[b]).(status := status,
                                                               watch := Ended(old(bindings[b]).watch,
                                                                              WatchStatus.Cancelled))]
      ensures bindings - {b} == old(bindings) - {b}
    {
      EndLive(b, TurnStatus.Cancelled, now);
      Put(b, bindings[b].(status := status, watch := Ended(bindings[b].watch, WatchStatus.Cancelled)));
    }

    /** Gives up the terminal: whatever was running needs recovery. */
    method Fence(b: BindingId, now: Time, w: Write) returns (ok: bool)
      requires Steady() && b in bindings
      modifies `bindings, `leases, `history, `turns, `replies, `eventIds, `noticed, `queued
      ensures Steady() && Working(turns, b).None?
      ensures bindings == old(bindings)[b := old(bindings[b]).(status := Stale,
                                                               watch := Ended(old(bindings[b]).watch,
                                                                              WatchStatus.RecoveryRequired))]
      ensures bindings - {b} == old(bindings) - {b}
      ensures leases == old(leases) - {b} && leases - {b} == old(leases) - {b}
      ensures OnlyWrites(old(history), history)
      ensures Newest(eventIds) == Newest(old(eventIds))
    {
      DropLease(b);
      EndLive(b, TurnStatus.RecoveryRequired, now);
      Put(b, bindings[b].(status := Stale, watch := Ended(bindings[b].watch, WatchStatus.RecoveryRequired)));
      ok := Save(b, w);
    }

    /** Gives up the lease, marks the binding stale and tries to store that. */
    method Abandon(b: BindingId, w: Write)
      requires Steady() && b in bindings
      modifies `bindings, `leases, `history, `turns, `replies, `eventIds, `noticed, `queued
      ensures Steady()
      ensures bindings == old(bindings)[b := old(bindings[b]).(status := Stale)]
        && bindings - {b} == old(bindings) - {b}
      ensures leases == old(leases) - {b} && leases - {b} == old(leases) - {b}
      ensures Working(turns, b) == Working(old(turns), b)
    {
      DropLease(b);
      MarkStale(b);
      var _ := Save(b, w);
    }

    method PauseBinding(b: BindingId, force: bool, release: Answer<View>, now: Time, w0: Write, w1: Write)
      returns (r: Outcome)
      requires Inv()
      modifies this
      ensures stuck == old(stuck)
      ensures Steady() && Since(old(Now()), None)
      ensures Confined(b, old(bindings), old(leases), bindings, leases)
      ensures r.Refused? <==> b !in old(bindings) || Busy(old(turns), b, old(bindings[b]), force)
      ensures r.Refused? ==> Untouched(old(Fields()))
      ensures !r.Refused? ==> b in bindings && Working(turns, b).None? && !ActiveWatch(bindings[b].watch)
      ensures r.Done? ==> bindings[b].status == Paused && b !in leases
      ensures r.Done? && b in old(leases) ==> release.Got? && Released(old(leases[b]), release.value)
    {
      Begin(None);
      if b !in bindings || Busy(turns, b, bindings[b], force) { return Refused; }
      StopWork(b, Pausing, now);
      var ok := Save(b, w0);
      if !ok { return Failed; }
      ok := FinishPause(b, release, w1);
      return if ok then Done else Failed;
    }

    /** A pausing binding is paused once its lease, if any, is known to be released. */
    method FinishPause(b: BindingId, release: Answer<View>, w: Write) returns (ok: bool)
      requires Steady() && b in bindings && Working(turns, b).None? && !ActiveWatch(bindings[b].watch)
      modifies `bindings, `leases, `history, `turns, `replies, `eventIds, `noticed, `queued
      ensures Steady() && bindings - {b} == old(bindings) - {b} && leases - {b} == old(leases) - {b}
      ensures b in bindings && Working(turns, b).None? && !ActiveWatch(bindings[b].watch) && b !in leases
      ensures var released := b in old(leases) ==> release.Got? && Released(old(leases[b]), release.value);
        bindings[b].status == (if released then Paused else Stale) && (ok <==> released && w.files >= 4)
    {
      if b in leases && !(release.Got? && Released(leases[b], release.value)) {
        Abandon(b, w);
        return false;
      }
      DropLease(b);
      SetStanding(b, Paused, bindings[b].handoff);
      ok := Save(b, w);
    }

    /** Marks a prepared handoff uncertain and the binding stale, and tries to store that. */
    method FailHandoff(b: BindingId, w: Write)
      requires Steady() && b in bindings
      modifies `bindings, `history, `turns, `replies, `eventIds, `noticed, `queued
      ensures Steady()
      ensures bindings == old(bindings)[b := old(bindings[b]).(status := Stale,
                                                               handoff := Doubted(old(bindings[b]).handoff))]
      ensures bindings - {b} == old(bindings) - {b} && BoundWatches(history) == BoundWatches(old(history))
      ensures Working(turns, b) == Working(old(turns), b)
    {
      SetStanding(b, Stale, Doubted(bindings[b].handoff));
      var _ := Save(b, w);
      WritesBindNothing(old(history), history);
    }

    /** Records a prepared handoff, stores it, and only then asks for the commit. */
    method CommitHandoff(b: BindingId, k: Handoff, w: Write) returns (asked: bool)
      requires Steady() && b in bindings && k.status == HandoffStatus.Prepared
      requires k.role.Current? ==> Working(turns, b).None? && !ActiveWatch(bindings[b].watch)
      modifies `bindings, `history, `turns, `replies, `eventIds, `noticed, `queued
      ensures Steady()
      ensures bindings == old(bindings)[b := old(bindings[b]).(handoff := Some(k))]
        && bindings - {b} == old(bindings) - {b}
      ensures asked <==> w.files >= 4
      ensures asked ==> history.Then? && history.act == CommitIssued(b, k)
      ensures BoundWatches(history) == BoundWatches(old(history))
      ensures Working(turns, b) == Working(old(turns), b)
      ensures Newest(eventIds) == Newest(old(eventIds))
    {
      ghost var was, events := turns, eventIds;
      SetStanding(b, bindings[b].status, Some(k));
      asked := Persist(w);
      WritesBindNothing(old(history), history);
      SameLiveAt(was, turns, b);
      if asked {
        StoredCovers(history, bindings, was, events, b, k);
        Log(CommitIssued(b, k));
      }
    }

    /** The middle of a takeover: the handoff is begun, recorded, stored, committed. */
    method HandOver(b: BindingId, lease: Lease, next: Owner, drain: Drain, begin: Answer<View>, commit: Answer<Grant>,
                    now: Time, w0: Write, w1: Write)
      returns (granted: Option<Lease>)
      requires Steady() && b in bindings && Working(turns, b).None? && !ActiveWatch(bindings[b].watch)
      modifies `bindings, `leases, `history, `turns, `replies, `eventIds, `noticed, `queued
      ensures Steady()
      ensures bindings - {b} == old(bindings) - {b} && leases - {b} == old(leases) - {b}
      ensures b in bindings && bindings[b].(status := Stale, handoff := None) == old(bindings[b]).(status := Stale, handoff := None)
      ensures Working(turns, b).None?
      ensures granted.Some? ==>
        commit.Got? && granted == Granted(commit.value, old(bindings[b]).target, next, false, now)
      ensures granted.Some? ==>
        bindings[b].status == Paused && b !in leases && begin.Got? && begin.value.handoffId.Some?
      ensures granted.Some? ==>
        bindings[b].handoff == Some(HandoffOf(begin.value.handoffId.value, lease, next.kind, Current,
                                              HandoffStatus.Committed, drain))
    {
      if begin.Threw? || begin.value.handoffId.None? { return None; }
      var k := HandoffOf(begin.value.handoffId.value, lease, next.kind, Current, HandoffStatus.Prepared, drain);
      var asked := CommitHandoff(b, k, w0);
      if !asked || commit.Threw? { return None; }
      granted := Granted(commit.value, bindings[b].target, next, false, now);
      if granted.None? { return None; }
      var ok := ConcludeHandoff(b, k, w1);
      if !ok { return None; }
    }

    method TakeoverBinding(b: BindingId, dashboard: Instance, force: bool, begin: Answer<View>, commit: Answer<Grant>,
                           now: Time, w0: Write, w1: Write, w2: Write, w3: Write)
      returns (r: Outcome, granted: Option<Lease>)
      requires Inv()
      modifies this
      ensures stuck == old(stuck)
      ensures Steady() && Since(old(Now()), None)
      ensures Confined(b, old(bindings), old(leases), bindings, leases)
      ensures r.Refused? <==>
        (b !in old(bindings) || b !in old(leases) || !old(bindings[b]).status.Active?
         || Busy(old(turns), b, old(bindings[b]), force))
      ensures r.Refused? ==> Untouched(old(Fields()))
      ensures !r.Refused? ==> b in bindings && Working(turns, b).None? && !ActiveWatch(bindings[b].watch)
      ensures r.Done? <==> granted.Some?
      ensures r.Done? ==>
        bindings[b].status == Paused && b !in leases && commit.Got? && begin.Got? && begin.value.handoffId.Some?
      ensures r.Done? ==>
        granted == Granted(commit.value, old(bindings[b]).target, Owner(Dashboard, dashboard), false, now)
      ensures r.Done? ==> var drain := TakeoverDrain(b, old(turns), old(bindings[b]).watch, force, now);
        bindings[b].handoff == Some(HandoffOf(begin.value.handoffId.value, old(leases[b]), Dashboard, Current,
                                              HandoffStatus.Committed, drain))
      ensures r.Failed? ==>
        (bindings[b].status == Stale && b !in leases) || (w0.files < 4 && bindings[b].status == Pausing && b in leases)
    {
      Begin(None);
      if b !in bindings || b !in leases || !bindings[b].status.Active? || Busy(turns, b, bindings[b], force) {
        return Refused, None;
      }
      var lease := leases[b];
      var drain := TakeoverDrain(b, turns, bindings[b].watch, force, now);
      StopWork(b, Pausing, now);
      var ok := Save(b, w0);
      if !ok { return Failed, None; }
      granted := HandOver(b, lease, Owner(Dashboard, dashboard), drain, begin, commit, now, w1, w2);
      if granted.Some? { return Done, granted; }
      DropLease(b);
      FailHandoff(b, w3);
      return Failed, None;
    }

    /** A committed handoff gives up the lease and pauses the binding. */
    method ConcludeHandoff(b: BindingId, k: Handoff, w: Write) returns (ok: bool)
      requires Steady() && b in bindings
      modifies `bindings, `leases, `history, `turns, `replies, `eventIds, `noticed, `queued
      ensures Steady()
      ensures bindings == old(bindings)[b := old(bindings[b]).(status := Paused,
                                                               handoff := Some(k.(status := HandoffStatus.Committed)))]
      ensures bindings - {b} == old(bindings) - {b}
      ensures leases == old(leases) - {b} && leases - {b} == old(leases) - {b}
      ensures ok <==> w.files >= 4
      ensures Working(turns, b) == Working(old(turns), b)
      ensures Newest(eventIds) == Newest(old(eventIds))
    {
      DropLease(b);
      SetStanding(b, Paused, Some(k.(status := HandoffStatus.Committed)));
      ok := Save(b, w);
    }

    /** Binds the binding's watch to a lease and looks at its agent once. */
    method StartWatch(b: BindingId, lease: Lease, s: Sight, now: Time)
      returns (ok: bool)
      requires Steady() && b in bindings && s.newId !in BoundWatches(history)
      modifies `bindings, `history
      ensures Steady()
      ensures bindings - {b} == old(bindings) - {b}
      ensures b in bindings && bindings[b].(watch := old(bindings[b]).watch) == old(bindings[b])
      ensures ok <==> CanWatch(old(bindings[b]), lease, s)
      ensures ok ==> bindings[b].watch.Some? && Tracked(history, bindings[b].watch.value)
      ensures ok ==> bindings[b].watch == Some(FirstSight(old(bindings[b]), lease, s, now))
      ensures BoundWatches(history) <= BoundWatches(old(history)) + {s.newId}
      ensures ActiveWatch(old(bindings[b]).watch) && SeesIdle(s) ==>
        LatestSeen(history, old(bindings[b]).watch.value.id) == LatestSeen(old(history),
                                                                           old(bindings[b]).watch.value.id)
    {
      if s.view.Threw? || !LeaseView(bindings[b].target, lease, s.view.value) { return false; }
      var w := Tied(bindings[b].watch, s.newId, lease, s.view.value.generation);
      OwnWatch(b);
      Rebind(b, w);
      if !Watchable(bindings[b].target, w, lease, s.look) { return false; }
      if s.look.Got? {
        Observe(b, Looked(w, s.look.value, now), now, s.look.value.running,
                if s.look.value.running then s.look.value.source.value.id else 0);
      }
      return true;
    }

    /** The handoff towards Feishu: begun, recorded, stored, committed. */
    method TakeIn(b: BindingId, local: Lease, drain: Drain, begin: Answer<View>, commit: Answer<Grant>, now: Time,
                  w: Write)
      returns (granted: Option<Lease>)
      requires Steady() && b in bindings
      modifies `bindings, `history, `turns, `replies, `eventIds, `noticed, `queued
      ensures Steady()
      ensures bindings - {b} == old(bindings) - {b}
      ensures b in bindings && bindings[b].(handoff := None) == old(bindings[b]).(handoff := None)
      ensures Working(turns, b) == Working(old(turns), b)
      ensures BoundWatches(history) == BoundWatches(old(history))
      ensures granted.Some? ==> commit.Got? && begin.Got? && begin.value.handoffId.Some?
      ensures granted.Some? ==>
        granted == Granted(commit.value, old(bindings[b]).target, Owner(Feishu, ForBinding(b, process)), false, now)
      ensures granted.Some? ==>
        bindings[b].handoff == Some(HandoffOf(begin.value.handoffId.value, local, Feishu, Next, HandoffStatus.Committed,
                                              drain))
    {
      if begin.Threw? || begin.value.handoffId.None? { return None; }
      var k := HandoffOf(begin.value.handoffId.value, local, Feishu, Next, HandoffStatus.Prepared, drain);
      var asked := CommitHandoff(b, k, w);
      if !asked || commit.Threw? { return None; }
      granted := Granted(commit.value, bindings[b].target, Owner(Feishu, ForBinding(b, process)), false, now);
      if granted.Some? { SetStanding(b, bindings[b].status, Some(k.(status := HandoffStatus.Committed))); }
    }

    /** A leased binding starts watching its agent and becomes active, or turns stale. */
    method Activate(b: BindingId, s: Sight, now: Time, w0: Write, w1: Write)
      returns (ok: bool)
      requires Steady() && b in bindings && b in leases && s.newId !in BoundWatches(history)
      modifies `bindings, `history, `turns, `replies, `eventIds, `noticed, `queued
      ensures Steady()
      ensures bindings - {b} == old(bindings) - {b}
      ensures b in bindings && bindings[b].(status := Stale, watch := None) == old(bindings[b]).(status := Stale, watch := None)
      ensures ok <==> CanWatch(old(bindings[b]), leases[b], s) && w1.files >= 4
      ensures bindings[b].status == Active <==> CanWatch(old(bindings[b]), leases[b], s)
      ensures bindings[b].status == Active || (bindings[b].status == Stale && !ActiveWatch(bindings[b].watch))
      // an active binding watches exactly the generation its lease shows
      ensures bindings[b].status == Active ==>
        bindings[b].watch == Some(FirstSight(old(bindings[b]), leases[b], s, now))
      ensures bindings[b].status == Active ==>
        CorrOf(bindings[b].watch.value) == Corr(leases[b].epoch, leases[b].id, leases[b].fence, s.view.value.generation)
      ensures ok ==> DiskBindings(history) == bindings && Restored(old(turns), old(replies), old(eventIds)) == true
      ensures BoundWatches(history) <= BoundWatches(old(history)) + {s.newId}
      ensures Working(turns, b) == Working(old(turns), b)
      ensures ActiveWatch(old(bindings[b]).watch) && SeesIdle(s) ==>
        LatestSeen(history, old(bindings[b]).watch.value.id) == LatestSeen(old(history),
                                                                           old(bindings[b]).watch.value.id)
    {
      ok := StartWatch(b, leases[b], s, now);
      ghost var tied := history;
      if ok {
        Put(b, bindings[b].(status := Active));
        ok := SaveAll(b, w1);
      } else {
        EndWatch(b, WatchStatus.RecoveryRequired);
        MarkStale(b);
        var _ := Save(b, w0);
      }
      WritesBindNothing(tied, history);
      if old(bindings[b]).watch.Some? { WritesSeeNothing(tied, history, old(bindings[b]).watch.value.id); }
    }

    /** The middle of a return: the handoff is taken in and the binding activated. */
    method TakeBack(b: BindingId, local: Lease, begin: Answer<View>, commit: Answer<Grant>, s: Sight, now: Time,
                    w: Writes)
      returns (ok: bool)
      requires Steady() && b in bindings && s.newId !in BoundWatches(history)
      modifies `bindings, `leases, `history, `turns, `replies, `eventIds, `noticed, `queued
      ensures Steady()
      ensures bindings - {b} == old(bindings) - {b} && leases - {b} == old(leases) - {b}
      ensures b in bindings && Working(turns, b) == Working(old(turns), b)
      ensures ok ==>
        bindings[b].status == Active && b in leases && commit.Got? && begin.Got? && begin.value.handoffId.Some?
      ensures ok ==>
        Some(leases[b]) == Granted(commit.value, old(bindings[b]).target, Owner(Feishu, ForBinding(b, process)), false,
                                   now)
      ensures ok ==> var drain := Drain(Drained, DashboardReturned(b), now);
        bindings[b].handoff == Some(HandoffOf(begin.value.handoffId.value, local, Feishu, Next, HandoffStatus.Committed,
                                              drain))
    {
      var granted := TakeIn(b, local, Drain(Drained, DashboardReturned(b), now), begin, commit, now, w(0));
      if granted.None? { return false; }
      SetLease(b, granted.value);
      ok := Activate(b, s, now, w(1), w(2));
    }

    method ReturnBinding(b: BindingId, local: Lease, status: Answer<View>, capable: bool, begin: Answer<View>,
                         commit: Answer<Grant>,
                         s: Sight, now: Time, w: Writes)
      returns (r: Outcome)
      requires Inv() && s.newId !in BoundWatches(history)
      modifies this
      ensures stuck == old(stuck)
      ensures Steady() && Since(old(Now()), None)
      ensures Confined(b, old(bindings), old(leases), bindings, leases)
      ensures r.Refused? <==> !(b in old(bindings) && Returnable(old(bindings[b]), local, status) && capable)
      ensures r.Refused? ==> Untouched(old(Fields()))
      ensures !r.Refused? ==> b in bindings && Working(turns, b) == Working(old(turns), b)
      ensures r.Done? ==>
        bindings[b].status == Active && b in leases && commit.Got? && begin.Got? && begin.value.handoffId.Some?
      ensures r.Done? ==>
        Some(leases[b]) == Granted(commit.value, old(bindings[b]).target, Owner(Feishu, ForBinding(b, process)), false,
                                   now)
      ensures r.Done? ==> var drain := Drain(Drained, DashboardReturned(b), now);
        bindings[b].handoff == Some(HandoffOf(begin.value.handoffId.value, local, Feishu, Next, HandoffStatus.Committed,
                                              drain))
      ensures r.Failed? ==> bindings[b].status == Stale
    {
      Begin(None);
      if b !in bindings || !Returnable(bindings[b], local, status) || !capable { return Refused; }
      var ok := TakeBack(b, local, begin, commit, s, now, w);
      if ok { return Done; }
      FailHandoff(b, w(3));
      return Failed;
    }

    method ResumeBinding(b: BindingId, capable: bool, resolved: Answer<TargetId>, grant: Answer<Grant>, s: Sight,
                         now: Time, w0: Write, w1: Write)
      returns (r: Outcome)
      requires Inv() && s.newId !in BoundWatches(history)
      modifies this
      ensures stuck == old(stuck)
      ensures Steady() && Since(old(Now()), None)
      ensures Confined(b, old(bindings), old(leases), bindings, leases)
      ensures r.Refused? ==> Untouched(old(Fields()))
      ensures b !in old(bindings) || Working(old(turns), b).Some? ==> r.Refused?
      ensures !r.Refused? ==> b in bindings && Working(turns, b).None?
      ensures !r.Refused? && resolved.Got? && resolved.value != old(bindings[b]).target ==>
        bindings[b].status == Stale && leases == old(leases)
      ensures r.Done? ==>
        bindings[b].status == Active && b in leases && grant.Got? && resolved == Got(old(bindings[b]).target)
      ensures r.Done? ==>
        Some(leases[b]) == Granted(grant.value, old(bindings[b]).target, Owner(Feishu, ForBinding(b, process)), false,
                                   now)
    {
      Begin(None);
      if b !in bindings || Working(turns, b).Some? || !capable || resolved.Threw? { return Refused; }
      if resolved.value != bindings[b].target {
        MarkStale(b);
        var _ := Save(b, w0);
        return Failed;
      }
      r := Acquire(b, grant, s, now, w0, w1);
    }

    /** Acquires a lease for a binding and activates it. */
    method Acquire(b: BindingId, grant: Answer<Grant>, s: Sight, now: Time, w0: Write, w1: Write)
      returns (r: Outcome)
      requires Steady() && b in bindings
      requires s.newId !in BoundWatches(history)
      modifies `bindings, `leases, `history, `turns, `replies, `eventIds, `noticed, `queued
      ensures Steady()
      ensures Confined(b, old(bindings), old(leases), bindings, leases)
      ensures b in bindings && Working(turns, b) == Working(old(turns), b)
      ensures r.Refused? ==> Untouched(old(Fields()))
      ensures r.Refused? <==> !(grant.Got? && Granted(grant.value, old(bindings[b]).target, Owner(Feishu, ForBinding(b, process)), false, now).Some?)
      ensures !r.Refused? ==> b in leases && Some(leases[b]) == Granted(grant.value, old(bindings[b]).target, Owner(Feishu, ForBinding(b, process)), false, now)
      ensures r.Done? ==> bindings[b].status == Active
      ensures !r.Refused? ==> (r.Done? <==> CanWatch(old(bindings[b]), leases[b], s) && w1.files >= 4)
      ensures r.Done? ==> bindings[b] == old(bindings[b]).(status := Active,
        watch := Some(FirstSight(old(bindings[b]), leases[b], s, now)))
      ensures ActiveWatch(old(bindings[b]).watch) && SeesIdle(s) ==>
        LatestSeen(history, old(bindings[b]).watch.value.id) == LatestSeen(old(history),
                                                                           old(bindings[b]).watch.value.id)
    {
      if grant.Threw? { return Refused; }
      var lease := Granted(grant.value, bindings[b].target, Owner(Feishu, ForBinding(b, process)), false, now);
      if lease.None? { return Refused; }
      SetLease(b, lease.value);
      var ok := Activate(b, s, now, w0, w1);
      return if ok then Done else Failed;
    }

    method RepairBinding(b: BindingId, resolved: Answer<TargetId>, status: Answer<View>, capable: bool,
                         grant: Answer<Grant>, s: Sight, now: Time, w0: Write, w1: Write)
      returns (r: Outcome)
      requires Inv() && s.newId !in BoundWatches(history)
      modifies this
      ensures stuck == old(stuck)
      ensures Steady() && Since(old(Now()), None)
      ensures Confined(b, old(bindings), old(leases), bindings, leases)
      ensures r.Refused? ==> Untouched(old(Fields()))
      ensures !r.Refused? ==>
        b in old(bindings) && old(bindings[b]).status.Stale? && resolved == Got(old(bindings[b]).target) && status.Got?
      ensures !r.Refused? ==> b in bindings && Working(turns, b) == Working(old(turns), b)
      ensures !r.Refused? && !status.value.state.Free? ==> bindings == old(bindings) && leases == old(leases)
      ensures !r.Refused? && bindings[b].status.Active? ==> status.value.state.Free? && b in leases
      ensures r.Done? && status.value.state.Free? ==> bindings[b].status == Active && grant.Got?
      ensures r.Done? && status.value.state.Free? ==> s.view.Got? && bindings[b] == old(bindings[b]).(status := Active,
        watch := Some(FirstSight(old(bindings[b]), leases[b], s, now)))
      ensures b in old(bindings) && old(bindings[b]).status.Stale? && resolved == Got(old(bindings[b]).target) && status.Got? && status.value.state.Free? && capable ==>
        (var lease := if grant.Got? then Granted(grant.value, old(bindings[b]).target, Owner(Feishu, ForBinding(b, process)), false, now) else None;
         r.Done? <==> lease.Some? && CanWatch(old(bindings[b]), lease.value, s) && w1.files >= 4)
      ensures b in old(bindings) && ActiveWatch(old(bindings[b]).watch) && SeesIdle(s) ==>
        LatestSeen(history, old(bindings[b]).watch.value.id) == LatestSeen(old(history),
                                                                           old(bindings[b]).watch.value.id)
      ensures r.Done? && status.value.state.Free? ==>
        Some(leases[b]) == Granted(grant.value, old(bindings[b]).target, Owner(Feishu, ForBinding(b, process)), false,
                                   now)
    {
      Begin(None);
      if b !in bindings || !bindings[b].status.Stale? || resolved != Got(bindings[b].target) || status.Threw? {
        return Refused;
      }
      if !status.value.state.Free? {
        var ok := Save(b, w0);
        if bindings[b].watch.Some? { WritesSeeNothing(old(history), history, bindings[b].watch.value.id); }
        return if ok then Done else Failed;
      }
      if !capable { return Refused; }
      r := Acquire(b, grant, s, now, w0, w1);
    }

    /** A stored new binding takes the terminal over from the dashboard. */
    method TakeFirst(b: BindingId, local: Lease, begin: Answer<View>, commit: Answer<Grant>, now: Time, w0: Write,
                     w1: Write, w2: Write)
      returns (ok: bool)
      requires Steady() && b in bindings && b !in leases && bindings[b].watch.None?
      modifies `bindings, `leases, `history, `turns, `replies, `eventIds, `noticed, `queued
      ensures Steady()
      ensures bindings - {b} == old(bindings) - {b} && leases - {b} == old(leases) - {b}
      ensures b in bindings && bindings[b].(status := Stale, handoff := None) == old(bindings[b]).(status := Stale, handoff := None)
      ensures bindings[b].status == if b in leases then Active else Stale
      ensures b in leases ==> commit.Got? && Some(leases[b]) == Granted(commit.value, old(bindings[b]).target, Owner(Feishu, ForBinding(b, process)), false, now)
      ensures ok ==> b in leases
      ensures Working(turns, b) == Working(old(turns), b) && BoundWatches(history) == BoundWatches(old(history))
    {
      var granted := TakeIn(b, local, Drain(Drained, DashboardDrained(b), now), begin, commit, now, w0);
      if granted.None? {
        FailHandoff(b, w1);
        return false;
      }
      SetStanding(b, Active, bindings[b].handoff);
      SetLease(b, granted.value);
      ghost var mid := history;
      ok := Save(b, w2);
      WritesBindNothing(mid, history);
    }

    /** A new binding that takes the terminal over from the dashboard. */
    method LinkByHandoff(b: BindingId, x: Binding, local: Lease, begin: Answer<View>, commit: Answer<Grant>, now: Time,
                         w0: Write, w1: Write, w2: Write, w3: Write)
      returns (r: Outcome)
      requires Steady() && NewBinding(b) && b !in leases && x.watch.None? && x.status.Pausing? && forall c | c in bindings :: bindings[c].chat != x.chat
      modifies `bindings, `leases, `history, `turns, `replies, `eventIds, `noticed, `queued
      ensures Steady()
      ensures bindings - {b} == old(bindings) - {b} && leases - {b} == old(leases) - {b}
      ensures !r.Refused?
      ensures b in bindings ==> bindings[b].(status := Stale, handoff := None) == x.(status := Stale, handoff := None)
      ensures w0.files < 4 ==> b !in bindings && b !in leases && r.Failed?
      ensures b in bindings ==> bindings[b].status == if b in leases then Active else Stale
      ensures b in leases ==>
        && commit.Got?
        && Some(leases[b]) == Granted(commit.value, x.target, Owner(Feishu, ForBinding(b, process)), false, now)
      ensures r.Done? ==> b in bindings && b in leases
      ensures Working(turns, b) == Working(old(turns), b) && BoundWatches(history) == BoundWatches(old(history))
    {
      AddBinding(b, x);
      var ok := Save(b, w0);
      WritesBindNothing(old(history), history);
      if !ok {
        RemoveBinding(b);
        return Failed;
      }
      ok := TakeFirst(b, local, begin, commit, now, w1, w2, w3);
      return if ok then Done else Failed;
    }

    /** A new binding on a free terminal. When the first persist fails the lease is given
        back but the binding stays. */
    method LinkByLease(b: BindingId, x: Binding, lease: Lease, w: Write)
      returns (r: Outcome)
      requires Steady() && NewBinding(b) && b !in leases && x.watch.None? && x.status.Active? && forall c | c in bindings :: bindings[c].chat != x.chat
      requires lease.target == x.target && lease.owner == Owner(Feishu, ForBinding(b, process))
      modifies `bindings, `leases, `history, `turns, `replies, `eventIds, `noticed, `queued
      ensures Steady()
      ensures bindings - {b} == old(bindings) - {b} && leases - {b} == old(leases) - {b}
      ensures r.Done? <==> w.files >= 4
      ensures Working(turns, b) == Working(old(turns), b) && BoundWatches(history) == BoundWatches(old(history))
      ensures !r.Refused? && b in bindings && bindings[b] == x
      ensures b in leases <==> r.Done?
      ensures r.Done? ==> leases[b] == lease && Restored(old(turns), old(replies), old(eventIds)) == true
    {
      AddBinding(b, x);
      SetLease(b, lease);
      var ok := SaveAll(b, w);
      WritesBindNothing(old(history), history);
      if !ok {
        DropLease(b);
        return Failed;
      }
      return Done;
    }

    method Link(b: BindingId, x: Binding, a: LinkAnswers, now: Time, w: Writes)
      returns (r: Outcome)
      requires Steady() && NewBinding(b) && b !in leases && x.watch.None? && x.handoff.None? && forall c | c in bindings :: bindings[c].chat != x.chat
      requires x.status == if a.dashboard.Some? then Pausing else Active
      modifies `bindings, `leases, `history, `turns, `replies, `eventIds, `noticed, `queued
      ensures Steady()
      ensures bindings - {b} == old(bindings) - {b} && leases - {b} == old(leases) - {b}
      ensures r.Refused? ==> Untouched(old(Fields()))
      ensures b in bindings ==> bindings[b].(status := Stale, handoff := None) == x.(status := Stale, handoff := None)
      ensures b in leases ==>
        && a.grant.Got?
        && Some(leases[b]) == Granted(a.grant.value, x.target, Owner(Feishu, ForBinding(b, process)), false, now)
      ensures r.Refused? <==> a.dashboard.None? && !(a.grant.Got? && Granted(a.grant.value, x.target, Owner(Feishu, ForBinding(b, process)), false, now).Some?)
      ensures (b in bindings && bindings[b].status.Active? && b !in leases) <==>
        (!r.Refused? && a.dashboard.None? && w(0).files < 4)
      ensures r.Done? ==> b in bindings && b in leases
      ensures a.dashboard.None? ==>
        (r.Done? <==> !r.Refused? && w(0).files >= 4) && (!r.Refused? ==> b in bindings && bindings[b] == x)
      ensures a.dashboard.None? && r.Done? ==> Restored(old(turns), old(replies), old(eventIds)) == true
      ensures Working(turns, b) == Working(old(turns), b) && BoundWatches(history) == BoundWatches(old(history))
    {
      if a.dashboard.Some? {
        r := LinkByHandoff(b, x, a.dashboard.value, a.begin, a.grant, now, w(0), w(1), w(2), w(3));
      } else {
        if a.grant.Threw? { return Refused; }
        var lease := Granted(a.grant.value, x.target, Owner(Feishu, ForBinding(b, process)), false, now);
        if lease.None? { return Refused; }
        r := LinkByLease(b, x, lease.value, w(0));
      }
    }

    /** Links a chat to a terminal. */
    method CreateBinding(b: BindingId, chat: ChatId, session: nat, mode: ReplyMode, a: LinkAnswers, s: Sight, now: Time,
                         w: Writes)
      returns (r: Outcome)
      requires Inv() && NewBinding(b) && s.newId !in BoundWatches(history)
      modifies this
      ensures stuck == old(stuck)
      ensures Steady() && Since(old(Now()), None)
      ensures bindings - {b} == old(bindings) - {b} && leases - {b} == old(leases) - {b}
      ensures r.Refused? ==> Untouched(old(Fields()))
      ensures r.Refused? <==> !Linkable(old(bindings), Owner(Feishu, ForBinding(b, process)), chat, a, now)
      ensures r.Done? ==>
        b in bindings && b in leases && bindings[b].chat == chat && bindings[b].target == a.resolved.value.target
      ensures r.Done? ==> bindings[b].status == Active && bindings[b].session == session && bindings[b].mode == mode
      ensures b in leases ==> a.grant.Got? && a.resolved.Got? && Some(leases[b]) == Granted(a.grant.value, a.resolved.value.target, Owner(Feishu, ForBinding(b, process)), false, now)
      // the one way to end up active without a lease: the first write fails after the lease was granted
      ensures (b in bindings && bindings[b].status.Active? && b !in leases) <==>
        (Linkable(old(bindings), Owner(Feishu, ForBinding(b, process)), chat, a, now) && a.dashboard.None? && w(0).files < 4)
      // without a dashboard, done exactly when both writes and the first look succeed
      ensures a.dashboard.None? ==> (r.Done? <==>
        (Linkable(old(bindings), Owner(Feishu, ForBinding(b, process)), chat, a, now) && w(0).files >= 4 && w(4).files >= 4
         && CanWatch(Binding(chat, a.resolved.value.target, session, mode, Active, None, None), a.grant.value.lease.value, s)))
      ensures a.dashboard.None? && r.Done? ==>
        (var x := Binding(chat, a.resolved.value.target, session, mode, Active, None, None);
         bindings[b] == x.(watch := Some(FirstSight(x, leases[b], s, now))) && DiskBindings(history) == bindings)
      ensures Working(turns, b) == Working(old(turns), b)
        && BoundWatches(history) <= BoundWatches(old(history)) + {s.newId}
      ensures a.dashboard.None? && r.Done? ==> Kept(old(Fields())) == true
      ensures inFlight == old(inFlight)
    {
      Begin(None);
      if b in leases { OwnLease(b); }
      if !a.capable || a.resolved.Threw? || !Admissible(bindings, chat, a.resolved.value.target) { return Refused; }
      var x := Binding(chat, a.resolved.value.target, session, mode, if a.dashboard.Some? then Pausing else Active,
                       None, None);
      if a.dashboard.Some? && !Transferable(a.dashboard.value, a.resolved.value) { return Refused; }
      r := Establish(b, x, a, s, now, w);
    }

    /** A new binding is linked and activated. */
    method Establish(b: BindingId, x: Binding, a: LinkAnswers, s: Sight, now: Time, w: Writes)
      returns (r: Outcome)
      requires Steady() && NewBinding(b) && b !in leases && x.watch.None? && x.handoff.None? && forall c | c in bindings :: bindings[c].chat != x.chat
      requires x.status == (if a.dashboard.Some? then Pausing else Active) && s.newId !in BoundWatches(history)
      modifies `bindings, `leases, `history, `turns, `replies, `eventIds, `noticed, `queued
      ensures Steady()
      ensures bindings - {b} == old(bindings) - {b} && leases - {b} == old(leases) - {b}
      ensures r.Refused? ==> Untouched(old(Fields()))
      ensures r.Refused? <==> a.dashboard.None? && !(a.grant.Got? && Granted(a.grant.value, x.target, Owner(Feishu, ForBinding(b, process)), false, now).Some?)
      ensures b in leases ==>
        && a.grant.Got?
        && Some(leases[b]) == Granted(a.grant.value, x.target, Owner(Feishu, ForBinding(b, process)), false, now)
      ensures (b in bindings && bindings[b].status.Active? && b !in leases) <==>
        (!r.Refused? && a.dashboard.None? && w(0).files < 4)
      ensures r.Done? ==> b in bindings && b in leases && bindings[b].status == Active
      ensures r.Done? ==>
        bindings[b].(status := Stale, handoff := None, watch := None) == x.(status := Stale, handoff := None,
                                                                            watch := None)
      ensures a.dashboard.None? ==> (r.Done? <==>
        (!r.Refused? && w(0).files >= 4 && w(4).files >= 4 && CanWatch(x, a.grant.value.lease.value, s)))
      ensures a.dashboard.None? && r.Done? ==> Kept(old(Fields())) == true && DiskBindings(history) == bindings
      ensures a.dashboard.None? && r.Done? ==> bindings[b] == x.(watch := Some(FirstSight(x, leases[b], s, now)))
      ensures Working(turns, b) == Working(old(turns), b)
        && BoundWatches(history) <= BoundWatches(old(history)) + {s.newId}
    {
      r := Link(b, x, a, now, w);
      if !r.Done? { return; }
      ghost var mid := Fields();
      var ok := Activate(b, s, now, w(2), w(4));
      if ok && a.dashboard.None? { KeptTwice(old(Fields()), mid, Fields(), b); }
      return if ok then Done else Failed;
    }

    /** Short lists in which no notice was due are the same as before. */
    ghost predicate Kept(was: FieldValues)
      reads `turns, `replies, `eventIds
    {
      KeptLists(was, turns, replies, eventIds)
    }

    method RemoveBindingFor(b: BindingId, force: bool, release: Answer<View>, status: Answer<View>,
                            resolved: Answer<TargetId>, again: Answer<View>,
                            now: Time, w: Write)
      returns (r: Outcome)
      requires Inv()
      modifies this
      ensures stuck == old(stuck)
      ensures Steady() && Since(old(Now()), None)
      ensures Confined(b, old(bindings), old(leases), bindings, leases)
      ensures r.Refused? <==> b !in old(bindings) || Busy(old(turns), b, old(bindings[b]), force)
      ensures r.Refused? ==> Untouched(old(Fields()))
      ensures !r.Refused? ==> Working(turns, b).None? && b !in leases
      // a binding goes only when its lease was released or nobody could be typing for it
      ensures !r.Refused? ==> (b !in bindings <==> if b in old(leases) then release.Got? && Released(old(leases[b]), release.value)
                                                   else UnleasedRemovable(old(bindings[b]).target, status, resolved,
                                                                          again))
      ensures r.Done? ==> b !in bindings
    {
      Begin(None);
      if b !in bindings || Busy(turns, b, bindings[b], force) { return Refused; }
      StopWork(b, bindings[b].status, now);
      if b in leases {
        if release.Threw? || !Released(leases[b], release.value) {
          Abandon(b, w);
          return Failed;
        }
      } else if !UnleasedRemovable(bindings[b].target, status, resolved, again) {
        return Failed;
      }
      RemoveBinding(b);
      var ok := Save(b, w);
      return if ok then Done else Failed;
    }

    method UpdateMode(b: BindingId, mode: ReplyMode, w: Write) returns (r: Outcome)
      requires Inv()
      modifies this
      ensures stuck == old(stuck)
      ensures Steady() && Since(old(Now()), None)
      ensures Confined(b, old(bindings), old(leases), bindings, leases)
      ensures r.Refused? <==> b !in old(bindings) || Working(old(turns), b).Some?
      ensures !r.Refused? ==>
        b in bindings && bindings[b] == old(bindings[b]).(mode := if w.files >= 4 then mode else old(bindings[b]).mode)
      ensures r.Done? <==> !r.Refused? && w.files >= 4
    {
      Begin(None);
      if b !in bindings || Working(turns, b).Some? { return Refused; }
      var x := bindings[b];
      Put(b, x.(mode := mode));
      var ok := Save(b, w);
      if !ok {
        Put(b, x);
        return Failed;
      }
      return Done;
    }

    /** Drops a binding once its terminal has provably ended. */
    method ReconcileTarget(b: BindingId, status: Answer<View>, resolved: Answer<TargetId>, again: Answer<View>,
                           now: Time, w: Write)
      returns (r: Outcome)
      requires Inv()
      modifies this
      ensures stuck == old(stuck)
      ensures Steady() && Since(old(Now()), None)
      ensures Confined(b, old(bindings), old(leases), bindings, leases)
      ensures r.Refused? <==> b !in old(bindings) || !LifecycleEnded(old(bindings[b]).target, status, resolved, again)
      ensures r.Refused? ==> Untouched(old(Fields()))
      ensures !r.Refused? ==> b !in bindings && b !in leases && Working(turns, b).None?
    {
      Begin(None);
      if b !in bindings || !LifecycleEnded(bindings[b].target, status, resolved, again) { return Refused; }
      StopWork(b, bindings[b].status, now);
      RemoveBinding(b);
      var ok := Save(b, w);
      return if ok then Done else Failed;
    }

    /** What became of a commit that was not plainly confirmed. */
    method ResolveCommit(b: BindingId, k: Handoff, lease: Lease, latest: Answer<View>, w: Write) returns (r: Outcome)
      requires Steady() && b in bindings && !ActiveWatch(bindings[b].watch)
      modifies `bindings, `leases, `history, `turns, `replies, `eventIds, `noticed, `queued
      ensures Steady()
      ensures bindings - {b} == old(bindings) - {b} && leases - {b} == old(leases) - {b}
      ensures b in bindings && bindings[b].(status := Stale, handoff := None) == old(bindings[b]).(status := Stale, handoff := None)
      ensures Working(turns, b) == Working(old(turns), b)
      ensures bindings[b].status.Active? <==> latest.Got? && StillHeld(lease, latest.value)
      ensures bindings[b].status.Active? ==>
        leases == old(leases) && bindings[b].handoff == Some(k.(status := HandoffStatus.Withdrawn))
      ensures !bindings[b].status.Active? ==> b !in leases
      ensures bindings[b].status.Paused? ==> latest.Got? && PassedOn(lease, k.next, latest.value)
      ensures bindings[b].status.Paused? ==> bindings[b].handoff == Some(k.(status := HandoffStatus.Committed))
      ensures !r.Refused?
      ensures Newest(eventIds) == Newest(old(eventIds))
    {
      if latest.Got? && StillHeld(lease, latest.value) {
        SetStanding(b, Active, Some(k.(status := HandoffStatus.Withdrawn)));
      } else if latest.Got? && PassedOn(lease, k.next, latest.value) {
        SetStanding(b, Paused, Some(k.(status := HandoffStatus.Committed)));
        DropLease(b);
      } else {
        SetStanding(b, Stale, Some(k.(status := HandoffStatus.Uncertain)));
        DropLease(b);
      }
      var ok := Save(b, w);
      return if ok then Done else Failed;
    }

    /** A drained terminal is handed to the local owner that asked for it. */
    method PassOn(b: BindingId, k: Handoff, commit: Answer<Grant>, latest: Answer<View>, now: Time, w0: Write,
                  w1: Write, w2: Write)
      returns (r: Outcome)
      requires Steady() && b in bindings && b in leases && Owning(bindings[b].status)
      requires Working(turns, b).None? && !ActiveWatch(bindings[b].watch)
      requires k.status.Prepared? && k.role.Current? && k.epoch == leases[b].epoch && k.fence == leases[b].fence
      modifies `bindings, `leases, `history, `turns, `replies, `eventIds, `noticed, `queued
      ensures Steady()
      ensures bindings - {b} == old(bindings) - {b} && leases - {b} == old(leases) - {b}
      ensures b in bindings && Working(turns, b).None? && bindings[b].watch == old(bindings[b]).watch
      ensures w0.files < 4 ==> leases == old(leases) && bindings[b].status == Pausing && r.Failed?
      // active without a lease: the result of a confirmed commit could not be stored, and the
      // authority then said that Feishu still holds the terminal
      ensures (bindings[b].status.Active? && b !in leases) <==>
        (w0.files >= 4 && w1.files < 4 && commit.Got?
         && LocalGrant(commit.value, old(bindings[b]).target, old(leases[b]), k.next, now)
         && latest.Got? && StillHeld(old(leases[b]), latest.value))
      ensures bindings[b].status.Paused? ==>
        b !in leases && bindings[b].handoff == Some(k.(status := HandoffStatus.Committed))
      ensures bindings[b].status.Active? ==> bindings[b].handoff == Some(k.(status := HandoffStatus.Withdrawn))
      ensures Newest(eventIds) == Newest(old(eventIds))
    {
      var lease := leases[b];
      SetStanding(b, Pausing, bindings[b].handoff);
      var asked := CommitHandoff(b, k, w0);
      if !asked { return Failed; }
      if commit.Got? && LocalGrant(commit.value, bindings[b].target, lease, k.next, now) {
        var ok := ConcludeHandoff(b, k, w1);
        if ok { return Done; }
      }
      r := ResolveCommit(b, k, lease, latest, w2);
    }

    /** Settles the handoff state of a binding that owns its terminal. */
    method SettleHandoff(b: BindingId, status: Answer<View>, preferred: Option<Drain>, commit: Answer<Grant>,
                         latest: Answer<View>, now: Time,
                         w0: Write, w1: Write, w2: Write)
      returns (r: Outcome)
      requires Steady() && b in bindings && b in leases && Owning(bindings[b].status)
      requires preferred.Some? ==> !preferred.value.disposition.DrainUncertain?
      modifies `bindings, `leases, `history, `turns, `replies, `eventIds, `noticed, `queued
      ensures Steady()
      ensures bindings - {b} == old(bindings) - {b} && leases - {b} == old(leases) - {b} && b in bindings
      ensures status.Threw? ==> r.Refused? && Untouched(old(Fields()))
      ensures (bindings[b].status.Active? && b !in leases) <==>
        Strands(old(bindings[b]), old(leases[b]), Working(old(turns), b).None?, status, commit, latest, now, w0, w1)
      ensures Working(turns, b).None? || Working(turns, b) == Working(old(turns), b)
      // the lease stays while Feishu holds the terminal or is still draining it
      ensures status.Got? && StillHeld(old(leases[b]), status.value) && status.value.target == old(bindings[b]).target ==> leases == old(leases)
      ensures Working(old(turns), b).Some? && status.Got? && DrainingView(old(bindings[b]).target, old(leases[b]), status.value) ==>
        Untouched(old(Fields()))
      ensures Newest(eventIds) == Newest(old(eventIds))
    {
      if status.Threw? { return Refused; }
      var lease, v, x := leases[b], status.value, bindings[b];
      if v.target == x.target && StillHeld(lease, v) {
        if x.handoff.None? || x.handoff.value.status != HandoffStatus.Prepared { return Done; }
        var k := x.handoff.value;
        SetStanding(b, Active, Some(k.(status := if k.role.Next? then HandoffStatus.Cancelled else HandoffStatus.Withdrawn)));
        var ok := Save(b, w0);
        return if ok then Done else Failed;
      }
      if !DrainingView(x.target, lease, v) {
        var ok := Fence(b, now, w0);
        return if ok then Done else Failed;
      }
      if Working(turns, b).Some? || ActiveWatch(x.watch) { return Done; }
      var drain := if preferred.Some? then preferred.value else DrainOf(turns, b, now);
      r := PassOn(b, HandoffOf(v.handoffId.value, lease, v.nextOwnerKind.value, Current, HandoffStatus.Prepared, drain),
                  commit, latest, now, w0, w1, w2);
    }

    method ReconcileHandoff(b: BindingId, status: Answer<View>, commit: Answer<Grant>, latest: Answer<View>, now: Time,
                            w0: Write, w1: Write, w2: Write)
      returns (r: Outcome)
      requires Inv()
      modifies this
      ensures stuck == old(stuck)
      ensures Steady() && Since(old(Now()), None)
      ensures bindings - {b} == old(bindings) - {b} && leases - {b} == old(leases) - {b}
      ensures b !in old(leases) || b !in old(bindings) || !Owning(old(bindings[b]).status) || status.Threw? ==>
        r.Refused? && Untouched(old(Fields()))
      ensures (b in bindings && bindings[b].status.Active? && b !in leases) <==>
        (b in old(bindings) && if b in old(leases)
          then Owning(old(bindings[b]).status) && Strands(old(bindings[b]), old(leases[b]), Working(old(turns), b).None?, status, commit, latest, now, w0, w1)
          else old(bindings[b]).status.Active?)
    {
      Begin(None);
      if b in leases { OwnLease(b); }
      if b !in leases || b !in bindings || !Owning(bindings[b].status) { return Refused; }
      r := SettleHandoff(b, status, None, commit, latest, now, w0, w1, w2);
    }

    // ----- chat events

    /** Remembers the event, stores that, and only then types the input. */
    method Submit(ghost b: BindingId, e: EventId, w: Write) returns (ok: bool)
      requires Steady() && e !in eventIds
      modifies `history, `turns, `replies, `eventIds, `noticed, `queued
      ensures Steady() && Working(turns, b) == Working(old(turns), b)
      ensures ok <==> w.files >= 4
      ensures ok ==> history.Then? && history.act == Injected(e) && OnlyWrites(old(history), history.prev)
      ensures !ok ==> OnlyWrites(old(history), history)
      ensures Newest(eventIds) == Some(e)
      ensures ok ==> EventsShortened(old(eventIds) + [e], eventIds) == true
      ensures ok && Calm(old(turns), bindings) == true ==>
        TurnsShortened(old(turns), turns) == true && RepliesShortened(old(replies), replies) == true
    {
      NewEvent(e);
      Remember(e);
      ok := Persist(w);
      SameLiveAt(old(turns), turns, b);
      if ok {
        StoredLast(history, bindings, old(turns), old(eventIds) + [e]);
        if Typed(history, e) { WritesTypeNothing(old(history), history, e); }
        Log(Injected(e));
      }
    }

    /** The live turn is lost: it needs recovery and the binding is stale. */
    method LoseTurn(b: BindingId, now: Time, w: Write) returns (ok: bool)
      requires Steady() && b in bindings
      modifies `bindings, `history, `turns, `replies, `eventIds, `noticed, `queued
      ensures Steady() && Working(turns, b).None?
      ensures bindings == old(bindings)[b := old(bindings[b]).(status := Stale)]
        && bindings - {b} == old(bindings) - {b}
      ensures OnlyWrites(old(history), history)
      ensures Newest(eventIds) == Newest(old(eventIds))
    {
      EndLive(b, TurnStatus.RecoveryRequired, now);
      MarkStale(b);
      ok := Save(b, w);
    }

    /** Types a message into the turn that is already running. */
    method Steer(b: BindingId, e: EventId, v: View, receipt: Answer<Receipt>, k: HandoffAnswers, now: Time, w0: Write,
                 w1: Write)
      returns (r: Outcome)
      requires Steady() && b in bindings && bindings[b].status.Active? && b in leases && Working(turns, b).Some?
        && e !in eventIds
      modifies `bindings, `leases, `history, `turns, `replies, `eventIds, `noticed, `queued
      ensures Steady()
      ensures bindings - {b} == old(bindings) - {b} && leases - {b} == old(leases) - {b} && b in bindings
      ensures bindings[b].status.Active? ==> b in leases
      ensures Working(turns, b).Some? ==> Working(turns, b).value.id == Working(old(turns), b).value.id
      // a turn without authority, or without the nonce of its markers, is lost and not typed into
      ensures !TurnAuthority(Working(old(turns), b).value, old(leases[b]), v) || !Working(old(turns), b).value.marked ==>
        r.Failed? && OnlyWrites(old(history), history) && Working(turns, b).None? && bindings[b].status.Stale?
      ensures r.Done? && receipt.Got? && SteerAccepted(Working(old(turns), b).value, receipt.value) ==>
        Working(turns, b) == Some(Working(old(turns), b).value.(deadline := now + TURN_IDLE_TIMEOUT))
      ensures Newest(eventIds) == Some(e)
    {
      var t := Working(turns, b).value;
      if !t.marked || t.generation.None? || !TurnAuthority(t, leases[b], v) {
        Remember(e);
        var _ := LoseTurn(b, now, w0);
        return Failed;
      }
      var ok := Submit(b, e, w0);
      if !ok { return Failed; }
      r := TakeSteering(b, receipt, k, now, w1);
    }

    /** What came back for a message typed into the running turn. */
    method TakeSteering(b: BindingId, receipt: Answer<Receipt>, k: HandoffAnswers, now: Time,
                        w: Write) returns (r: Outcome)
      requires Steady() && b in bindings && bindings[b].status.Active? && b in leases && Working(turns, b).Some?
      modifies `bindings, `leases, `history, `turns, `replies, `eventIds, `noticed, `queued
      ensures Steady()
      ensures bindings - {b} == old(bindings) - {b} && leases - {b} == old(leases) - {b} && b in bindings
      ensures bindings[b].status.Active? ==> b in leases
      ensures Working(turns, b).Some? ==> Working(turns, b).value.id == Working(old(turns), b).value.id
      ensures receipt.Got? && SteerAccepted(Working(old(turns), b).value, receipt.value) ==>
        Working(turns, b) == Some(Working(old(turns), b).value.(deadline := now + TURN_IDLE_TIMEOUT))
      ensures Newest(eventIds) == Newest(old(eventIds))
    {
      var t := Working(turns, b).value;
      if receipt.Got? && SteerAccepted(t, receipt.value) {
        var ok := Prolong(b, now, w);
        return if ok then Done else Failed;
      }
      r := RefusedSteering(b, if receipt.Threw? then receipt.fault else FENCED, k, now, w);
    }

    /** The running turn gets a new deadline. */
    method Prolong(b: BindingId, now: Time, w: Write) returns (ok: bool)
      requires Steady() && Working(turns, b).Some?
      modifies `history, `turns, `replies, `eventIds, `noticed, `queued
      ensures Steady() && OnlyWrites(old(history), history) && Newest(eventIds) == Newest(old(eventIds))
      ensures Carried(old(replies), replies) == true
      ensures ok <==> w.files >= 4
      ensures Working(turns, b) == Some(Working(old(turns), b).value.(deadline := now + TURN_IDLE_TIMEOUT))
    {
      UpdateLive(b, Working(turns, b).value.(deadline := now + TURN_IDLE_TIMEOUT));
      ok := Save(b, w);
    }

    /** The terminal did not take a message for the running turn. */
    method RefusedSteering(b: BindingId, fault: Fault, k: HandoffAnswers, now: Time, w: Write) returns (r: Outcome)
      requires Steady() && b in bindings && bindings[b].status.Active? && b in leases && Working(turns, b).Some?
      modifies `bindings, `leases, `history, `turns, `replies, `eventIds, `noticed, `queued
      ensures Steady()
      ensures bindings - {b} == old(bindings) - {b} && leases - {b} == old(leases) - {b} && b in bindings
      ensures bindings[b].status.Active? ==> b in leases
      ensures Working(turns, b).None? || Working(turns, b) == Working(old(turns), b)
      ensures !fault.code.HandoffPending? ==> r.Failed? && leases == old(leases)
      ensures !fault.code.HandoffPending? && ContinuityLost(fault) ==>
        Working(turns, b).None? && bindings[b].status == Stale
      ensures !fault.code.HandoffPending? && !ContinuityLost(fault) ==> Untouched(old(Fields()))
      ensures Newest(eventIds) == Newest(old(eventIds))
    {
      if fault.code.HandoffPending? {
        r := SettleHandoff(b, k.status, None, k.commit, k.latest, now, k.w0, k.w1, k.w2);
        return;
      }
      if ContinuityLost(fault) { var _ := LoseTurn(b, now, w); }
      return Failed;
    }

    /** The terminal took the input: the turn now waits for output, and an inherited task
        counts as part of it. */
    method Await(b: BindingId, t: Turn, receipt: Receipt, w: Write) returns (ok: bool)
      requires Steady() && b in bindings && Working(turns, b) == Some(t) && t.status.Prepared?
      requires base.incoming == Some(t.id) && history.Then? && history.act == Injected(t.id.event)
      modifies `bindings, `history, `turns, `replies, `eventIds, `noticed, `queued
      ensures Steady()
      ensures bindings == old(bindings)[b := old(bindings[b]).(watch := Ended(old(bindings[b]).watch, WatchStatus.Cancelled))]
      ensures bindings - {b} == old(bindings) - {b}
      ensures Working(turns, b) == Some(Accepted(t, receipt))
      ensures Newest(eventIds) == Newest(old(eventIds)) && (ok <==> w.files >= 4)
      ensures ok ==> Resaved(old(Fields()), b, Accepted(t, receipt)) == true
    {
      EndWatch(b, WatchStatus.Cancelled);
      UpdateLive(b, Accepted(t, receipt));
      ok := SaveAll(b, w);
    }

    /** The live turn was changed to `u` and the lists stored. */
    ghost predicate Resaved(was: FieldValues, b: BindingId, u: Turn)
      reads `bindings, `turns, `replies, `eventIds
    {
      && EventsShortened(was.events, eventIds)
      && (Calm(Renewed(was.turns, b, u), bindings) ==>
           TurnsShortened(Renewed(was.turns, b, u), turns) && RepliesShortened(was.replies, replies))
    }

    /** Starts a turn: it is recorded and stored before its input is typed. */
    method StartTurn(b: BindingId, e: EventId, message: MessageId, epoch: nat, receipt: Answer<Receipt>,
                     k: HandoffAnswers, now: Time, w0: Write, w1: Write)
      returns (r: Outcome)
      requires Steady() && b in bindings && bindings[b].status.Active? && b in leases && Working(turns, b).None?
        && e !in eventIds
      requires base.incoming == Some(TurnId(b, e))
      modifies `bindings, `leases, `history, `turns, `replies, `eventIds, `noticed, `queued
      ensures Steady()
      ensures bindings - {b} == old(bindings) - {b} && leases - {b} == old(leases) - {b} && b in bindings
      ensures (bindings[b].status.Active? && b !in leases) <==>
        (w0.files >= 4 && receipt.Threw? && receipt.fault.code.HandoffPending? && w1.files >= 4
         && Strands(old(bindings[b]), old(leases[b]), true, k.status, k.commit, k.latest, now, k.w0, k.w1))
      ensures Working(turns, b).Some? ==> Working(turns, b).value.id == TurnId(b, e)
      ensures w0.files < 4 ==> r.Failed? && OnlyWrites(old(history), history)
      ensures r.Done? && receipt.Got? ==> Working(turns, b).Some? && !ActiveWatch(bindings[b].watch)
      ensures r.Done? && receipt.Got? ==>
        var t := NewTurn(b, e, message, old(bindings[b]).target, epoch, old(leases[b]), now);
        Working(turns, b) == Some(Accepted(t, receipt.value))
      ensures Newest(eventIds) == Some(e)
      ensures receipt.Got? && InputAccepted(old(leases[b]), receipt.value) && w0.files >= 4 && w1.files >= 4 ==>
        TookTurn(old(Fields()), b, e, message, epoch, receipt.value, now) == true
    {
      var t := NewTurn(b, e, message, bindings[b].target, epoch, leases[b], now);
      PushTurn(t);
      var ok := Submit(b, e, w0);
      if !ok { return Failed; }
      ghost var mid := Fields();
      r := TakeReceipt(b, t, receipt, k, now, w1);
      if receipt.Got? && InputAccepted(old(leases[b]), receipt.value) && w1.files >= 4 {
        CancelledIsCalm(old(turns) + [Accepted(t, receipt.value)], old(bindings), b);
        StartsIf(old(turns), old(replies), old(bindings), bindings, t, Accepted(t, receipt.value), mid.turns,
                 mid.replies, turns, replies);
        EventsShortenedTwice(old(eventIds) + [e], mid.events, eventIds);
      }
    }

    /** The event was typed as a new turn, which waits for output now. */
    ghost predicate TookTurn(was: FieldValues, b: BindingId, e: EventId, message: MessageId, epoch: nat,
                             receipt: Receipt, now: Time)
      reads `bindings, `leases, `turns, `replies, `eventIds
    {
      b in was.bindings && b in was.leases &&
      (var t := NewTurn(b, e, message, was.bindings[b].target, epoch, was.leases[b], now);
       && Starts(was.turns, was.replies, was.bindings, turns, replies, t, Accepted(t, receipt))
       && bindings == was.bindings[b := was.bindings[b].(watch := Ended(was.bindings[b].watch, WatchStatus.Cancelled))] && leases == was.leases
       && EventsShortened(was.events + [e], eventIds))
    }

    /** What came back for the input of a new turn. */
    method TakeReceipt(b: BindingId, t: Turn, receipt: Answer<Receipt>, k: HandoffAnswers, now: Time,
                       w: Write) returns (r: Outcome)
      requires Steady() && b in bindings && bindings[b].status.Active? && b in leases && Working(turns, b) == Some(t)
        && t.status.Prepared?
      requires base.incoming == Some(t.id) && history.Then? && history.act == Injected(t.id.event)
      modifies `bindings, `leases, `history, `turns, `replies, `eventIds, `noticed, `queued
      ensures Steady()
      ensures bindings - {b} == old(bindings) - {b} && leases - {b} == old(leases) - {b} && b in bindings
      ensures (bindings[b].status.Active? && b !in leases) <==>
        (receipt.Threw? && receipt.fault.code.HandoffPending? && w.files >= 4
         && Strands(old(bindings[b]), old(leases[b]), true, k.status, k.commit, k.latest, now, k.w0, k.w1))
      ensures receipt.Got? && InputAccepted(old(leases[b]), receipt.value) ==>
        Working(turns, b) == Some(Accepted(t, receipt.value)) && !ActiveWatch(bindings[b].watch)
      ensures !(receipt.Got? && InputAccepted(old(leases[b]), receipt.value)) ==>
        Working(turns, b).None? && (receipt.Got? ==> r.Failed?)
      ensures receipt.Got? && InputAccepted(old(leases[b]), receipt.value) && w.files >= 4 ==>
        && bindings == old(bindings)[b := old(bindings[b]).(watch := Ended(old(bindings[b]).watch, WatchStatus.Cancelled))] && leases == old(leases)
        && Resaved(old(Fields()), b, Accepted(t, receipt.value)) == true
      ensures Newest(eventIds) == Newest(old(eventIds))
    {
      if receipt.Got? && InputAccepted(leases[b], receipt.value) {
        var ok := Await(b, t, receipt.value, w);
        return if ok then Done else Failed;
      }
      r := RefusedInput(b, t.id, if receipt.Threw? then receipt.fault else FENCED, k, now, w);
    }

    /** The terminal did not take the input of a new turn. */
    method RefusedInput(b: BindingId, id: TurnId, fault: Fault, k: HandoffAnswers, now: Time,
                        w: Write) returns (r: Outcome)
      requires Steady() && b in bindings && bindings[b].status.Active? && b in leases
      modifies `bindings, `leases, `history, `turns, `replies, `eventIds, `noticed, `queued
      ensures Steady() && Working(turns, b).None?
      ensures bindings - {b} == old(bindings) - {b} && leases - {b} == old(leases) - {b} && b in bindings
      ensures (bindings[b].status.Active? && b !in leases) <==>
        (fault.code.HandoffPending? && w.files >= 4
         && Strands(old(bindings[b]), old(leases[b]), true, k.status, k.commit, k.latest, now, k.w0, k.w1))
      ensures !fault.code.HandoffPending? ==>
        r.Failed? && bindings[b].status == if ContinuityLost(fault) then Stale else Active
      ensures Newest(eventIds) == Newest(old(eventIds))
    {
      if fault.code.HandoffPending? {
        EndLive(b, TurnStatus.Cancelled, now);
        var ok := Save(b, w);
        if !ok { return Failed; }
        r := SettleHandoff(b, k.status, Some(Drain(DrainCancelled, CancelledBeforeInput(id), now)), k.commit, k.latest,
                           now, k.w0, k.w1, k.w2);
      } else if ContinuityLost(fault) {
        var _ := LoseTurn(b, now, w);
        return Failed;
      } else {
        EndLive(b, TurnStatus.Cancelled, now);
        var _ := Save(b, w);
        return Failed;
      }
    }

    /** The event is remembered, and the lists were stored and trimmed. */
    ghost predicate Skipped(was: FieldValues, e: EventId)
      reads `bindings, `turns, `replies, `eventIds
    {
      RestoredIn(was.(events := was.events + [e]), FieldValues(bindings, map[], turns, replies, eventIds, Start))
    }

    /** Remembers an event that is not typed. */
    method Skip(b: BindingId, e: EventId, w: Write) returns (r: Outcome)
      requires Steady()
      modifies `history, `turns, `replies, `eventIds, `noticed, `queued
      ensures Steady() && Working(turns, b) == Working(old(turns), b) && !r.Refused? && (r.Done? <==> w.files >= 4)
      ensures OnlyWrites(old(history), history)
      ensures e !in old(eventIds) ==> Newest(eventIds) == Some(e)
      ensures r.Done? && e !in old(eventIds) ==> Skipped(old(Fields()), e) == true
    {
      Remember(e);
      var ok := SaveAll(b, w);
      return if ok then Done else Failed;
    }

    /** An event of an active, leased binding that passed the filters. */
    method Dispatch(b: BindingId, e: EventId, message: MessageId, status: Answer<View>, receipt: Answer<Receipt>,
                    k: HandoffAnswers, now: Time, w0: Write, w1: Write)
      returns (r: Outcome)
      requires Steady() && b in bindings && bindings[b].status.Active? && b in leases && e !in eventIds
      requires base.incoming == Some(TurnId(b, e))
      modifies `bindings, `leases, `history, `turns, `replies, `eventIds, `noticed, `queued
      ensures Steady()
      ensures bindings - {b} == old(bindings) - {b} && leases - {b} == old(leases) - {b} && b in bindings
      ensures (bindings[b].status.Active? && b !in leases) <==>
        (!Delivering(old(turns), b, old(bindings[b]))
         && EventStrands(old(bindings[b]), old(leases[b]), old(turns), b, status, receipt, k, now, w0, w1))
      ensures Working(turns, b).Some? ==> Working(turns, b).value.id == if Working(old(turns), b).Some? then Working(old(turns), b).value.id else TurnId(b, e)
      // a card on its way, or a terminal that is not held, keeps the message out
      ensures Delivering(old(turns), b, old(bindings[b])) ==>
        Working(turns, b) == Working(old(turns), b) && OnlyWrites(old(history), history)
      ensures !Delivering(old(turns), b, old(bindings[b])) && status.Threw? ==> Untouched(old(Fields()))
      // the event is remembered unless the terminal could not be shown to be held or draining
      ensures !Delivering(old(turns), b, old(bindings[b])) && !Answering(old(bindings[b]).target, old(leases[b]), status) ==> eventIds == old(eventIds)
      ensures Delivering(old(turns), b, old(bindings[b])) || Answering(old(bindings[b]).target, old(leases[b]), status) ==> Newest(eventIds) == Some(e)
      ensures Takes(old(bindings[b]), old(leases[b]), old(turns), b, status, receipt, w0, w1) ==>
        TookTurn(old(Fields()), b, e, message, status.value.epoch, receipt.value, now) == true
    {
      if Delivering(turns, b, bindings[b]) {
        r := Skip(b, e, w0);
        return;
      }
      if status.Threw? { return Failed; }
      if DrainingView(bindings[b].target, leases[b], status.value) {
        r := Skip(b, e, w0);
        if r.Done? { r := SettleHandoff(b, k.status, None, k.commit, k.latest, now, k.w0, k.w1, k.w2); }
        return;
      }
      if !LeaseView(bindings[b].target, leases[b], status.value) { return Failed; }
      if Working(turns, b).Some? {
        r := Steer(b, e, status.value, receipt, k, now, w0, w1);
      } else {
        r := StartTurn(b, e, message, status.value.epoch, receipt, k, now, w0, w1);
      }
    }

    /** One chat event; `b` is the binding of its chat. */
    method HandleEvent(b: BindingId, e: EventId, message: MessageId, screen: Screening, status: Answer<View>,
                       receipt: Answer<Receipt>, k: HandoffAnswers,
                       now: Time, w0: Write, w1: Write)
      returns (r: Outcome)
      requires Inv()
      modifies this
      ensures stuck == old(stuck)
      ensures Steady() && Since(old(Now()), if e in old(eventIds) then None else Some(TurnId(b, e)))
      ensures bindings - {b} == old(bindings) - {b} && leases - {b} == old(leases) - {b}
      // active without a lease: it was so before and the event was kept out, or the handoff stranded
      ensures (b in bindings && bindings[b].status.Active? && b !in leases) <==>
        (b in old(bindings) && old(bindings[b]).status.Active? && if b in old(leases)
          then e !in old(eventIds) && screen.Admitted? && EventStrands(old(bindings[b]), old(leases[b]), old(turns), b, status, receipt, k, now, w0, w1)
          else e in old(eventIds) || !screen.Admitted?)
      ensures e in old(eventIds) || b !in old(bindings) || !old(bindings[b]).status.Active? || screen.Ignored? || screen.Unreadable? ==>
        r.Refused? && Untouched(old(Fields()))
      ensures Working(turns, b).Some? ==> Working(turns, b).value.id == if Working(old(turns), b).Some? then Working(old(turns), b).value.id else TurnId(b, e)
      // what the filters or a missing lease keep out is not typed
      ensures screen.Filtered? || b !in old(leases) ==>
        OnlyWrites(old(history), history) && Working(turns, b) == Working(old(turns), b)
      ensures e !in old(eventIds) && b in old(bindings) && old(bindings[b]).status.Active? && screen.Filtered? && w0.files >= 4 ==>
        bindings == old(bindings) && leases == old(leases) && Skipped(old(Fields()), e) == true
      ensures inFlight == old(inFlight)
      // a held, idle terminal that takes the input gets a new turn
      ensures e !in old(eventIds) && b in old(bindings) && b in old(leases) && old(bindings[b]).status.Active? && screen.Admitted? ==>
        Takes(old(bindings[b]), old(leases[b]), old(turns), b, status, receipt, w0, w1) ==>
        TookTurn(old(Fields()), b, e, message, status.value.epoch, receipt.value, now) == true
      // a handled event is remembered, so that another delivery does nothing
      ensures r.Refused? || Newest(eventIds) == Some(e) || (eventIds == old(eventIds) && b in old(leases) && !Answering(old(bindings[b]).target, old(leases[b]), status))
    {
      Begin(if e in eventIds then None else Some(TurnId(b, e)));
      if b in leases { OwnLease(b); }
      if e in eventIds || b !in bindings || !bindings[b].status.Active? || screen.Ignored? || screen.Unreadable? {
        return Refused;
      }
      if screen.Filtered? {
        r := Skip(b, e, w0);
      } else if b !in leases {
        MarkStale(b);
        r := Skip(b, e, w0);
      } else {
        r := Dispatch(b, e, message, status, receipt, k, now, w0, w1);
      }
    }

    // ----- polling

    /** Records the reply of the live turn and stores it. */
    method PrepareReply(b: BindingId, text: Text, final: Final, w: Write) returns (ok: bool)
      requires Steady() && b in bindings && Working(turns, b).Some? && Working(turns, b).value.status.Awaiting?
        && base.incoming.None?
      modifies `history, `turns, `replies, `eventIds, `noticed, `queued, `stuck
      ensures Steady() && OnlyWrites(old(history), history)
      ensures ok ==> stuck == StuckBy(old(replies), old(stuck), Working(old(turns), b).value.id)
      ensures stuck - {Working(old(turns), b).value.id} == old(stuck) - {Working(old(turns), b).value.id}
      ensures ok <==> Replyable(old(replies), ReplyTo(Working(old(turns), b).value.id), text) && w.files >= 4
      ensures ok ==> Working(turns, b) == Some(Working(old(turns), b).value.(status := TurnStatus.Replying))
      ensures ok ==> AnswersWith(old(turns), old(replies), old(eventIds), b, text, final) == true
      ensures ok && !HasReply(old(replies), ReplyTo(Working(old(turns), b).value.id)) ==>
        Reply(ReplyTo(Working(old(turns), b).value.id),
              ReplyBody(Working(old(turns), b).value, bindings[b], text, final), ReplyStatus.Prepared) in replies
    {
      var t := Working(turns, b).value;
      var r := Reply(ReplyTo(t.id), ReplyBody(t, bindings[b], text, final), ReplyStatus.Prepared);
      ok := Replyable(replies, r.id, text);
      AddReply(b, r, ok);
      if ok {
        ghost var before := replies;
        ghost var live := turns;
        ghost var was := queued;
        ok := Persist(w);
        SameLiveAt(live, turns, b);
        CarriedAt(before, replies, r);
        if ok {
          AnswersIf(old(turns), old(replies), bindings, turns, replies, queued, was, b,
                    t.(status := TurnStatus.Replying), r, before);
        }
      }
    }

    /** Puts the reply of the live turn on record, unless one is there; if all is well, the turn
        is replying. */
    method AddReply(b: BindingId, r: Reply, ok: bool)
      requires Steady() && Working(turns, b).Some? && Working(turns, b).value.status.Awaiting? && base.incoming.None?
      requires r.id == ReplyTo(Working(turns, b).value.id) && r.body.TurnReply? && r.body.turn == r.id.turn
        && r.status.Prepared?
      modifies `turns, `replies, `stuck
      ensures Steady()
      ensures replies == if HasReply(old(replies), r.id) then old(replies) else old(replies) + [r]
      ensures var t := Working(old(turns), b).value.(status := TurnStatus.Replying);
        if ok then turns == Renewed(old(turns), b, t) && Working(turns, b) == Some(t) && stuck == StuckBy(old(replies), old(stuck), t.id)
        else turns == old(turns) && stuck == old(stuck)
    {
      var t := Working(turns, b).value;
      DueReply(t);
      if !HasReply(replies, r.id) { PushReply(r); }
      if ok {
        PreparedGrow(old(replies), r);
        TakeAsStuck(t.id, StuckBy(old(replies), stuck, t.id));
        UpdateLive(b, t.(status := TurnStatus.Replying));
      }
    }

    /** Nothing but the lists changed, and there the live turn of `b` is replying with this text. */
    ghost predicate Gave(was: FieldValues, b: BindingId, text: Text)
      reads `bindings, `turns, `replies, `eventIds, `queued
    {
      bindings == was.bindings && AnswersWith(was.turns, was.replies, was.events, b, text, FinalCompleted)
    }
    /** The live turn of `b` is replying with this text. */
    ghost predicate AnswersWith(turns0: seq<Turn>, replies0: seq<Reply>, events0: seq<EventId>, b: BindingId,
                                text: Text, final: Final)
      reads `bindings, `turns, `replies, `eventIds, `queued
    {
      EventsShortened(events0, eventIds) && b in bindings && Working(turns0, b).Some? &&
      (var t := Working(turns0, b).value;
       Working(turns, b) == Some(t.(status := TurnStatus.Replying)) && Answers(turns0, replies0, bindings, turns, replies, queued, b, t.(status := TurnStatus.Replying),
               Reply(ReplyTo(t.id), ReplyBody(t, bindings[b], text, final), ReplyStatus.Prepared)))
    }

    /** Prepares and stores the reply of the live turn; its card goes out on another lane. A reply
        of that turn already settled is taken as it is: then nothing goes out, and the turn is
        stuck. */
    method CompleteReply(b: BindingId, text: Text, final: Final, view: Answer<View>, now: Time, w0: Write,
                         w1: Write) returns (r: Outcome)
      requires Steady() && b in bindings && Working(turns, b).Some? && Working(turns, b).value.status.Awaiting?
        && base.incoming.None?
      modifies `bindings, `history, `turns, `replies, `eventIds, `noticed, `queued, `stuck
      ensures Steady() && OnlyWrites(old(history), history)
      ensures stuck == if r.Done? then StuckBy(old(replies), old(stuck), Working(old(turns), b).value.id) else old(stuck)
      ensures bindings - {b} == old(bindings) - {b} && b in bindings
      ensures r.Done? <==> (b in leases && view.Got? && TurnAuthority(Working(old(turns), b).value, leases[b], view.value)
        && Replyable(old(replies), ReplyTo(Working(old(turns), b).value.id), text) && w0.files >= 4)
      ensures r.Done? ==>
        && bindings == old(bindings)
        && Working(turns, b) == Some(Working(old(turns), b).value.(status := TurnStatus.Replying))
      ensures r.Failed? ==>
        Working(turns, b).None? && bindings == old(bindings)[b := old(bindings[b]).(status := Stale)]
      ensures !r.Refused?
      ensures r.Done? ==> AnswersWith(old(turns), old(replies), old(eventIds), b, text, final) == true
      ensures r.Done? && !HasReply(old(replies), ReplyTo(Working(old(turns), b).value.id)) ==>
        Reply(ReplyTo(Working(old(turns), b).value.id),
              ReplyBody(Working(old(turns), b).value, bindings[b], text, final), ReplyStatus.Prepared) in replies
    {
      if b in leases && view.Got? && TurnAuthority(Working(turns, b).value, leases[b], view.value) {
        var ok := PrepareReply(b, text, final, w0);
        if ok { return Done; }
      }
      ghost var mid := history;
      var _ := LoseTurn(b, now, w1);
      WritesTrans(old(history), mid, history);
      TakeAsStuck(Working(old(turns), b).value.id, old(stuck));
      return Failed;
    }

    /** One fenced read of the live turn's output. */
    method ReadOutput(b: BindingId, view: Answer<View>, tail: Answer<Chunk>, again: Answer<View>, retained: bool,
                      now: Time, w0: Write, w1: Write)
      returns (more: bool)
      requires Steady() && b in bindings && b in leases && Working(turns, b).Some?
      modifies `bindings, `history, `turns, `replies, `eventIds, `noticed, `queued
      ensures Steady() && OnlyWrites(old(history), history)
      ensures bindings - {b} == old(bindings) - {b} && b in bindings
      ensures more ==> bindings == old(bindings) && Working(turns, b).Some?
      ensures more ==> replies == old(replies) || Carried(old(replies), replies) == true
      ensures more ==> var t := Working(old(turns), b).value;
        Working(turns, b).value == t || (Working(turns, b).value == t.(deadline := now + TURN_IDLE_TIMEOUT))
      ensures more ==> ReadingOf(Working(old(turns), b).value, leases[b], view, tail, again, retained) in {Bytes, Quiet}
      ensures Working(turns, b).None? ==> bindings == old(bindings)[b := old(bindings[b]).(status := Stale)]
      ensures Working(turns, b).Some? ==>
        bindings == old(bindings) && Working(turns, b).value.status == Working(old(turns), b).value.status
      ensures match ReadingOf(Working(old(turns), b).value, leases[b], view, tail, again, retained)
        case Waiting => !more && Working(turns, b) == Working(old(turns), b)
        case Quiet => more && Untouched(old(Fields()))
        case Lost => !more && Working(turns, b).None?
        case Cursor => !more && (Working(turns, b) == if w0.files >= 4 then Some(Working(old(turns), b).value.(deadline := now + TURN_IDLE_TIMEOUT)) else None)
        case Bytes => (more <==> w0.files >= 4) && (Working(turns, b) == if more then Some(Working(old(turns), b).value.(deadline := now + TURN_IDLE_TIMEOUT)) else None)
    {
      var t := Working(turns, b).value;
      var reading := ReadingOf(t, leases[b], view, tail, again, retained);
      match reading {
        case Quiet => return true;
        case Waiting => return false;
        case Lost =>
          var _ := LoseTurn(b, now, w1);
          return false;
        case _ =>
          var ok := Prolong(b, now, w0);
          ghost var mid := history;
          if !ok {
            var _ := LoseTurn(b, now, w1);
            WritesTrans(old(history), mid, history);
          }
          return ok && reading.Bytes?;
      }
    }

    /** Looks for the marked reply in the rendered pane and completes the turn with it. */
    method Harvest(b: BindingId, marker: Marker, snapshot: Answer<Snapshot>, view: Answer<View>, now: Time, w0: Write,
                   w1: Write)
      requires Steady() && b in bindings && b in leases && Working(turns, b).Some?
        && Working(turns, b).value.status.Awaiting? && base.incoming.None?
      modifies `bindings, `history, `turns, `replies, `eventIds, `noticed, `queued, `stuck
      ensures Steady() && OnlyWrites(old(history), history)
      ensures bindings - {b} == old(bindings) - {b} && b in bindings
      ensures Working(turns, b).None? ==> bindings == old(bindings)[b := old(bindings[b]).(status := Stale)]
      ensures Working(turns, b).Some? ==> bindings == old(bindings)
      ensures Working(turns, b).Some? ==> var t := Working(old(turns), b).value;
        || Working(turns, b).value == t
        || (&& Working(turns, b).value == t.(status := TurnStatus.Replying) && t.marked
            && snapshot.Got? && SnapshotMatches(t, snapshot.value) && snapshot.value.reply.Some? && view.Got? && TurnAuthority(t, leases[b], view.value))
      ensures Ripe(Working(old(turns), b).value, leases[b], marker, snapshot, view, old(replies), w0) ==>
        Gave(old(Fields()), b, snapshot.value.reply.value) == true
      ensures PollSticks(old(turns), old(replies), old(stuck), turns, stuck, b, !marker.NewlyClosed?) == true
    {
      if !Working(turns, b).value.marked {
        var _ := LoseTurn(b, now, w0);
        return;
      }
      if marker.NewlyClosed? {
        var ok := Save(b, w0);
        if !ok { return; }
      }
      ghost var mid, live, between := history, turns, replies;
      if marker.Unseen? || (snapshot.Threw? && RetryableRead(snapshot.fault)) { return; }
      if snapshot.Threw? || !SnapshotMatches(Working(turns, b).value, snapshot.value) {
        var _ := LoseTurn(b, now, w0);
      } else if snapshot.value.reply.Some? {
        var _ := CompleteReply(b, snapshot.value.reply.value, FinalCompleted, view, now, w0, w1);
        if marker.NewlyClosed? {
          PollSticksLater(old(turns), old(replies), old(stuck), live, between, turns, stuck, b, true);
        }
      }
      WritesTrans(old(history), mid, history);
    }

    /** Polls the awaiting turn of a binding. */
    method PollTurn(b: BindingId, k: PollAnswers, now: Time, w0: Write, w1: Write, w2: Write, w3: Write)
      requires Inv()
      modifies this
      ensures Steady() && Since(old(Now()), None)
      ensures bindings - {b} == old(bindings) - {b} && leases == old(leases)
      ensures bindings == old(bindings) || (b in old(bindings) && bindings == old(bindings)[b := old(bindings[b]).(status := Stale)])
      ensures OnlyWrites(old(history), history)
      ensures Working(old(turns), b).None? || !Working(old(turns), b).value.status.Awaiting? ==>
        Untouched(old(Fields()))
      ensures Working(turns, b).Some? && Working(turns, b).value.status != Working(old(turns), b).value.status ==>
        Working(turns, b).value.status.Replying? && b in leases && k.final.Got?
      // a complete reply of a turn that is not idle is prepared, and queued
      ensures b in old(bindings) && old(bindings[b]).status.Active? && b in leases && Working(old(turns), b).Some? && Working(old(turns), b).value.status.Awaiting? ==>
        Harvestable(Working(old(turns), b).value, leases[b], k, old(replies), now, w2) ==>
        Gave(old(Fields()), b, k.snapshot.value.reply.value) == true
      ensures inFlight == old(inFlight)
      ensures PollSticks(old(turns), old(replies), old(stuck), turns, stuck, b,
                         b in leases && PollsDirectly(Working(old(turns), b), leases[b], k)) == true
    {
      Begin(None);
      if Working(turns, b).None? || !Working(turns, b).value.status.Awaiting? { return; }
      if b !in bindings || !bindings[b].status.Active? || b !in leases {
        EndLive(b, TurnStatus.RecoveryRequired, now);
        var _ := Save(b, w0);
        return;
      }
      PollOwned(b, k, now, w0, w1, w2, w3);
    }

    /** Reads the output of an owned terminal and, if there is something to go on with, looks for
        the reply. */
    method PollOwned(b: BindingId, k: PollAnswers, now: Time, w0: Write, w1: Write, w2: Write, w3: Write)
      requires Steady() && b in bindings && b in leases && Working(turns, b).Some?
        && Working(turns, b).value.status.Awaiting? && base.incoming.None?
      modifies `bindings, `history, `turns, `replies, `eventIds, `noticed, `queued, `stuck
      ensures Steady() && OnlyWrites(old(history), history)
      ensures bindings == if Working(turns, b).None? then old(bindings)[b := old(bindings[b]).(status := Stale)] else old(bindings)
      ensures Working(turns, b).Some? && !Working(turns, b).value.status.Awaiting? ==>
        Working(turns, b).value.status.Replying? && k.final.Got?
      ensures Harvestable(Working(old(turns), b).value, leases[b], k, old(replies), now, w2) ==>
        Gave(old(Fields()), b, k.snapshot.value.reply.value) == true
      ensures PollSticks(old(turns), old(replies), old(stuck), turns, stuck, b,
                         PollsDirectly(Working(old(turns), b), old(leases[b]), k)) == true
    {
      var more := ReadOutput(b, k.view, k.tail, k.again, k.retained, now, w0, w1);
      if !more { return; }
      ghost var mid, live, between := history, turns, replies;
      Conclude(b, k.marker, k.snapshot, k.final, now, w2, w3);
      WritesTrans(old(history), mid, history);
      if !PollsDirectly(Working(old(turns), b), leases[b], k) {
        PollSticksLater(old(turns), old(replies), old(stuck), live, between, turns, stuck, b, !k.marker.NewlyClosed?);
      }
    }

    /** A turn idle for too long is answered with a notice, any other one with its reply. */
    method Conclude(b: BindingId, marker: Marker, snapshot: Answer<Snapshot>, view: Answer<View>, now: Time, w0: Write,
                    w1: Write)
      requires Steady() && b in bindings && b in leases && Working(turns, b).Some?
        && Working(turns, b).value.status.Awaiting? && base.incoming.None?
      modifies `bindings, `history, `turns, `replies, `eventIds, `noticed, `queued, `stuck
      ensures Steady() && OnlyWrites(old(history), history)
      ensures bindings == if Working(turns, b).None? then old(bindings)[b := old(bindings[b]).(status := Stale)] else old(bindings)
      ensures Working(turns, b).Some? ==> var t := Working(old(turns), b).value;
        Working(turns, b).value == t || (Working(turns, b).value == t.(status := TurnStatus.Replying) && view.Got? && TurnAuthority(t, leases[b], view.value))
      ensures now < Working(old(turns), b).value.deadline && Ripe(Working(old(turns), b).value, leases[b], marker, snapshot, view, old(replies), w0) ==>
        Gave(old(Fields()), b, snapshot.value.reply.value) == true
      ensures PollSticks(old(turns), old(replies), old(stuck), turns, stuck, b, !marker.NewlyClosed?) == true
    {
      if now >= Working(turns, b).value.deadline {
        var _ := CompleteReply(b, IDLE_NOTICE, FinalTimedOut, view, now, w0, w1);
      } else {
        Harvest(b, marker, snapshot, view, now, w0, w1);
      }
    }

    /** The watch has lost its agent: it needs recovery and the binding is stale. */
    method LoseWatch(b: BindingId, w: Write)
      requires Steady() && b in bindings
      modifies `bindings, `history, `turns, `replies, `eventIds, `noticed, `queued
      ensures Steady() && OnlyWrites(old(history), history)
      ensures bindings == old(bindings)[b := old(bindings[b]).(status := Stale,
                                                               watch := Ended(old(bindings[b]).watch,
                                                                              WatchStatus.RecoveryRequired))]
      ensures bindings - {b} == old(bindings) - {b}
    {
      Put(b, bindings[b].(status := Stale, watch := Ended(bindings[b].watch, WatchStatus.RecoveryRequired)));
      var _ := Save(b, w);
    }

    /** A quiet agent's final result is fetched and captured. */
    method PrepareCompletion(b: BindingId, before: Answer<View>, result: Answer<AgentResult>, now: Time, w: Write)
      requires Steady() && b in bindings && b in leases && Pollable(bindings[b])
      requires var x := bindings[b].watch.value;
        Tracked(history, x) && QuietAt(history, x.id, now) && x.stopAt.Some? && now - x.stopAt.value >= STOP_DEBOUNCE
      modifies `bindings, `history, `turns, `replies, `eventIds, `noticed, `queued
      ensures Steady()
      ensures bindings - {b} == old(bindings) - {b} && b in bindings && bindings[b].watch.Some?
      ensures var x := old(bindings[b]).watch.value;
        match SettlementOf(old(bindings[b]).target, x, leases[b], before, result)
        case Settled =>
          && bindings[b] == old(bindings[b]).(watch := Some(x.(status := WatchStatus.Sending)))
          && OnlyWrites(Then(old(history), Captured(x.id, now, CorrOf(x), x.source.value)), history)
        case Retry => Untouched(old(Fields()))
        case Broken => bindings[b] == old(bindings[b]).(status := Stale,
                                                        watch := Some(x.(status := WatchStatus.RecoveryRequired)))
    {
      match SettlementOf(bindings[b].target, bindings[b].watch.value, leases[b], before, result) {
        case Retry =>
        case Broken => LoseWatch(b, w);
        case Settled =>
          Capture(b, now);
          var _ := Save(b, w);
      }
    }

    /** The agent was seen running. */
    method NoteRunning(b: BindingId, source: Source, now: Time, w: Write)
      requires Steady() && b in bindings && Pollable(bindings[b]) && Tracked(history, bindings[b].watch.value)
      modifies `bindings, `history, `turns, `replies, `eventIds, `noticed, `queued
      ensures Steady()
      ensures bindings - {b} == old(bindings) - {b}
      ensures b in bindings && bindings[b] == old(bindings[b]).(watch := Some(Rearmed(old(bindings[b]).watch.value, source, now)))
      ensures w.files == 0 ==>
        history == Then(old(history), Seen(old(bindings[b]).watch.value.id, now, true, source.id))
    {
      var x := bindings[b].watch.value;
      Observe(b, Rearmed(x, source, now), now, true, source.id);
      if Rearmed(x, source, now) != x { var _ := SaveAll(b, w); }
    }

    /** The agent was seen idle: only a second look, long enough after the first, may
        lead to a completion. */
    method NoteIdle(b: BindingId, before: Answer<View>, result: Answer<AgentResult>, now: Time, w: Write)
      requires Steady() && b in bindings && b in leases && Pollable(bindings[b])
        && Tracked(history, bindings[b].watch.value)
      modifies `bindings, `history, `turns, `replies, `eventIds, `noticed, `queued
      ensures Steady()
      ensures bindings - {b} == old(bindings) - {b} && b in bindings && bindings[b].watch.Some?
      ensures bindings[b].status.Active? || bindings[b].status.Stale?
      ensures bindings[b].watch.value.status.Sending? ==>
        result.Got? && ResultMatches(old(bindings[b]).target, bindings[b].watch.value, leases[b], result.value)
      ensures var x := old(bindings[b]).watch.value;
        Idled(x, now) != x || now - x.stopAt.value < STOP_DEBOUNCE ==> bindings[b] == old(bindings[b]).(watch := Some(Idled(x, now)))
      ensures var x := old(bindings[b]).watch.value;
        Idled(x, now) == x && now - x.stopAt.value >= STOP_DEBOUNCE ==>
          match SettlementOf(old(bindings[b]).target, x, leases[b], before, result)
          case Settled =>
            && bindings[b] == old(bindings[b]).(watch := Some(x.(status := WatchStatus.Sending)))
            && OnlyWrites(Then(Then(old(history), Seen(x.id, now, false, 0)), Captured(x.id, now, CorrOf(x), x.source.value)), history)
          case Retry => bindings[b] == old(bindings[b])
          case Broken => bindings[b] == old(bindings[b]).(status := Stale,
                                                          watch := Some(x.(status := WatchStatus.RecoveryRequired)))
    {
      var x := bindings[b].watch.value;
      Observe(b, Idled(x, now), now, false, 0);
      if Idled(x, now) != x {
        var _ := Save(b, w);
      } else if now - x.stopAt.value >= STOP_DEBOUNCE {
        PrepareCompletion(b, before, result, now, w);
      }
    }

    /** One poll of a binding's activity watch. */
    method PollWatch(b: BindingId, look: Answer<Observation>, before: Answer<View>, result: Answer<AgentResult>,
                     now: Time, w: Write)
      requires Inv()
      modifies this
      ensures stuck == old(stuck)
      ensures Steady() && Since(old(Now()), None)
      ensures bindings - {b} == old(bindings) - {b} && leases == old(leases)
      ensures !(b in old(bindings) && b in old(leases) && Pollable(old(bindings[b]))) ==> Untouched(old(Fields()))
      ensures b in bindings && bindings[b].status.Active? ==> b in old(bindings) && old(bindings[b]).status.Active?
      // a completion goes out only for an agent seen idle, with a result of the watched generation and source
      ensures b in bindings && b in old(bindings) && bindings[b].watch.Some? && bindings[b].watch.value.status.Sending? && bindings[b] != old(bindings[b]) ==>
        && look.Got? && !look.value.running && result.Got? && b in leases
        && ResultMatches(old(bindings[b]).target, bindings[b].watch.value, leases[b], result.value)
      // a running agent arms the watch; an idle one may complete it
      ensures Shown(old(bindings), old(leases), b, look) && look.value.running ==>
        && b in bindings
        && bindings[b] == old(bindings[b]).(watch := Some(Rearmed(old(bindings[b]).watch.value, look.value.source.value, now)))
        && (w.files == 0 ==> history == Then(old(history), Seen(old(bindings[b]).watch.value.id, now, true, look.value.source.value.id)))
      ensures Shown(old(bindings), old(leases), b, look) && !look.value.running ==>
        (var x := old(bindings[b]).watch.value;
         Idled(x, now) == x && now - x.stopAt.value >= STOP_DEBOUNCE && SettlementOf(old(bindings[b]).target, x, leases[b], before, result).Settled? ==>
           OnlyWrites(Then(Then(old(history), Seen(x.id, now, false, 0)),
                           Captured(x.id, now, CorrOf(x), x.source.value)), history))
    {
      Begin(None);
      if b !in bindings || b !in leases || !Pollable(bindings[b]) { return; }
      var x := bindings[b].watch.value;
      OwnWatch(b);
      if look.Threw? && !FatalActivity(look.fault) { return; }
      if look.Threw? || !Observed(bindings[b].target, x, leases[b], look.value) || (look.value.running && look.value.source.None?) {
        LoseWatch(b, w);
      } else if look.value.running {
        NoteRunning(b, look.value.source.value, now, w);
      } else {
        NoteIdle(b, before, result, now, w);
      }
    }

    /** The verdict on a completion card comes back from its own lane. */
    method SettleActivity(b: BindingId, watch: WatchId, verdict: CardVerdict, w: Write)
      requires Inv()
      modifies this
      ensures stuck == old(stuck)
      ensures Steady() && Since(old(Now()), None)
      ensures bindings - {b} == old(bindings) - {b} && leases == old(leases)
      ensures var applies := b in old(bindings) && old(bindings[b]).watch.Some? && old(bindings[b]).watch.value.id == watch
          && VerdictApplies(old(bindings[b]).watch.value.status, verdict);
        if !applies then Untouched(old(Fields()))
        else bindings == old(bindings)[b := old(bindings[b]).(
          status := if verdict.CardDoubtful? || verdict.CardFenced? then Stale else old(bindings[b]).status,
          watch := Some(old(bindings[b]).watch.value.(status := VerdictStatus(verdict))))]
    {
      Begin(None);
      if b !in bindings || bindings[b].watch.None? || bindings[b].watch.value.id != watch
        || !VerdictApplies(bindings[b].watch.value.status, verdict) { return; }
      var x := bindings[b];
      Put(b, x.(status := if verdict.CardDoubtful? || verdict.CardFenced? then Stale else x.status,
                watch := Some(x.watch.value.(status := VerdictStatus(verdict)))));
      var _ := Save(b, w);
    }

    // ----- lease renewal

    /** A renewal goes out for the lease as it is now. */
    method IssueRenewal(b: BindingId)
      requires Inv()
      modifies `renewals, `base
      ensures Steady() && Since(Now(), None)
      ensures renewals == if b in leases && b in bindings && bindings[b].status.Active? then old(renewals) + {leases[b]} else old(renewals)
    {
      assert OpenInv(0);
      Begin(None);
      if b in leases && b in bindings && bindings[b].status.Active? {
        RenewalAdded(history, process, bindings, leases, renewals, b);
        renewals := renewals + {leases[b]};
      }
    }

    /** A renewal that failed for good: the lease is gone and the work with it. */
    method GiveUpLease(b: BindingId, now: Time, w: Write)
      requires Steady() && b in bindings
      modifies `renewFailures, `bindings, `leases, `history, `turns, `replies, `eventIds, `noticed, `queued
      ensures Steady() && Working(turns, b).None?
      ensures bindings == old(bindings)[b := old(bindings[b]).(status := Stale,
                                                               watch := Ended(old(bindings[b]).watch,
                                                                              WatchStatus.RecoveryRequired))]
      ensures bindings - {b} == old(bindings) - {b}
      ensures leases == old(leases) - {b} && leases - {b} == old(leases) - {b}
      ensures renewFailures == old(renewFailures) - {b}
    {
      SettleRenewal(b);
      var _ := Fence(b, now, w);
    }

    /** A renewal call failed: a transport failure is put up with for a while. */
    method FailRenewal(b: BindingId, fault: Fault, now: Time, w: Write)
      requires Steady() && b in bindings
      modifies `renewFailures, `bindings, `leases, `history, `turns, `replies, `eventIds, `noticed, `queued
      ensures Steady()
      ensures var patient := RetryableRenewal(fault) && (b in old(renewFailures) ==> now - old(renewFailures[b]) < RENEW_GRACE);
        if patient then bindings == old(bindings) && leases == old(leases) && turns == old(turns)
        else && bindings - {b} == old(bindings) - {b} && b in bindings && bindings[b].status.Stale?
             && leases == old(leases) - {b} && leases - {b} == old(leases) - {b}
    {
      assert OpenInv(0);
      if RetryableRenewal(fault) {
        LogRetry(b, now);
        if now - renewFailures[b] < RENEW_GRACE { return; }
        RetryShown(history, process, CurrentWork(), b);
        Log(GraceExpired(b, now));
      }
      GiveUpLease(b, now, w);
    }

    /** The verdict of a renewal comes back for the lease it was issued for. */
    method ApplyRenewal(b: BindingId, issued: Lease, answer: Answer<Grant>, now: Time, w: Write)
      requires Inv() && issued in renewals && issued.owner == Owner(Feishu, ForBinding(b, process))
      modifies this
      ensures stuck == old(stuck)
      ensures Steady() && Since(old(Now()), None)
      ensures Confined(b, old(bindings), old(leases), bindings, leases)
      // a verdict about another generation changes no lease, binding or turn
      ensures b !in old(leases) || !SameGeneration(issued, old(leases[b])) || b !in old(bindings) || !old(bindings[b]).status.Active? ==>
        leases == old(leases) && bindings == old(bindings) && turns == old(turns)
      ensures b in leases ==> b in old(leases) && SameGeneration(leases[b], old(leases[b]))
      // a transport failure fences only after the grace period since the first one on record
      ensures answer.Threw? && RetryableRenewal(answer.fault) && leases != old(leases) ==>
        b in old(renewFailures) && now - old(renewFailures[b]) >= RENEW_GRACE
      ensures answer.Threw? && RetryableRenewal(answer.fault) && leases == old(leases) ==>
        bindings == old(bindings) && turns == old(turns)
      ensures b in leases && leases[b] != old(leases[b]) ==> b !in renewFailures
    {
      assert OpenInv(0);
      Begin(None);
      if b !in leases || b !in bindings || !bindings[b].status.Active? { return; }
      var current := leases[b];
      if !SameGeneration(issued, current) {
        SettleRenewal(b);
        return;
      }
      if answer.Threw? {
        FailRenewal(b, answer.fault, now, w);
        return;
      }
      var renewed := Granted(answer.value, issued.target, issued.owner, true, now);
      if renewed.None? || !SameGeneration(renewed.value, current) {
        GiveUpLease(b, now, w);
      } else {
        RenewalTarget(process, bindings, renewals, b, issued);
        SetLease(b, renewed.value);
        SettleRenewal(b);
      }
    }

    // ----- outbound cards

    /** An attempt that is no longer prepared leaves the lane. */
    method LandSettled(id: AttemptId)
      requires Steady() && (FindReply(replies, id).Some? ==> !replies[FindReply(replies, id).value].status.Prepared?)
      modifies `inFlight, `queued
      ensures Steady() && inFlight == old(inFlight) - {id}
    {
      var j := FindReply(replies, id);
      if j.Some? { OneReply(j.value, id); }
      LandCard(id);
    }

    /** Gives an attempt up: its outcome is uncertain. */
    method Forsake(id: AttemptId, j: nat, w: Write)
      requires Steady() && FindReply(replies, id) == Some(j) && replies[j].status.Prepared?
      modifies `inFlight, `history, `turns, `replies, `eventIds, `noticed, `queued, `stuck
      ensures Steady() && SameLive(old(turns), turns) && id !in inFlight
        && stuck == Settling(old(turns), old(stuck), id)
      ensures forall r | r in replies && r.id == id :: r == old(replies[j]).(status := ReplyStatus.Uncertain)
    {
      DoubtReply(j);
      OneReply(j, id);
      LandCard(id);
      ghost var before := replies;
      assert before[j] in before && ReplyKey(before[j]) == id;
      var _ := Persist(w);
      forall r | r in replies && r.id == id ensures r == before[j] { CarriedAt(before, replies, r); }
    }

    /** The delivery lane takes up a queued attempt: the card is sent, or given up. The lane runs
        one delivery after the other and queues an attempt again only after its delivery ended, so
        an attempt it takes up is queued and not on its way; a run checks just that. */
    method IssueOutbound(id: AttemptId, w: Write) returns (sent: bool)
      requires Inv() && id in queued && id !in inFlight
      modifies this
      ensures Steady() && Since(old(Now()), None)
      ensures bindings == old(bindings) && leases == old(leases) && SameLive(old(turns), turns)
      // exactly a prepared attempt with a whole payload, and a turn reply only while its turn waits for it
      ensures var j := FindReply(old(replies), id);
        sent <==> j.Some? && old(replies)[j.value].status.Prepared? && Deliverable(old(turns), old(replies)[j.value].body)
      ensures sent ==>
        && history == Then(old(history), CardSent(process, old(replies)[FindReply(old(replies), id).value]))
        && replies == old(replies)
      ensures sent ==> turns == old(turns) && eventIds == old(eventIds) && inFlight == old(inFlight) + {id}
      ensures var j := FindReply(old(replies), id);
        !sent && j.Some? && old(replies)[j.value].status.Prepared? ==> forall r | r in replies && r.id == id :: r.status.Uncertain?
      // an attempt given up leaves a turn stuck that is replying still
      ensures var j := FindReply(old(replies), id);
        stuck == if !sent && j.Some? && old(replies)[j.value].status.Prepared? then Settling(old(turns), old(stuck), id) else old(stuck)
    {
      Begin(None);
      var j := FindReply(replies, id);
      if j.None? || !replies[j.value].status.Prepared? {
        LandSettled(id);
        return false;
      }
      if !Deliverable(turns, replies[j.value].body) {
        Forsake(id, j.value, w);
        return false;
      }
      LogCard(replies[j.value]);
      return true;
    }

    /** The turn that a reply answers is finished. */
    method FinishAnswered(body: Body, now: Time)
      requires Inv()
      modifies `turns
      ensures Inv() && turns == Finished(old(turns), body, now)
    {
      assert OpenInv(0);
      var i := Answered(turns, body);
      if i.Some? {
        TurnSet(history, process, CurrentWork(), i.value,
                turns[i.value].(status := FinalStatus(body.final), completedAt := Some(now)));
        turns := turns[i.value := turns[i.value].(status := FinalStatus(body.final), completedAt := Some(now))];
      }
    }

    /** The step that marks a reply sent and, with it, finishes the turn it answers. From
        here the operation counts as begun. */
    method MarkSent(id: AttemptId, j: nat, now: Time)
      requires Inv() && FindReply(replies, id) == Some(j) && replies[j].status.Prepared?
      modifies `turns, `replies, `base, `inFlight, `queued, `stuck
      ensures Steady() && Since(Now(), None)
      ensures stuck == Settling(turns, old(stuck), id)
      ensures replies == old(replies)[j := old(replies[j]).(status := ReplyStatus.Sent)]
      ensures turns == Finished(old(turns), old(replies[j]).body, now)
      ensures inFlight == old(inFlight) - {id}
    {
      FinishAnswered(replies[j].body, now);
      SettleReply(j, ReplyStatus.Sent);
      Begin(None);
      OneReply(j, id);
      LandCard(id);
    }

    /** The terminal of a timed-out turn is given up, and the delivery is stored. */
    method Expire(late: Option<BindingId>, w: Write)
      requires Steady()
      modifies `bindings, `leases, `history, `turns, `replies, `eventIds, `noticed, `queued
      ensures Steady()
      ensures late.None? || late.value !in old(bindings) ==> bindings == old(bindings) && leases == old(leases)
      ensures late.Some? && late.value in old(bindings) ==> leases == old(leases) - {late.value}
      ensures Backed(old(bindings), old(leases)) ==> Backed(bindings, leases)
      ensures w.files >= 4 ==> Restored(old(turns), old(replies), old(eventIds)) == true
    {
      if late.Some? && late.value in bindings {
        DropLease(late.value);
        MarkStale(late.value);
        BackedStill(old(bindings), old(leases), bindings, leases, late.value);
      }
      var _ := SaveAll(0, w);
    }

    /** The lists were stored and trimmed. */
    ghost predicate Restored(turns0: seq<Turn>, replies0: seq<Reply>, events0: seq<EventId>)
      reads `bindings, `turns, `replies, `eventIds
    {
      RestoredIn(FieldValues(map[], map[], turns0, replies0, events0, Start),
                 FieldValues(bindings, map[], turns, replies, eventIds, Start))
    }

    /** The network confirmed the card. */
    method ApplySent(id: AttemptId, now: Time, w: Write)
      requires Inv() && id in inFlight
      modifies this
      ensures Steady() && base.history == old(history) && base.incoming == None && process == old(process)
        && id !in inFlight
      // the reply is marked sent and its turn finished in one step; everything after is ordinary
      ensures var j := FindReply(old(replies), id);
        if j.None? || !old(replies)[j.value].status.Prepared?
        then base.turns == old(turns) && base.replies == old(replies) && Untouched(old(Fields())) && stuck == old(stuck)
        else && base.replies == old(replies)[j.value := old(replies)[j.value].(status := ReplyStatus.Sent)]
             && stuck == Settling(base.turns, old(stuck), id)
             && base.turns == Finished(old(turns), old(replies)[j.value].body, now)
             && (w.files >= 4 ==> Restored(base.turns, base.replies, old(eventIds)) == true)
      ensures inFlight == old(inFlight) - {id}
      // only a notice that came too late gives the terminal up
      ensures var j := FindReply(old(replies), id);
        !(j.Some? && old(replies)[j.value].body.TurnReply? && old(replies)[j.value].body.final.FinalTimedOut?) ==> bindings == old(bindings) && leases == old(leases)
      ensures Backed(old(bindings), old(leases)) ==> Backed(bindings, leases)
    {
      var j := FindReply(replies, id);
      if j.None? || !replies[j.value].status.Prepared? {
        Begin(None);
        LandSettled(id);
        return;
      }
      var body := replies[j.value].body;
      var i := Answered(turns, body);
      var late := if i.Some? && body.final.FinalTimedOut? then Some(turns[i.value].binding) else None;
      MarkSent(id, j.value, now);
      Expire(late, w);
    }

    /** The turn that a failed card answers is lost, and its binding is stale. */
    method LoseAnswered(i: Option<nat>, now: Time)
      requires Steady() && (i.Some? ==> i.value < |turns| && turns[i.value].status.Replying?)
      modifies `turns, `bindings
      ensures Steady()
      ensures i.None? ==> turns == old(turns) && bindings == old(bindings)
      ensures i.Some? ==>
        turns == old(turns)[i.value := old(turns)[i.value].(status := TurnStatus.RecoveryRequired,
                                                            completedAt := Some(now))]
      ensures i.Some? ==> bindings == Staled(old(bindings), old(turns)[i.value].binding)
      ensures Backed(old(bindings), leases) ==> Backed(bindings, leases)
    {
      if i.Some? {
        var owner := turns[i.value].binding;
        EndTurn(i.value, TurnStatus.RecoveryRequired, now);
        if owner in bindings {
          MarkStale(owner);
          BackedStill(old(bindings), leases, bindings, leases, owner);
        }
      }
    }

    /** The network did not confirm the card. */
    method ApplyUncertain(id: AttemptId, now: Time, w: Write)
      requires Inv() && id in inFlight
      modifies this
      ensures Steady() && Since(old(Now()), None) && id !in inFlight && leases == old(leases)
      ensures var j := FindReply(old(replies), id);
        if j.None? || !old(replies)[j.value].status.Prepared? then Untouched(old(Fields())) && stuck == old(stuck)
        else
          // the attempt is uncertain for good; the turn it answers is lost and its binding stale
          var i := Answered(old(turns), old(replies)[j.value].body);
          && (forall r | r in replies && r.id == id :: r.status.Uncertain?)
          && bindings == (if i.None? then old(bindings) else Staled(old(bindings), old(turns)[i.value].binding))
          && (i.Some? ==> SameLive(old(turns)[i.value := old(turns)[i.value].(status := TurnStatus.RecoveryRequired, completedAt := Some(now))], turns))
          && stuck == Settling(WithLost(old(turns), i, now), old(stuck), id)
      ensures Backed(old(bindings), old(leases)) ==> Backed(bindings, leases)
    {
      Begin(None);
      var j := FindReply(replies, id);
      if j.None? || !replies[j.value].status.Prepared? {
        LandSettled(id);
        return;
      }
      LoseAnswered(Answered(turns, replies[j.value].body), now);
      Forsake(id, j.value, w);
    }

    // ----- stopping and starting

    /** Settles one leased binding at shutdown; its lease is forgotten afterwards. */
    method Retire(b: BindingId, release: Answer<View>, now: Time)
      requires Steady() && b in bindings && b in leases
      modifies `bindings, `turns
      ensures Steady()
      ensures Working(turns, b).None? && bindings.Keys == old(bindings).Keys && !bindings[b].status.Active?
      ensures bindings == old(bindings)[b := old(bindings[b]).(status :=
        if Working(old(turns), b).None? && !old(bindings[b]).status.Stale? && release.Got? && Released(leases[b], release.value) then Paused else Stale)]
      ensures bindings - {b} == old(bindings) - {b}
    {
      if Working(turns, b).Some? {
        EndLive(b, TurnStatus.RecoveryRequired, now);
        MarkStale(b);
      } else if !bindings[b].status.Stale? {
        SetStanding(b, if release.Got? && Released(leases[b], release.value) then Paused else Stale,
                    bindings[b].handoff);
      }
    }

    /** Settles the leased bindings one after the other. */
    method RetireAll(order: seq<BindingId>, releases: map<BindingId, Answer<View>>, now: Time)
      requires Steady() && forall b | b in order :: b in releases
      modifies `bindings, `turns
      ensures Steady() && bindings.Keys == old(bindings).Keys
      ensures forall b | b in order && b in leases && b in bindings :: !bindings[b].status.Active?
      ensures forall b | b in bindings && b !in leases :: bindings[b] == old(bindings)[b]
    {
      var i := 0;
      while i < |order|
        invariant 0 <= i <= |order| && Steady() && bindings.Keys == old(bindings).Keys
        invariant forall k | 0 <= k < i :: order[k] in leases && order[k] in bindings ==> !bindings[order[k]].status.Active?
        invariant forall b | b in bindings && b !in leases :: bindings[b] == old(bindings)[b]
      {
        var b := order[i];
        if b in leases && b in bindings { Retire(b, releases[b], now); }
        i := i + 1;
      }
    }

    /** Shuts down: `order` lists the leased bindings. */
    method Close(order: seq<BindingId>, releases: map<BindingId, Answer<View>>, now: Time, w: Write)
      requires Inv() && (forall b | b in leases :: b in order) && forall b | b in order :: b in releases
      modifies this
      ensures stuck == old(stuck)
      ensures Steady() && Since(old(Now()), None)
      ensures leases == map[] && bindings.Keys == old(bindings).Keys
      ensures forall b | b in bindings && bindings[b].status.Active? :: b !in old(leases) && bindings[b] == old(bindings)[b]
      ensures OnlyWrites(old(history), history)
    {
      Begin(None);
      RetireAll(order, releases, now);
      ForgetLeases();
      var _ := Save(0, w);
    }

    method ForgetLeases()
      requires Steady()
      modifies `leases
      ensures Steady() && leases == map[]
    {
      assert OpenInv(0);
      LeasesCleared(history, process, bindings, leases);
      leases := map[];
    }

    /** A new process reads the files. Turns that were under way need recovery, unless their reply
        still waits. Notices already given by an earlier process are not repeated. */
    method Load(h: History, now: Time) returns (changed: bool)
      requires Lawful(h) && SentUpTo(h, process)
      modifies this
      ensures Steady() && stuck == {}
        && base == Base(process, DiskTurns(h), DiskReplies(h), Then(h, Woke(process)), None)
      ensures process == old(process) + 1 && history == Then(h, Woke(process)) && leases == map[] && inFlight == {}
        && queued == {} && renewals == {}
      ensures replies == DiskReplies(h) && bindings == AllWoken(DiskBindings(h)) && noticed == AnnouncedOnFile(h)
      ensures Recovered(DiskTurns(h), turns, replies) && (!changed ==> turns == DiskTurns(h))
    {
      Refill(h);
      changed := RecoverTurns(now);
      RestartSound(h, old(process), turns);
      assert WorkOnFile(h, turns) == CurrentWork();
    }

    /** The fields as the files have them, and nothing on its way. */
    method Refill(h: History)
      modifies this
      ensures process == old(process) + 1 && history == Then(h, Woke(process))
        && bindings == AllWoken(DiskBindings(h)) && turns == DiskTurns(h)
      ensures leases == map[] && renewals == {} && queued == {}
      ensures WorkOnFile(h, turns) == CurrentWork()
      ensures base == Base(process, turns, replies, history, None) && Moved(base, turns, replies, history) == true
    {
      bindings, leases, queued, renewals := AllWoken(DiskBindings(h)), map[], {}, {};
      RefillWork(h);
      history, process := Then(h, Woke(process + 1)), process + 1;
      base := Now();
      MovesStart(base);
    }
    method RefillWork(h: History)
      modifies `turns, `replies, `eventIds, `renewFailures, `inFlight, `noticed, `stuck
      ensures WorkOnFile(h, DiskTurns(h)) == CurrentWork()
    {
      turns, replies, eventIds, renewFailures, inFlight := DiskTurns(h), DiskReplies(h), DiskEvents(h), map[], {};
      noticed, stuck := AnnouncedOnFile(h), {};
    }

    /** Turns that were under way need recovery, unless their reply still waits. */
    method RecoverTurns(now: Time) returns (changed: bool)
      requires Moved(base, turns, replies, history) == true
      modifies `turns
      ensures Moved(base, turns, replies, history) == true
      ensures Recovered(old(turns), turns, replies)
      ensures !changed ==> turns == old(turns)
    {
      changed := false;
      var i := 0;
      while i < |turns|
        invariant 0 <= i <= |turns| == |old(turns)| && Moved(base, turns, replies, history) == true
        invariant forall k | 0 <= k < i :: RecoveredTurn(old(turns)[k], turns[k], replies)
        invariant forall k | i <= k < |turns| :: turns[k] == old(turns)[k]
        invariant !changed ==> turns == old(turns)
      {
        if Live(turns[i].status) && !ReplyWaits(turns[i], replies) {
          var t := turns[i].(status := TurnStatus.RecoveryRequired, completedAt := Some(now));
          MovesTurn(base, turns, replies, history, i, t);
          turns := turns[i := t];
          changed := true;
        }
        i := i + 1;
      }
    }

    /** Prepared replies from before payloads were stored cannot be sent again. */
    method RecoverReplies() returns (changed: bool)
      requires Steady() && stuck == {} && forall t | t in turns && Live(t.status) :: ReplyWaits(t, replies)
      modifies `replies, `stuck
      ensures Steady() && stuck == {}
      ensures forall r | r in replies && r.status.Prepared? :: !r.body.Legacy?
      ensures forall r | r in old(replies) && r.status.Prepared? && !r.body.Legacy? :: r in replies
      ensures !changed ==> replies == old(replies)
    {
      assert OpenInv(0);
      changed := false;
      var i := 0;
      while i < |replies|
        invariant 0 <= i <= |replies| == |old(replies)| && Steady() && stuck == {}
        invariant forall t | t in turns && Live(t.status) :: ReplyWaits(t, replies)
        invariant forall k | 0 <= k < i :: replies[k].status.Prepared? ==> !replies[k].body.Legacy?
        invariant forall k | 0 <= k < |replies| && old(replies)[k].status.Prepared? && !old(replies)[k].body.Legacy? :: replies[k] == old(replies)[k]
        invariant forall k | i <= k < |replies| :: replies[k] == old(replies)[k]
        invariant !changed ==> replies == old(replies)
      {
        if replies[i].status.Prepared? && replies[i].body.Legacy? {
          ghost var was := replies;
          LegacyUnwaited(history, process, CurrentWork(), i);
          DoubtReply(i);
          StillWaits(turns, was, replies, i);
          changed := true;
        }
        i := i + 1;
      }
    }

    /** The process dies after some of the acts of its latest operation, and a new one
        starts from the files. */
    method Restart(cut: History, lost: Quarantine, now: Time, w: Write)
      requires Steady() && Earlier(cut, history)
      modifies this
      ensures Steady() && process == old(process) + 1
      ensures var h := SetAside(cut, lost);
        base == Base(process, DiskTurns(h), DiskReplies(h), Then(h, Woke(process)), None)
      ensures OnlyWrites(Then(SetAside(cut, lost), Woke(process)), history)
      // nothing is owned, and only turns whose reply waits to be sent are still live
      ensures leases == map[] && inFlight == {} && stuck == {}
        && bindings == AllWoken(DiskBindings(SetAside(cut, lost)))
      ensures forall b :: Working(turns, b).Some? ==> Working(turns, b).value.status.Replying?
    {
      CutLawful(cut);
      var h := SetAside(cut, lost);
      SetAsideKeeps(cut, lost, process);
      var changed := Load(h, now);
      RecoveredLive(DiskTurns(h), turns, replies);
      assert forall b :: Working(turns, b).Some? ==> Working(turns, b).value.status.Replying?;
      var more := RecoverReplies();
      FinishRestart(changed || more || bindings != DiskBindings(h), w);
    }

    method FinishRestart(changed: bool, w: Write)
      requires Steady()
      modifies `history, `turns, `replies, `eventIds, `noticed, `queued
      ensures Steady() && OnlyWrites(old(history), history)
      ensures (forall b :: Working(old(turns), b).Some? ==> Working(old(turns), b).value.status.Replying?)
        ==> forall b :: Working(turns, b).Some? ==> Working(turns, b).value.status.Replying?
      ensures !changed ==> Queued(replies, old(queued), queued)
    {
      if changed {
        var _ := Persist(w);
        forall b ensures Working(turns, b) == Working(old(turns), b) { SameLiveAt(old(turns), turns, b); }
      } else {
        QueuePrepared();
      }
    }
  }
}
