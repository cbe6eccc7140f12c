/** The records of the Feishu bridge and the answers of the systems around it.
    Identifiers that the source derives by a digest are constructors here, so a
    digest is collision-free by construction. */
module BridgeTypes {
  import opened Basics

  type BindingId = nat
  type EventId = nat
  type MessageId = nat
  type WatchId = nat
  type TargetId = nat
  type ChatId = nat
  type Text = nat
  type Time = int

  datatype TurnId = TurnId(binding: BindingId, event: EventId)
  datatype AttemptId = ReplyTo(turn: TurnId) | TurnNotice(turn: TurnId) | WatchNotice(watch: WatchId)

  // ----- terminal ownership

  datatype OwnerKind = Feishu | Dashboard | LocalCli
  datatype Instance = ForBinding(binding: BindingId, process: nat) | OtherInstance(name: nat)
  datatype Owner = Owner(kind: OwnerKind, instance: Instance)

  datatype Lease = Lease(target: TargetId, epoch: nat, id: nat, fence: nat, owner: Owner, expiresAt: Time)

  datatype OwnershipState = Free | Held | Draining | NeedsRecovery | Gone

  /** One answer of the terminal-control authority about a target. */
  datatype View = View(target: TargetId, epoch: nat, state: OwnershipState, ownerKind: Option<OwnerKind>,
                       fence: nat, nextOwnerKind: Option<OwnerKind>, handoffId: Option<nat>, generation: nat)

  datatype Code = NoCode | ResourceExhausted | Internal | ControllerUnavailable | HandoffPending
    | TargetGone | TargetNotFound | OperationInDoubt | RecoveryRequiredCode | PermissionDenied
    | StaleOutputCursor | InvalidRequest | UnsupportedVersion | Transport | OtherCode

  datatype Fault = Fault(isError: bool, canonical: bool, code: Code, retryable: bool)

  /** What an awaited call comes back with. */
  datatype Answer<+T> = Got(value: T) | Threw(fault: Fault)

  datatype Grant = Grant(lease: Option<Lease>, view: View)

  /** One look at the agent in a terminal. */
  datatype Observation = Observation(target: TargetId, corr: Corr, ownerKind: OwnerKind, running: bool,
                                     source: Option<Source>)
  /** The final result of an agent, with the generation it belongs to. */
  datatype AgentResult = AgentResult(target: TargetId, corr: Corr, ownerKind: OwnerKind, source: Source)

  /** The terminal's receipt for typed input. */
  datatype Receipt = Receipt(echoed: bool, epoch: nat, fence: nat, generation: nat, forward: bool)
  /** One read of the output stream; `nonempty` when it brought new bytes. */
  datatype Chunk = Chunk(target: TargetId, epoch: nat, fence: nat, ownerKind: OwnerKind, generation: nat,
                         atCursor: bool, nonempty: bool)
  /** A rendered view of the pane, with the marked reply it shows if that is complete. */
  datatype Snapshot = Snapshot(target: TargetId, epoch: nat, lease: nat, fence: nat, ownerKind: OwnerKind,
                               generation: nat, reply: Option<Text>)
  /** What the output read so far shows of the reply markers. */
  datatype Marker = Unseen | NewlyClosed | Closed
  /** What the message filters make of an event. */
  datatype Screening = Ignored | Unreadable | Filtered | Admitted

  /** A persist reaches the first `files` of its four files (4 or more is success).
      `order` is the order in which the bindings are visited for notices. */
  datatype Write = Write(files: nat, order: seq<BindingId>)

  // ----- handoffs, watches, bindings

  datatype Disposition = Drained | DrainCancelled | DrainUncertain
  datatype DrainRecord = OfTurn(turn: TurnId, cancelled: bool) | CancelledBeforeInput(unsentTurn: TurnId)
    | OfWatch(watch: WatchId)
    | FeishuDrained(binding: BindingId) | DashboardDrained(binding: BindingId) | DashboardReturned(binding: BindingId)
  datatype Drain = Drain(disposition: Disposition, record: DrainRecord, at: Time)

  datatype HandoffStatus = Prepared | Committed | Cancelled | Withdrawn | Uncertain
  datatype Role = Current | Next
  datatype Handoff = Handoff(id: nat, epoch: nat, fence: nat, next: OwnerKind, role: Role,
                             status: HandoffStatus, drain: Drain)

  datatype Source = Source(id: nat, detail: nat)
  datatype WatchStatus = Probing | Armed | StopCandidate | Sending | Sent | Uncertain | Cancelled | RecoveryRequired
  datatype Watch = Watch(id: WatchId, status: WatchStatus, epoch: nat, lease: nat, fence: nat, generation: nat,
                         source: Option<Source>, runningAt: Option<Time>, stopAt: Option<Time>)
  /** The terminal generation a watch is tied to. */
  datatype Corr = Corr(epoch: nat, lease: nat, fence: nat, generation: nat)

  datatype BindingStatus = Active | Pausing | Paused | Stale
  datatype ReplyMode = Topic | Direct
  datatype Binding = Binding(chat: ChatId, target: TargetId, session: nat, mode: ReplyMode,
                             status: BindingStatus, watch: Option<Watch>, handoff: Option<Handoff>)

  // ----- turns and outbound replies

  datatype TurnStatus = Prepared | Awaiting | Replying | Completed | Cancelled | TimedOut | RecoveryRequired
  /** `marked` when the turn has the nonce of its reply markers; older records may lack it. */
  datatype Turn = Turn(id: TurnId, message: MessageId, status: TurnStatus, marked: bool,
                       target: TargetId, epoch: nat, lease: nat, fence: nat, generation: Option<nat>,
                       deadline: Time, completedAt: Option<Time>)
  {
    const binding: BindingId := id.binding
  }

  datatype ReplyStatus = Prepared | Sent | Uncertain
  datatype Final = FinalCompleted | FinalTimedOut
  /** The durable payload of an outbound attempt; older records may lack it. */
  datatype Body =
    | TurnReply(turn: TurnId, source: MessageId, text: Text, session: nat, mode: ReplyMode, final: Final)
    | Notice(text: Text, session: nat, chat: ChatId)
    | Legacy(text: Text)
  datatype Reply = Reply(id: AttemptId, body: Body, status: ReplyStatus)

  function TurnKey(t: Turn): TurnId { t.id }
  function ReplyKey(r: Reply): AttemptId { r.id }

  predicate Live(s: TurnStatus) { s.Prepared? || s.Awaiting? || s.Replying? }
  predicate ActiveWatch(w: Option<Watch>) {
    w.Some? && (w.value.status.Probing? || w.value.status.Armed? || w.value.status.StopCandidate? || w.value.status.Sending?)
  }
  function CorrOf(w: Watch): Corr { Corr(w.epoch, w.lease, w.fence, w.generation) }

  // ----- classification of faults

  predicate FatalActivity(f: Fault) {
    if !f.isError then true
    else if f.code.ResourceExhausted? || f.code.Internal? then false
    else if f.code.ControllerUnavailable? then !f.retryable
    else !f.code.NoCode?
  }

  predicate RetryableRenewal(f: Fault) {
    if !f.isError then false
    else if f.code.ResourceExhausted? || f.code.Internal? then true
    else if f.code.ControllerUnavailable? then f.retryable
    else if f.code.Transport? then true
    else if !f.code.NoCode? then false
    else !f.canonical
  }

  predicate RetryableRead(f: Fault) {
    if !f.isError then false
    else if f.code.InvalidRequest? || f.code.UnsupportedVersion? || f.code.TargetNotFound? || f.code.TargetGone?
      || f.code.PermissionDenied? || f.code.HandoffPending? || f.code.RecoveryRequiredCode?
      || f.code.StaleOutputCursor? || f.code.OperationInDoubt? then false
    else if f.code.ResourceExhausted? || f.code.Internal? then true
    else if f.code.ControllerUnavailable? then f.retryable
    else if f.code.Transport? then true
    else !f.canonical
  }

  predicate ContinuityLost(f: Fault) {
    f.code.OperationInDoubt? || f.code.RecoveryRequiredCode? || f.code.TargetGone?
    || f.code.PermissionDenied? || f.code.ControllerUnavailable?
  }

  // ----- ownership checks

  predicate LocalKind(k: Option<OwnerKind>) { k == Some(Dashboard) || k == Some(LocalCli) }

  predicate LeaseView(target: TargetId, lease: Lease, v: View) {
    v.target == target && v.epoch == lease.epoch && v.state.Held?
    && v.ownerKind == Some(lease.owner.kind) && v.fence == lease.fence
  }

  predicate DrainingView(target: TargetId, lease: Lease, v: View) {
    v.target == target && lease.target == target && v.epoch == lease.epoch && v.fence == lease.fence
    && v.state.Draining? && v.ownerKind == Some(Feishu) && lease.owner.kind.Feishu?
    && LocalKind(v.nextOwnerKind) && v.handoffId.Some?
  }

  predicate TurnAuthority(t: Turn, lease: Lease, v: View) {
    v.target == t.target && lease.target == t.target && lease.epoch == t.epoch && v.epoch == t.epoch
    && t.lease == lease.id && t.fence == lease.fence && v.fence == lease.fence
    && (v.state.Held? || (v.state.Draining? && v.ownerKind == Some(Feishu) && LocalKind(v.nextOwnerKind) && v.handoffId.Some?))
    && v.ownerKind == Some(lease.owner.kind) && t.generation == Some(v.generation)
  }

  predicate Observed(target: TargetId, w: Watch, lease: Lease, o: Observation) {
    o.target == target && o.corr == CorrOf(w) && o.ownerKind.Feishu?
    && o.corr.epoch == lease.epoch && o.corr.lease == lease.id && o.corr.fence == lease.fence
  }

  predicate ResultMatches(target: TargetId, w: Watch, lease: Lease, r: AgentResult) {
    r.target == target && r.corr == CorrOf(w) && r.ownerKind.Feishu?
    && r.corr.epoch == lease.epoch && r.corr.lease == lease.id && r.corr.fence == lease.fence
    && w.source == Some(r.source)
  }

  predicate ChunkMatches(t: Turn, c: Chunk) {
    c.epoch == t.epoch && c.target == t.target && c.fence == t.fence && c.ownerKind.Feishu?
    && Some(c.generation) == t.generation && c.atCursor
  }
  predicate SnapshotMatches(t: Turn, s: Snapshot) {
    s.target == t.target && s.epoch == t.epoch && s.lease == t.lease && s.fence == t.fence && s.ownerKind.Feishu?
    && Some(s.generation) == t.generation
  }
  /** The handoff gave the terminal to the announced local owner. */
  predicate LocalGrant(g: Grant, target: TargetId, given: Lease, next: OwnerKind, now: Time) {
    g.lease.Some? && g.view.target == target && g.view.epoch == given.epoch && g.view.state.Held?
    && g.view.ownerKind == Some(next) && g.view.fence == g.lease.value.fence
    && g.lease.value.target == target && g.lease.value.epoch == given.epoch
    && g.lease.value.owner.kind == next && g.lease.value.expiresAt > now
  }
  predicate StillHeld(lease: Lease, v: View) {
    v.epoch == lease.epoch && v.state.Held? && v.ownerKind == Some(Feishu) && v.fence == lease.fence
  }
  predicate PassedOn(lease: Lease, next: OwnerKind, v: View) {
    v.epoch == lease.epoch && v.state.Held? && v.ownerKind == Some(next) && v.fence != lease.fence
  }

  /** The lease a grant carries when it is exactly the one asked for. */
  function Granted(g: Grant, target: TargetId, owner: Owner, draining: bool, now: Time): (r: Option<Lease>)
    ensures r.Some? ==> r.value.target == target && r.value.owner == owner && r.value.expiresAt > now
  {
    if g.lease.Some? && g.lease.value.target == target && g.view.target == target
      && g.view.epoch == g.lease.value.epoch && g.view.fence == g.lease.value.fence
      && (g.view.state.Held? || (draining && g.view.state.Draining?))
      && g.lease.value.owner == owner && g.view.ownerKind == Some(owner.kind)
      && g.lease.value.expiresAt > now
    then g.lease else None
  }

  // ----- limits

  const DEDUP_LIMIT: nat := 4096
  const TURN_HISTORY_LIMIT: nat := 256
  const REPLY_HISTORY_LIMIT: nat := 256
  const TURN_IDLE_TIMEOUT: Time := 600000
  const RENEW_GRACE: Time := 60000
  const STOP_DEBOUNCE: Time := 1000

  // ----- legal moves

  /** Where a turn may get to outside a delivery. The turn of the event being handled may come
      to wait for output; otherwise a waiting turn may get its reply. A turn at its end stays
      as it is. */
  predicate Advances(a: TurnStatus, b: TurnStatus, incoming: Option<TurnId>, id: TurnId) {
    || a == b
    || (Live(a) && (b.Cancelled? || b.RecoveryRequired?))
    || (incoming == Some(id) && a.Prepared? && b.Awaiting?)
    || (incoming.None? && a.Awaiting? && b.Replying?)
  }
  predicate SameTurn(a: Turn, b: Turn) {
    a.id == b.id && a.message == b.message && a.target == b.target && a.lease == b.lease && a.marked == b.marked
  }
  predicate Progress(incoming: Option<TurnId>, a: Turn, b: Turn) {
    SameTurn(a, b) && Advances(a.status, b.status, incoming, a.id)
  }
  /** The turn that an operation may start is the one of the event it handles. */
  predicate StartsFor(incoming: Option<TurnId>, t: Turn) {
    incoming == Some(t.id) && !t.status.Replying? && !t.status.Completed? && !t.status.TimedOut?
  }
  function TurnMove(incoming: Option<TurnId>): (Turn, Turn) -> bool { (a: Turn, b: Turn) => Progress(incoming, a, b) }
  function Born(incoming: Option<TurnId>): Turn -> bool { (t: Turn) => StartsFor(incoming, t) }

  predicate ReplyMove(a: Reply, b: Reply) {
    a.id == b.id && a.body == b.body && (a.status == b.status || (a.status.Prepared? && b.status.Uncertain?))
  }
  predicate ReplyBorn(r: Reply) { !r.status.Sent? }
}
