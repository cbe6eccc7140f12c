/** What the bridge does to the outside world, in order: file writes, terminal
    inputs, handoff commits, card sends, observations. A crash leaves a prefix of
    this history, and a restart reads the files back from it. */
module BridgeHistory {
  import opened Basics
  import opened BridgeTypes
  import opened Retention

  datatype Act =
    | WroteBindings(bindings: map<BindingId, Binding>)
    | WroteDedup(ids: seq<EventId>)
    | WroteTurns(turns: seq<Turn>)
    | WroteReplies(replies: seq<Reply>)
    | LostBindings | LostDedup | LostTurns | LostReplies          // a corrupt file was set aside
    | Woke(process: nat)                                          // a process read the files
    | Discarded(turns: seq<Turn>, dropped: seq<Reply>)            // turns and replies left the memory
    | Injected(event: EventId)                                    // terminal input issued
    | CommitIssued(binding: BindingId, handoff: Handoff)          // commitHandoff issued
    | CardSent(process: nat, reply: Reply)                        // network send issued
    | Rebound(watch: WatchId, corr: Corr, anew: bool)              // a watch, perhaps a new one, was tied to a terminal generation
    | Seen(watch: WatchId, at: Time, running: bool, source: nat)
    | Captured(watch: WatchId, at: Time, corr: Corr, result: Source)
    | RenewRetried(binding: BindingId, at: Time)
    | RenewSettled(binding: BindingId)
    | GraceExpired(binding: BindingId, at: Time)

  datatype History = Start | Then(prev: History, act: Act)

  // ----- the four files

  function DiskBindings(h: History): map<BindingId, Binding> {
    match h
    case Start => map[]
    case Then(p, a) => if a.WroteBindings? then a.bindings else if a.LostBindings? then map[] else DiskBindings(p)
  }
  function DiskEvents(h: History): seq<EventId> {
    match h
    case Start => []
    case Then(p, a) => if a.WroteDedup? then a.ids else if a.LostDedup? then [] else DiskEvents(p)
  }
  function DiskTurns(h: History): seq<Turn> {
    match h
    case Start => []
    case Then(p, a) => if a.WroteTurns? then a.turns else if a.LostTurns? then [] else DiskTurns(p)
  }
  function DiskReplies(h: History): seq<Reply> {
    match h
    case Start => []
    case Then(p, a) => if a.WroteReplies? then a.replies else if a.LostReplies? then [] else DiskReplies(p)
  }

  /** An act about one file leaves the others alone. */
  lemma OtherFiles(h: History, a: Act)
    ensures !a.WroteBindings? && !a.LostBindings? ==> DiskBindings(Then(h, a)) == DiskBindings(h)
    ensures !a.WroteDedup? && !a.LostDedup? ==> DiskEvents(Then(h, a)) == DiskEvents(h)
    ensures !a.WroteTurns? && !a.LostTurns? ==> DiskTurns(Then(h, a)) == DiskTurns(h)
    ensures !a.WroteReplies? && !a.LostReplies? ==> DiskReplies(Then(h, a)) == DiskReplies(h)
  {}

  // ----- what the history still remembers

  ghost predicate NoLive(turns: seq<Turn>, b: BindingId) {
    forall t | t in turns :: t.binding == b ==> !Live(t.status)
  }
  /** No binding has two live turns. */
  ghost predicate SingleLive(turns: seq<Turn>) {
    forall i, j | 0 <= i < j < |turns| :: Live(turns[i].status) && Live(turns[j].status) ==> turns[i].binding != turns[j].binding
  }
  ghost predicate NoDup(s: seq<EventId>) {
    forall i, j | 0 <= i < j < |s| :: s[i] != s[j]
  }
  predicate HasReply(replies: seq<Reply>, id: AttemptId) {
    id in Keys(replies, ReplyKey)
  }

  /** `e` was typed into the terminal and no stored window has dropped it since. */
  ghost predicate Typed(h: History, e: EventId) {
    match h
    case Start => false
    case Then(p, a) =>
      if a == Injected(e) then true
      else if (a.WroteDedup? && e !in a.ids) || a.LostDedup? then false
      else Typed(p, e)
  }

  /** `e` was typed into the terminal at some time. */
  ghost predicate EverTyped(h: History, e: EventId) { h.Then? && (h.act == Injected(e) || EverTyped(h.prev, e)) }

  predicate IsSend(a: Act, n: nat, id: AttemptId) { a.CardSent? && a.process == n && a.reply.id == id }

  /** Process `n` sent attempt `id` at some time. */
  ghost predicate EverSent(h: History, n: nat, id: AttemptId) {
    h.Then? && (IsSend(h.act, n, id) || EverSent(h.prev, n, id))
  }

  /** Process `n` sent attempt `id`, and its record has not left the memory since. */
  ghost predicate SentBy(h: History, n: nat, id: AttemptId) {
    match h
    case Start => false
    case Then(p, a) =>
      if IsSend(a, n, id) then true
      else if a.Discarded? && HasReply(a.dropped, id) then false
      else SentBy(p, n, id)
  }

  /** Process `n` sent the reply to turn `t`, and the event of that turn was not typed since. */
  ghost predicate Replied(h: History, n: nat, t: TurnId) {
    match h
    case Start => false
    case Then(p, a) =>
      if IsSend(a, n, ReplyTo(t)) then true
      else if a == Injected(t.event) then false
      else Replied(p, n, t)
  }

  /** Process `n` sent the reply to turn `t`, and no record of that turn has left the memory since. */
  ghost predicate AnsweredBy(h: History, n: nat, t: TurnId) {
    match h
    case Start => false
    case Then(p, a) =>
      if IsSend(a, n, ReplyTo(t)) then true
      else if a.Discarded? && t in Keys(a.turns, TurnKey) then false
      else AnsweredBy(p, n, t)
  }

  /** The payload of the latest reply to turn `t`, by any process, unless its event was typed since. */
  function Said(h: History, t: TurnId): Option<Body> {
    match h
    case Start => None
    case Then(p, a) =>
      if a.CardSent? && a.reply.id == ReplyTo(t) then Some(a.reply.body)
      else if a == Injected(t.event) then None
      else Said(p, t)
  }
  /** The replies repeat what was said. */
  ghost predicate Repeats(h: History, replies: seq<Reply>) {
    forall r | r in replies && r.id.ReplyTo? :: Said(h, r.id.turn).Some? ==> Said(h, r.id.turn).value == r.body
  }

  lemma {:induction false} SentIsEver(h: History, n: nat, id: AttemptId)
    ensures SentBy(h, n, id) ==> EverSent(h, n, id)
    ensures id.ReplyTo? && (Replied(h, n, id.turn) || AnsweredBy(h, n, id.turn)) ==> EverSent(h, n, id)
  {
    if h.Then? && !IsSend(h.act, n, id) { SentIsEver(h.prev, n, id); }
  }

  /** The turns and watches about which a notice was given. */
  datatype Noticed = Noticed(turns: set<TurnId>, watches: set<WatchId>)

  predicate Doubtful(w: Option<Watch>) { w.Some? && (w.value.status.Uncertain? || w.value.status.RecoveryRequired?) }
  function DoubtfulWatches(bindings: map<BindingId, Binding>): set<WatchId> {
    set b | b in bindings && Doubtful(bindings[b].watch) :: bindings[b].watch.value.id
  }
  /** A watch in doubt or whose card arrived: it was in doubt if a notice about it was given, and
      never gets out of here again. */
  predicate Told(s: WatchStatus) { s.Uncertain? || s.RecoveryRequired? || s.Sent? }
  ghost predicate AllTold(bindings: map<BindingId, Binding>, w: WatchId) {
    forall b | b in bindings && bindings[b].watch.Some? :: bindings[b].watch.value.id == w ==> Told(bindings[b].watch.value.status)
  }
  /** The watches that were ever tied to a terminal. */
  function BoundWatches(h: History): set<WatchId> {
    match h
    case Start => {}
    case Then(p, a) => if a.Rebound? then BoundWatches(p) + {a.watch} else BoundWatches(p)
  }
  /** A watch that a notice is about was tied to a terminal and is told about in the bindings. */
  ghost predicate NoticesFit(h: History, bindings: map<BindingId, Binding>, replies: seq<Reply>) {
    forall w | HasReply(replies, WatchNotice(w)) :: AllTold(bindings, w) && w in BoundWatches(h)
  }
  function LostTurnIds(turns: seq<Turn>): set<TurnId> { set t | t in turns && t.status.RecoveryRequired? :: t.id }

  /** The attempt is a notice about something that counts as announced, or no notice. */
  predicate Announces(g: Noticed, id: AttemptId) {
    match id
    case ReplyTo(_) => true
    case TurnNotice(t) => t in g.turns
    case WatchNotice(w) => w in g.watches
  }
  /** What counts as announced for a process that starts from these files. */
  function AnnouncedOnFile(h: History): Noticed { Noticed(LostTurnIds(DiskTurns(h)), DoubtfulWatches(DiskBindings(h))) }

  /** When process `n` started, a notice was on file that did not count as announced. */
  ghost predicate Unannounced(h: History, n: nat, id: AttemptId) {
    h.Then? && ((h.act == Woke(n) && HasReply(DiskReplies(h.prev), id) && !Announces(AnnouncedOnFile(h.prev), id)) || Unannounced(h.prev, n, id))
  }

  /** No process after `n` has sent anything. */
  ghost predicate SentUpTo(h: History, n: nat) {
    h.Then? ==> (h.act.CardSent? ==> h.act.process <= n) && SentUpTo(h.prev, n)
  }
  lemma {:induction false} SentByPast(h: History, n: nat, m: nat, id: AttemptId)
    requires SentUpTo(h, n) && EverSent(h, m, id)
    ensures m <= n
  {
    if !IsSend(h.act, m, id) { SentByPast(h.prev, n, m, id); }
  }
  lemma {:induction false} SentUpToEarlier(p: History, h: History, n: nat, m: nat)
    requires Earlier(p, h) && SentUpTo(h, n) && n <= m
    ensures SentUpTo(p, m)
    decreases h
  {
    if p != h { SentUpToEarlier(p, h.prev, n, m); }
    else if h.Then? { SentUpToEarlier(h.prev, h.prev, n, m); }
  }

  /** The payload under which `id` was last sent while stored, unless dropped since. */
  ghost function SentBody(h: History, id: AttemptId): Option<Body> {
    match h
    case Start => None
    case Then(p, a) =>
      if a.CardSent? && a.reply.id == id then (if HasReply(DiskReplies(p), id) then Some(a.reply.body) else None)
      else if (a.WroteReplies? && !HasReply(a.replies, id)) || a.LostReplies? then None
      else SentBody(p, id)
  }

  /** The agent of `w` was seen idle at `t`, and since then the watch has been neither seen
      running nor bound anew. */
  ghost predicate QuietAt(h: History, w: WatchId, t: Time) {
    match h
    case Start => false
    case Then(p, a) =>
      if (a.Seen? && a.watch == w && a.running) || (a.Rebound? && a.watch == w) then false
      else (a.Seen? && a.watch == w && a.at == t) || QuietAt(p, w, t)
  }
  /** The agent of `w` was seen running under source `s` at some time. */
  ghost predicate Ran(h: History, w: WatchId, s: nat) {
    h.Then? && ((h.act.Seen? && h.act.watch == w && h.act.running && h.act.source == s) || Ran(h.prev, w, s))
  }
  /** The source that a stored record has for a watch. */
  ghost predicate KnowsSource(bindings: map<BindingId, Binding>, w: WatchId, s: nat) {
    exists b | b in bindings :: bindings[b].watch.Some? && bindings[b].watch.value.id == w
      && bindings[b].watch.value.source.Some? && bindings[b].watch.value.source.value.id == s
  }
  ghost function StoredSource(bindings: map<BindingId, Binding>, w: WatchId): Option<nat> {
    if exists s :: KnowsSource(bindings, w, s) then var s :| KnowsSource(bindings, w, s); Some(s) else None
  }
  predicate SeesRunning(a: Act, w: WatchId) { a.Seen? && a.watch == w && a.running }

  predicate Opens(a: Act, w: WatchId) { a.Rebound? && a.watch == w && a.anew }

  /** The source of the latest running observation of a watch. */
  function LatestSeen(h: History, w: WatchId): Option<nat> {
    match h
    case Start => None
    case Then(p, a) => if SeesRunning(a, w) then Some(a.source) else if Opens(a, w) then None else LatestSeen(p, w)
  }
  /** Writing files ties no watch. */
  lemma {:induction false} WritesBindNothing(p: History, h: History)
    requires OnlyWrites(p, h)
    ensures BoundWatches(h) == BoundWatches(p)
  {
    if p != h { WritesBindNothing(p, h.prev); }
  }
  /** Writing files shows nothing of the agents. */
  lemma {:induction false} WritesSeeNothing(p: History, h: History, w: WatchId)
    requires OnlyWrites(p, h)
    ensures LatestSeen(h, w) == LatestSeen(p, w)
  {
    if p != h { WritesSeeNothing(p, h.prev, w); }
  }
  /** The source of the latest running observation since the process started, or else the one
      on file when it did. */
  ghost function Remembered(h: History, w: WatchId): Option<nat> {
    match h
    case Start => None
    case Then(p, a) =>
      if SeesRunning(a, w) then Some(a.source)
      else if Opens(a, w) then None
      else if a.Woke? then StoredSource(DiskBindings(p), w)
      else Remembered(p, w)
  }
  /** The result of `w` under this generation and source was captured at some time. */
  ghost predicate WasCaptured(h: History, w: WatchId, corr: Corr, source: Source) {
    h.Then? && ((h.act.Captured? && h.act.watch == w && h.act.corr == corr && h.act.result == source)
                || WasCaptured(h.prev, w, corr, source))
  }
  /** A watch knows a source only from a running observation, and is sending only
      what was captured. */
  ghost predicate WatchEvidence(h: History, w: Watch) {
    && w.id in BoundWatches(h)
    && (w.source.Some? ==> Ran(h, w.id, w.source.value.id))
    && (w.status.Sending? ==> w.source.Some? && WasCaptured(h, w.id, CorrOf(w), w.source.value))
  }
  /** The watches have the sources that the process remembers. */
  ghost predicate Recalled(h: History, bindings: map<BindingId, Binding>) {
    forall b | b in bindings && bindings[b].watch.Some? :: Recalls(h, bindings[b].watch.value)
  }
  ghost predicate Recalls(h: History, w: Watch) { Remembered(h, w.id) == SourceId(w) }
  function SourceId(w: Watch): Option<nat> { if w.source.Some? then Some(w.source.value.id) else None }
  ghost predicate Evidenced(h: History, bindings: map<BindingId, Binding>) {
    forall b | b in bindings && bindings[b].watch.Some? :: WatchEvidence(h, bindings[b].watch.value)
  }
  ghost predicate ChatsDistinct(bindings: map<BindingId, Binding>) {
    forall a, b | a in bindings && b in bindings && a != b :: bindings[a].chat != bindings[b].chat
  }
  ghost predicate WatchesDistinct(bindings: map<BindingId, Binding>) {
    forall a, b | a in bindings && b in bindings && a != b ::
      bindings[a].watch.Some? && bindings[b].watch.Some? ==> bindings[a].watch.value.id != bindings[b].watch.value.id
  }
  function LastBound(h: History, w: WatchId): Option<Corr> {
    match h
    case Start => None
    case Then(p, a) => if a.Rebound? && a.watch == w then Some(a.corr) else LastBound(p, w)
  }

  /** A renewal of `b` failed in transport at `t` and no verdict has settled since. */
  ghost predicate RetriedAt(h: History, b: BindingId, t: Time) {
    match h
    case Start => false
    case Then(p, a) =>
      if a == RenewSettled(b) then false else a == RenewRetried(b, t) || RetriedAt(p, b, t)
  }

  // ----- which act may follow which history

  ghost predicate CommitCovered(p: History, b: BindingId, k: Handoff) {
    && b in DiskBindings(p)
    && k.status == HandoffStatus.Prepared
    && DiskBindings(p)[b].handoff == Some(k)
    && (k.role.Current? ==> NoLive(DiskTurns(p), b) && !ActiveWatch(DiskBindings(p)[b].watch))
  }

  ghost predicate CaptureCovered(p: History, w: WatchId, at: Time, corr: Corr, source: Source) {
    && QuietAt(p, w, at)
    && (exists t :: QuietAt(p, w, t) && at - t >= STOP_DEBOUNCE)
    && LastBound(p, w) == Some(corr)
    && Remembered(p, w) == Some(source.id)
    && Ran(p, w, source.id)
  }

  /** A turn that waits for output or for its reply had its input typed. */
  ghost predicate TurnsTyped(h: History, turns: seq<Turn>) {
    forall t | t in turns :: t.status.Awaiting? || t.status.Replying? ==> EverTyped(h, t.id.event)
  }
  /** The payload of a reply names the turn that the attempt answers. */
  ghost predicate BodiesFit(replies: seq<Reply>) {
    forall r | r in replies && !r.body.Legacy? :: r.body.TurnReply? == r.id.ReplyTo? && (r.body.TurnReply? ==> r.id == ReplyTo(r.body.turn))
  }
  /** A reply goes out once for each input of its event and each record of its turn; a notice about
      a turn once, unless it was on file unannounced when the process started; a notice about a
      watch once. */
  ghost predicate SendsOnce(p: History, n: nat, id: AttemptId) {
    match id
    case ReplyTo(t) => EverTyped(p, t.event) && !Replied(p, n, t) && !AnsweredBy(p, n, t)
    case TurnNotice(_) => EverSent(p, n, id) ==> Unannounced(p, n, id)
    case WatchNotice(_) => !EverSent(p, n, id)
  }

  ghost predicate MayFollow(p: History, a: Act) {
    match a
    case WroteBindings(bindings) => ChatsDistinct(bindings) && WatchesDistinct(bindings) && Evidenced(p, bindings) && Recalled(p, bindings)
      && NoticesFit(p, bindings, DiskReplies(p))
    case WroteDedup(ids) => NoDup(ids) && forall e | e in DiskEvents(p) :: e in ids || |ids| == DEDUP_LIMIT
    case WroteTurns(turns) => SingleLive(turns) && TurnsTyped(p, turns)
    case WroteReplies(replies) =>
      && Unique(replies, ReplyKey) && BodiesFit(replies) && NoticesFit(p, DiskBindings(p), replies)
      && Repeats(p, replies)
      && forall r | r in replies :: SentBody(p, r.id).Some? ==> SentBody(p, r.id).value == r.body
    case Injected(e) => e in DiskEvents(p) && !Typed(p, e)
    case CommitIssued(b, k) => CommitCovered(p, b, k)
    case CardSent(n, r) =>
      && r.status == ReplyStatus.Prepared && !r.body.Legacy?
      && !SentBy(p, n, r.id)
      && SendsOnce(p, n, r.id) && Repeats(p, [r])
      && (forall d | d in DiskReplies(p) && d.id == r.id :: d.body == r.body)
      && (SentBody(p, r.id).Some? ==> SentBody(p, r.id).value == r.body)
    case Discarded(_, dropped) => forall r | r in dropped :: r.status != ReplyStatus.Prepared
    case Rebound(w, _, anew) => anew ==> w !in BoundWatches(p)
    case Captured(w, at, corr, source) => CaptureCovered(p, w, at, corr, source)
    case GraceExpired(b, at) => exists t :: RetriedAt(p, b, t) && at - t >= RENEW_GRACE
    case _ => true
  }

  /** Every act of the history was allowed when it happened; closed under prefixes. */
  ghost predicate Lawful(h: History) {
    match h
    case Start => true
    case Then(p, a) => Lawful(p) && MayFollow(p, a)
  }

  /** `p` is an earlier point of `h`. */
  ghost predicate Earlier(p: History, h: History) {
    p == h || (h.Then? && Earlier(p, h.prev))
  }

  lemma {:induction false} LawfulEarlier(p: History, h: History)
    requires Lawful(h) && Earlier(p, h)
    ensures Lawful(p)
  {
    if p != h { LawfulEarlier(p, h.prev); }
  }

  lemma {:induction false} EarlierTrans(a: History, b: History, c: History)
    requires Earlier(a, b) && Earlier(b, c)
    ensures Earlier(a, c)
  {
    if b != c { EarlierTrans(a, b, c.prev); }
  }

  predicate IsWrite(a: Act) { a.WroteBindings? || a.WroteDedup? || a.WroteTurns? || a.WroteReplies? || a.Discarded? }

  /** Only file writes, and trims of the memory after them, lie between `p` and `h`. */
  ghost predicate OnlyWrites(p: History, h: History) {
    p == h || (h.Then? && IsWrite(h.act) && OnlyWrites(p, h.prev))
  }

  lemma {:induction false} WritesTrans(a: History, b: History, c: History)
    requires OnlyWrites(a, b) && OnlyWrites(b, c)
    ensures OnlyWrites(a, c)
  {
    if b != c { WritesTrans(a, b, c.prev); }
  }

  /** Writing files types nothing. */
  lemma {:induction false} WritesTypeNothing(p: History, h: History, e: EventId)
    requires OnlyWrites(p, h) && Typed(h, e)
    ensures Typed(p, e)
  {
    if p != h { WritesTypeNothing(p, h.prev, e); }
  }

  lemma {:induction false} TypedIsStored(h: History, e: EventId)
    requires Lawful(h) && Typed(h, e)
    ensures e in DiskEvents(h)
  {
    if h.Then? && h.act != Injected(e) { TypedIsStored(h.prev, e); }
  }

  lemma {:induction false} SentIsStored(h: History, id: AttemptId)
    requires Lawful(h) && SentBody(h, id).Some?
    ensures HasReply(DiskReplies(h), id)
    ensures forall d | d in DiskReplies(h) && d.id == id :: d.body == SentBody(h, id).value
  {
    if h.Then? && !(h.act.CardSent? && h.act.reply.id == id) && !h.act.WroteReplies? { SentIsStored(h.prev, id); }
  }

  /** Whatever the files hold after a crash is fit to be loaded. */
  lemma {:induction false} DiskFit(h: History)
    requires Lawful(h)
    ensures SingleLive(DiskTurns(h)) && Unique(DiskReplies(h), ReplyKey) && NoDup(DiskEvents(h))
    ensures ChatsDistinct(DiskBindings(h)) && WatchesDistinct(DiskBindings(h)) && Evidenced(h, DiskBindings(h))
    ensures TurnsTyped(h, DiskTurns(h)) && BodiesFit(DiskReplies(h)) && NoticesFit(h, DiskBindings(h), DiskReplies(h))
  {
    if h.Then? {
      DiskFit(h.prev);
      assert !h.act.WroteBindings? && !h.act.LostBindings? ==> DiskBindings(h) == DiskBindings(h.prev);
    }
  }

  // ----- what a lawful history rules out

  /** Every act of a lawful history was allowed where it happened. */
  lemma {:induction false} LawfulAt(h: History, p: History, a: Act)
    requires Lawful(h) && Earlier(Then(p, a), h)
    ensures MayFollow(p, a)
  {
    if h != Then(p, a) { LawfulAt(h.prev, p, a); }
  }

  /** After `p`, the stored window of 4096 distinct ids left `e` out, or the file was lost. */
  ghost predicate Forgotten(p: History, h: History, e: EventId) {
    h != p && h.Then? &&
      (h.act.LostDedup?
       || (h.act.WroteDedup? && e !in h.act.ids && NoDup(h.act.ids) && |h.act.ids| == DEDUP_LIMIT)
       || Forgotten(p, h.prev, e))
  }

  lemma {:induction false} TypedUnlessForgotten(h: History, p: History, e: EventId)
    requires Lawful(h) && Earlier(Then(p, Injected(e)), h) && !Typed(h, e)
    ensures Forgotten(Then(p, Injected(e)), h, e)
  {
    var q := h.prev;
    if !Typed(q, e) {
      TypedUnlessForgotten(q, p, e);
    } else {
      TypedIsStored(q, e);
    }
  }

  /** At most one input per event: a second one comes only after the id fell out of the
      stored window, or that file was lost. Each comes after its id was stored. */
  lemma {:induction false} InjectedAtMostOnce(h: History, p: History, q: History, e: EventId)
    requires Lawful(h) && Earlier(Then(q, Injected(e)), h) && Earlier(Then(p, Injected(e)), q)
    ensures Forgotten(Then(p, Injected(e)), q, e)
    ensures e in DiskEvents(p) && e in DiskEvents(q)
  {
    LawfulAt(h, q, Injected(e));
    EarlierTrans(q, Then(q, Injected(e)), h);
    LawfulEarlier(q, h);
    LawfulAt(q, p, Injected(e));
    TypedUnlessForgotten(q, p, e);
  }

  /** After `p`, a stored reply file left `id` out, or the file was lost. */
  ghost predicate Dropped(p: History, h: History, id: AttemptId) {
    h != p && h.Then? &&
      (h.act.LostReplies? || (h.act.WroteReplies? && !HasReply(h.act.replies, id)) || Dropped(p, h.prev, id))
  }
  /** After `p`, the settled record of `id` left the memory. */
  ghost predicate Expired(p: History, h: History, id: AttemptId) {
    h != p && h.Then? &&
      ((h.act.Discarded? && exists r | r in h.act.dropped :: r.id == id && r.status != ReplyStatus.Prepared) || Expired(p, h.prev, id))
  }
  /** After `p`, the event was typed; `m` is that moment. */
  ghost predicate TypedAgain(p: History, m: History, h: History, e: EventId) {
    Earlier(p, m) && Earlier(Then(m, Injected(e)), h)
  }

  /** After `p`, the record of turn `t` left the memory. */
  ghost predicate TurnLeft(p: History, h: History, t: TurnId) {
    h != p && h.Then? && ((h.act.Discarded? && t in Keys(h.act.turns, TurnKey)) || TurnLeft(p, h.prev, t))
  }
  lemma {:induction false} AnsweredUnlessLeft(h: History, p: History, n: nat, r: Reply)
    requires r.id.ReplyTo? && Earlier(Then(p, CardSent(n, r)), h) && !TurnLeft(Then(p, CardSent(n, r)), h, r.id.turn)
    ensures AnsweredBy(h, n, r.id.turn)
  {
    if h != Then(p, CardSent(n, r)) { AnsweredUnlessLeft(h.prev, p, n, r); }
  }

  lemma {:induction false} SentUnlessExpired(h: History, p: History, n: nat, r: Reply)
    requires Lawful(h) && Earlier(Then(p, CardSent(n, r)), h) && !Expired(Then(p, CardSent(n, r)), h, r.id)
    ensures SentBy(h, n, r.id)
  {
    if h != Then(p, CardSent(n, r)) { SentUnlessExpired(h.prev, p, n, r); }
  }
  lemma {:induction false} RepliedUnlessTyped(h: History, p: History, n: nat, r: Reply) returns (m: History)
    requires r.id.ReplyTo? && Earlier(Then(p, CardSent(n, r)), h) && !Replied(h, n, r.id.turn)
    ensures TypedAgain(Then(p, CardSent(n, r)), m, h, r.id.turn.event)
  {
    if h.act == Injected(r.id.turn.event) { m := h.prev; } else { m := RepliedUnlessTyped(h.prev, p, n, r); }
  }
  lemma {:induction false} EverSentSince(h: History, p: History, n: nat, r: Reply)
    requires Earlier(Then(p, CardSent(n, r)), h)
    ensures EverSent(h, n, r.id)
  {
    if h != Then(p, CardSent(n, r)) { EverSentSince(h.prev, p, n, r); }
  }
  lemma {:induction false} EverTypedWhere(h: History, e: EventId) returns (m: History)
    requires EverTyped(h, e)
    ensures Earlier(Then(m, Injected(e)), h)
  {
    if h.act == Injected(e) { m := h.prev; } else { m := EverTypedWhere(h.prev, e); }
  }

  /** One process sends an attempt a second time only after its settled record has left the
      memory, and a notice about a watch never. A second reply is preceded by a new input of its
      event, which comes after the event's id had fallen out of the stored window since the input
      before the first send, and by the turn's own record leaving the memory; a second notice about
      a turn was on file, unannounced, when the process started. */
  lemma {:induction false} SentOncePerProcess(h: History, p: History, q: History, n: nat, r: Reply, r': Reply)
    requires Lawful(h) && r.id == r'.id
    requires Earlier(Then(q, CardSent(n, r')), h) && Earlier(Then(p, CardSent(n, r)), q)
    ensures Expired(Then(p, CardSent(n, r)), q, r.id) && !r.id.WatchNotice?
    ensures r.id.ReplyTo? ==> TurnLeft(Then(p, CardSent(n, r)), q, r.id.turn) && exists first, again ::
      && Earlier(Then(first, Injected(r.id.turn.event)), p)
      && TypedAgain(Then(p, CardSent(n, r)), again, q, r.id.turn.event)
      && Forgotten(Then(first, Injected(r.id.turn.event)), again, r.id.turn.event)
    ensures r.id.TurnNotice? ==> Unannounced(q, n, r.id)
  {
    LawfulAt(h, q, CardSent(n, r'));
    EarlierTrans(q, Then(q, CardSent(n, r')), h);
    LawfulEarlier(q, h);
    if !Expired(Then(p, CardSent(n, r)), q, r.id) { SentUnlessExpired(q, p, n, r); }
    EverSentSince(q, p, n, r);
    if r.id.ReplyTo? {
      var e := r.id.turn.event;
      if !TurnLeft(Then(p, CardSent(n, r)), q, r.id.turn) { AnsweredUnlessLeft(q, p, n, r); }
      LawfulAt(q, p, CardSent(n, r));
      var again := RepliedUnlessTyped(q, p, n, r);
      var first := EverTypedWhere(p, e);
      EarlierTrans(Then(first, Injected(e)), p, Then(p, CardSent(n, r)));
      EarlierTrans(Then(first, Injected(e)), Then(p, CardSent(n, r)), again);
      InjectedAtMostOnce(q, first, again, e);
    }
  }

  lemma {:induction false} BodyUnlessDropped(h: History, p: History, n: nat, r: Reply)
    requires Lawful(h) && Earlier(Then(p, CardSent(n, r)), h) && !Dropped(Then(p, CardSent(n, r)), h, r.id)
    requires HasReply(DiskReplies(p), r.id)
    ensures SentBody(h, r.id) == Some(r.body)
  {
    if h != Then(p, CardSent(n, r)) {
      BodyUnlessDropped(h.prev, p, n, r);
      if h.act.CardSent? && h.act.reply.id == r.id { SentIsStored(h.prev, r.id); }
    }
  }

  /** Every later send of an attempt that stayed on file carries the identical payload,
      whichever process makes it. */
  lemma {:induction false} ResentUnchanged(h: History, p: History, q: History, n: nat, r: Reply, m: nat, r': Reply)
    requires Lawful(h) && r.id == r'.id && HasReply(DiskReplies(p), r.id)
    requires Earlier(Then(q, CardSent(m, r')), h) && Earlier(Then(p, CardSent(n, r)), q)
    requires !Dropped(Then(p, CardSent(n, r)), q, r.id)
    ensures r'.body == r.body
  {
    LawfulAt(h, q, CardSent(m, r'));
    EarlierTrans(q, Then(q, CardSent(m, r')), h);
    LawfulEarlier(q, h);
    BodyUnlessDropped(q, p, n, r);
  }

  lemma {:induction false} FilesRepeat(h: History)
    requires Lawful(h)
    ensures Repeats(h, DiskReplies(h))
  {
    if h.Then? {
      FilesRepeat(h.prev);
      OtherFiles(h.prev, h.act);
    }
  }
  lemma {:induction false} SaidUnlessTyped(h: History, p: History, n: nat, r: Reply) returns (m: History)
    requires Lawful(h) && r.id.ReplyTo? && Earlier(Then(p, CardSent(n, r)), h)
    ensures Said(h, r.id.turn) == Some(r.body) || TypedAgain(Then(p, CardSent(n, r)), m, h, r.id.turn.event)
  {
    m := h;
    if h != Then(p, CardSent(n, r)) {
      if h.act == Injected(r.id.turn.event) {
        m := h.prev;
      } else {
        m := SaidUnlessTyped(h.prev, p, n, r);
        if h.act.CardSent? && h.act.reply.id == r.id && Said(h.prev, r.id.turn) == Some(r.body) {
          assert h.act.reply in [h.act.reply];
        }
      }
    }
  }

  /** A reply to a turn that is sent again, by whichever process and whatever became of its record,
      has the identical payload, unless the event of the turn was typed again in between. */
  lemma {:induction false} OtherPayloadNeedsInput(h: History, p: History, q: History, n: nat, r: Reply, m: nat,
                                                  r': Reply)
    requires Lawful(h) && r.id == r'.id && r.id.ReplyTo?
    requires Earlier(Then(q, CardSent(m, r')), h) && Earlier(Then(p, CardSent(n, r)), q)
    ensures r'.body != r.body ==> exists again :: TypedAgain(Then(p, CardSent(n, r)), again, q, r.id.turn.event)
  {
    LawfulAt(h, q, CardSent(m, r'));
    EarlierTrans(q, Then(q, CardSent(m, r')), h);
    LawfulEarlier(q, h);
    var again := SaidUnlessTyped(q, p, n, r);
    assert r' in [r'];
  }

  /** Every commit is asked for only when the very same prepared record is on file, and where
      Feishu gives the terminal up, with no live turn and no active watch on file. */
  lemma {:induction false} CommitsCovered(h: History, p: History, b: BindingId, k: Handoff)
    requires Lawful(h) && Earlier(Then(p, CommitIssued(b, k)), h)
    ensures b in DiskBindings(p) && DiskBindings(p)[b].handoff == Some(k) && k.status == HandoffStatus.Prepared
    ensures k.role.Current? ==> NoLive(DiskTurns(p), b) && !ActiveWatch(DiskBindings(p)[b].watch)
  {
    LawfulAt(h, p, CommitIssued(b, k));
  }

  /** What the files have for a watch is older than what was seen last: they lack the watch, or
      were written by a process that remembered less, or its agent was seen running under another
      source since they were. */
  ghost predicate FileBehind(h: History, w: WatchId) {
    match h
    case Start => false
    case Then(p, a) =>
      if a.WroteBindings? && (exists s :: KnowsSource(a.bindings, w, s)) then Overtaken(p, w)
      else if a.WroteBindings? || a.LostBindings? then LatestSeen(p, w).Some?
      else if SeesRunning(a, w) then StoredSource(DiskBindings(p), w) != Some(a.source)
      else if Opens(a, w) then StoredSource(DiskBindings(p), w).Some?
      else FileBehind(p, w)
  }
  /** The process started from a file that was behind, and has not seen the agent running. */
  ghost predicate Overtaken(h: History, w: WatchId) {
    match h
    case Start => false
    case Then(p, a) => if SeesRunning(a, w) || Opens(a, w) then false else if a.Woke? then FileBehind(p, w) else Overtaken(p, w)
  }

  lemma {:induction false} OvertakenExactly(h: History, w: WatchId)
    requires Lawful(h)
    ensures Remembered(h, w) == LatestSeen(h, w) <==> !Overtaken(h, w)
    ensures StoredSource(DiskBindings(h), w) == LatestSeen(h, w) <==> !FileBehind(h, w)
  {
    if h.Then? {
      OvertakenExactly(h.prev, w);
      var a := h.act;
      if a.WroteBindings? && (exists s :: KnowsSource(a.bindings, w, s)) {
        var s :| StoredSource(a.bindings, w) == Some(s) && KnowsSource(a.bindings, w, s);
        var b :| b in a.bindings && a.bindings[b].watch.Some? && a.bindings[b].watch.value.id == w
          && a.bindings[b].watch.value.source.Some? && a.bindings[b].watch.value.source.value.id == s;
        assert Recalls(h.prev, a.bindings[b].watch.value);
      }
    }
  }

  /** A captured result belongs to the generation the watch was last bound to, after two idle
      looks at least a second apart with no running one between. Its source is one under which
      the agent was seen running: the latest one, exactly unless the process started from a file
      that was behind and has not seen the agent running since. */
  lemma {:induction false} CapturesCovered(h: History, p: History, w: WatchId, at: Time, corr: Corr, source: Source)
    requires Lawful(h) && Earlier(Then(p, Captured(w, at, corr, source)), h)
    ensures LastBound(p, w) == Some(corr) && Remembered(p, w) == Some(source.id) && Ran(p, w, source.id)
    ensures LatestSeen(p, w) == Some(source.id) <==> !Overtaken(p, w)
    ensures exists t :: QuietAt(p, w, t) && QuietAt(p, w, at) && at - t >= STOP_DEBOUNCE
  {
    LawfulAt(h, p, Captured(w, at, corr, source));
    EarlierTrans(p, Then(p, Captured(w, at, corr, source)), h);
    LawfulEarlier(p, h);
    OvertakenExactly(p, w);
  }

  /** A lease is given up for transport failures only a minute after one that no verdict
      has settled since. */
  lemma {:induction false} GraceKept(h: History, p: History, b: BindingId, at: Time)
    requires Lawful(h) && Earlier(Then(p, GraceExpired(b, at)), h)
    ensures exists t :: RetriedAt(p, b, t) && at - t >= RENEW_GRACE
  {
    LawfulAt(h, p, GraceExpired(b, at));
  }
}
