/** What the fields of the bridge promise each other and the history, and how single
    changes keep it. */
module BridgeInvariant {
  import opened Basics
  import opened BridgeTypes
  import opened BridgeHistory
  import opened Lineage
  import opened Retention

  // ----- what the fields promise each other

  ghost predicate LeasesFit(bindings: map<BindingId, Binding>, leases: map<BindingId, Lease>, process: nat) {
    forall b | b in leases ::
      && b in bindings
      && leases[b].target == bindings[b].target
      && leases[b].owner == Owner(Feishu, ForBinding(b, process))
  }
  /** What a watch remembers is what the history shows. */
  ghost predicate Tracked(h: History, w: Watch) {
    && LastBound(h, w.id) == Some(CorrOf(w))
    && (w.stopAt.Some? ==> QuietAt(h, w.id, w.stopAt.value))
  }
  predicate Owning(s: BindingStatus) { s.Active? || s.Pausing? }
  ghost predicate BindingTracked(h: History, b: Binding) {
    Owning(b.status) && ActiveWatch(b.watch) ==> Tracked(h, b.watch.value)
  }
  ghost predicate WatchesTracked(h: History, bindings: map<BindingId, Binding>) {
    forall b | b in bindings :: BindingTracked(h, bindings[b])
  }
  ghost predicate FailuresTracked(h: History, failures: map<BindingId, Time>) {
    forall b | b in failures :: RetriedAt(h, b, failures[b])
  }
  ghost predicate EventsStored(h: History, events: seq<EventId>) {
    forall e | e in DiskEvents(h) :: e in events
  }
  ghost predicate RepliesStored(h: History, replies: seq<Reply>) {
    forall d | d in DiskReplies(h) :: HasReply(replies, d.id) && forall r | r in replies :: r.id == d.id ==> r.body == d.body
  }
  ghost predicate SendsTracked(h: History, process: nat, replies: seq<Reply>, inFlight: set<AttemptId>) {
    && (forall id | SentBy(h, process, id) ::
          HasReply(replies, id) && forall r | r in replies && r.id == id :: id in inFlight || r.status != ReplyStatus.Prepared)
    && SentUpTo(h, process)
  }
  /** The process has not used up its one send of the attempt. */
  ghost predicate Unspent(h: History, process: nat, id: AttemptId) {
    match id
    case ReplyTo(t) => !Replied(h, process, t)
    case TurnNotice(_) => EverSent(h, process, id) ==> Unannounced(h, process, id)
    case WatchNotice(_) => !EverSent(h, process, id)
  }
  /** The turn has its reply: its first record is past waiting, and while it is replying the reply
      is on its way or settled. */
  predicate Served(w: Work, t: TurnId) {
    var i := FindTurn(w.turns, t);
    && i.Some? && !w.turns[i.value].status.Prepared? && !w.turns[i.value].status.Awaiting?
    && (w.turns[i.value].status.Replying? ==> ReplyTo(t) in w.inFlight || forall r | r in w.replies :: r.id == ReplyTo(t) ==> !r.status.Prepared?)
  }
  /** Replies answer turns whose input was typed and not yet answered, and notices announce
      what was not announced before. */
  ghost predicate AnswersTracked(h: History, process: nat, w: Work) {
    && TurnsTyped(h, w.turns)
    && BodiesFit(w.replies)
    && (forall t | t in w.turns && t.status.Awaiting? :: !Replied(h, process, t.id) && Said(h, t.id).None?)
    && Repeats(h, w.replies)
    && (forall r | r in w.replies && r.status == ReplyStatus.Prepared && r.id !in w.inFlight :: Unspent(h, process, r.id))
    && (forall r | r in w.replies && !Announces(w.noticed, r.id) :: Unannounced(h, process, r.id))
    && (forall id | EverSent(h, process, id) && !Announces(w.noticed, id) :: Unannounced(h, process, id))
    && (forall t | AnsweredBy(h, process, t) :: Served(w, t))
  }
  /** Every active binding holds a lease. */
  ghost predicate Backed(bindings: map<BindingId, Binding>, leases: map<BindingId, Lease>) {
    forall b | b in bindings :: bindings[b].status.Active? ==> b in leases
  }

  lemma BackedStill(bindings: map<BindingId, Binding>, leases: map<BindingId, Lease>,
                    bindings': map<BindingId, Binding>, leases': map<BindingId, Lease>, b: BindingId)
    requires bindings - {b} == bindings' - {b} && leases - {b} == leases' - {b}
    requires b in bindings' && bindings'[b].status.Active? ==> b in leases'
    ensures Backed(bindings, leases) ==> Backed(bindings', leases')
  {
    if Backed(bindings, leases) {
      forall c | c in bindings' && bindings'[c].status.Active? ensures c in leases' {
        if c != b {
          assert c in bindings' - {b};
          assert c in bindings && bindings[c] == (bindings' - {b})[c] by { assert c in bindings - {b}; }
          assert c in leases - {b};
        }
      }
    }
  }

  /** An active watch brought to its end. */
  function Ended(w: Option<Watch>, status: WatchStatus): (r: Option<Watch>)
    ensures r.Some? <==> w.Some?
    ensures r.Some? ==> r.value.id == w.value.id && r.value.source == w.value.source
    ensures !status.Probing? && !status.Armed? && !status.StopCandidate? && !status.Sending? ==> !ActiveWatch(r)
  {
    if ActiveWatch(w) then Some(w.value.(status := status)) else w
  }

  /** The first live turn of a binding, as an index into the turns. */
  function ActiveTurn(turns: seq<Turn>, b: BindingId): (r: Option<nat>)
    ensures r.None? ==> NoLive(turns, b)
    ensures r.Some? ==> r.value < |turns| && turns[r.value].binding == b && Live(turns[r.value].status)
  {
    if turns == [] then None
    else if turns[0].binding == b && Live(turns[0].status) then Some(0)
    else
      var rest := ActiveTurn(turns[1..], b);
      assert turns == [turns[0]] + turns[1..];
      if rest.Some? then Some(rest.value + 1) else None
  }

  function FindTurn(turns: seq<Turn>, id: TurnId): (r: Option<nat>)
    ensures r.Some? ==> r.value < |turns| && turns[r.value].id == id && forall k | 0 <= k < r.value :: turns[k].id != id
    ensures r.None? ==> forall t | t in turns :: t.id != id
  {
    if turns == [] then None
    else if turns[0].id == id then Some(0)
    else
      var rest := FindTurn(turns[1..], id);
      assert turns == [turns[0]] + turns[1..];
      if rest.Some? then Some(rest.value + 1) else None
  }
  /** The turn that a reply would finish: the first of its id, if it is replying. */
  function Answered(turns: seq<Turn>, body: Body): (r: Option<nat>)
    ensures r.Some? ==>
      r.value < |turns| && turns[r.value].status.Replying? && body.TurnReply? && turns[r.value].id == body.turn
  {
    if body.TurnReply? && FindTurn(turns, body.turn).Some? && turns[FindTurn(turns, body.turn).value].status.Replying?
    then FindTurn(turns, body.turn) else None
  }

  lemma {:induction false} FindTurnSet(turns: seq<Turn>, i: nat, t: Turn, id: TurnId)
    requires i < |turns| && turns[i].id == t.id
    ensures FindTurn(turns[i := t], id) == FindTurn(turns, id)
  {
    if turns[0].id != id {
      var rest := turns[1..];
      if i == 0 {
        assert turns[i := t][1..] == rest;
      } else {
        assert turns[i := t][1..] == rest[i - 1 := t];
        FindTurnSet(rest, i - 1, t, id);
      }
    }
  }
  lemma {:induction false} FindTurnPushed(turns: seq<Turn>, t: Turn, id: TurnId)
    requires FindTurn(turns, id).Some?
    ensures FindTurn(turns + [t], id) == FindTurn(turns, id)
  {
    if turns[0].id != id {
      assert (turns + [t])[1..] == turns[1..] + [t];
      FindTurnPushed(turns[1..], t, id);
    }
  }
  /** Picking by ids keeps the first record of each id it keeps. */
  lemma {:induction false} FindTurnPicked(turns: seq<Turn>, keys: set<TurnId>, id: TurnId)
    requires id in keys && FindTurn(turns, id).Some?
    ensures var kept := Pick(turns, keys, TurnKey);
      FindTurn(kept, id).Some? && kept[FindTurn(kept, id).value] == turns[FindTurn(turns, id).value]
  {
    var kept, rest := Pick(turns, keys, TurnKey), Pick(turns[1..], keys, TurnKey);
    if turns[0].id != id {
      FindTurnPicked(turns[1..], keys, id);
      if TurnKey(turns[0]) in keys { assert kept[1..] == rest; } else { assert kept == rest; }
    } else {
      assert kept[0] == turns[0];
    }
  }

  lemma EndsLast(turns: seq<Turn>, i: nat, t: Turn)
    requires SingleLive(turns) && i < |turns| && Live(turns[i].status) && !Live(t.status)
      && t.binding == turns[i].binding
    ensures NoLive(turns[i := t], t.binding)
  {
    forall u | u in turns[i := t] && u.binding == t.binding ensures !Live(u.status) {
      var j :| 0 <= j < |turns| && turns[i := t][j] == u;
      if j < i { assert turns[j].binding != turns[i].binding || !Live(turns[j].status); }
      if j > i { assert turns[j].binding != turns[i].binding || !Live(turns[j].status); }
    }
  }

  lemma {:induction false} PickKeepsOrder<T(!new), K(!new)>(items: seq<T>, keys: set<K>, keyOf: T -> K,
                                                           step: (T, T) -> bool, born: T -> bool)
    requires Orderly(step, born)
    ensures Evolves(items, Pick(items, keys, keyOf), step, born)
  {
    if items != [] {
      PickKeepsOrder(items[1..], keys, keyOf, step, born);
      var rest := Pick(items[1..], keys, keyOf);
      assert ([items[0]] + rest)[1..] == rest && [] + rest == rest;
    }
  }

  lemma {:induction false} PickSingleLive(turns: seq<Turn>, keys: set<TurnId>)
    requires SingleLive(turns)
    ensures SingleLive(Pick(turns, keys, TurnKey))
  {
    if turns != [] {
      var rest, all := Pick(turns[1..], keys, TurnKey), Pick(turns, keys, TurnKey);
      forall i, j | 0 <= i < j < |turns[1..]| && Live(turns[1..][i].status) && Live(turns[1..][j].status)
        ensures turns[1..][i].binding != turns[1..][j].binding {
        assert turns[1..][i] == turns[i + 1] && turns[1..][j] == turns[j + 1];
      }
      PickSingleLive(turns[1..], keys);
      PickMembers(turns[1..], keys, TurnKey);
      if TurnKey(turns[0]) in keys {
        forall i, j | 0 <= i < j < |all| && Live(all[i].status) && Live(all[j].status) ensures all[i].binding != all[j].binding {
          if i == 0 {
            assert all[j] in rest;
            var k :| 0 <= k < |turns[1..]| && turns[1..][k] == all[j];
            assert turns[k + 1] == all[j];
          } else {
            assert all[i] == rest[i - 1] && all[j] == rest[j - 1];
          }
        }
      }
    }
  }

  lemma TailMembers<T(!new)>(s: seq<T>, n: nat)
    ensures forall x | x in Tail(s, n) :: x in s
  {
    forall x | x in Tail(s, n) ensures x in s {
      var i :| 0 <= i < |Tail(s, n)| && Tail(s, n)[i] == x;
      TailAt(s, n, i);
    }
  }

  lemma TailKeepsLast<T(!new)>(s: seq<T>, n: nat)
    requires 0 < n
    ensures s != [] ==> s[|s| - 1] in Tail(s, n)
  {
    if s != [] { assert Tail(s, n)[|Tail(s, n)| - 1] == s[|s| - 1]; }
  }

  lemma TailSingleLive(turns: seq<Turn>, n: nat)
    requires SingleLive(turns)
    ensures SingleLive(Tail(turns, n)) && forall t | t in Tail(turns, n) :: t in turns
  {
    TailMembers(turns, n);
    var t := Tail(turns, n);
    forall i, j | 0 <= i < j < |t| && Live(t[i].status) && Live(t[j].status) ensures t[i].binding != t[j].binding {
      TailAt(turns, n, i);
      TailAt(turns, n, j);
    }
  }

  lemma TailNoDup(events: seq<EventId>, n: nat)
    requires NoDup(events)
    ensures NoDup(Tail(events, n)) && forall e | e in Tail(events, n) :: e in events
  {
    TailMembers(events, n);
    var t := Tail(events, n);
    forall i, j | 0 <= i < j < |t| ensures t[i] != t[j] {
      TailAt(events, n, i);
      TailAt(events, n, j);
    }
  }

  lemma TailReplies(replies: seq<Reply>, n: nat)
    requires Unique(replies, ReplyKey)
    ensures Unique(Tail(replies, n), ReplyKey) && forall r | r in Tail(replies, n) :: r in replies
    ensures forall id | HasReply(Tail(replies, n), id) :: HasReply(replies, id)
  {
    TailMembers(replies, n);
    var t := Tail(replies, n);
    forall i, j | 0 <= i < j < |t| ensures ReplyKey(t[i]) != ReplyKey(t[j]) {
      TailAt(replies, n, i);
      TailAt(replies, n, j);
    }
  }

  lemma KeysGrow(replies: seq<Reply>, r: Reply)
    ensures forall id :: HasReply(replies + [r], id) <==> HasReply(replies, id) || id == r.id
  {
    assert forall q | q in replies :: q in replies + [r];
    assert r in replies + [r] && ReplyKey(r) == r.id;
  }

  lemma KeysSettle(replies: seq<Reply>, i: nat, r: Reply)
    requires i < |replies| && r.id == replies[i].id
    ensures forall id :: HasReply(replies[i := r], id) <==> HasReply(replies, id)
  {
    forall id ensures HasReply(replies[i := r], id) <==> HasReply(replies, id) {
      if HasReply(replies, id) {
        var q :| q in replies && ReplyKey(q) == id;
        var j :| 0 <= j < |replies| && replies[j] == q;
        assert ReplyKey(replies[i := r][j]) == id;
      }
      if HasReply(replies[i := r], id) {
        var q :| q in replies[i := r] && ReplyKey(q) == id;
        var j :| 0 <= j < |replies| && replies[i := r][j] == q;
        assert ReplyKey(replies[j]) == id;
      }
    }
  }

  lemma CardMayFollow(h: History, process: nat, w: Work, r: Reply)
    requires Lawful(h) && Unique(w.replies, ReplyKey) && RepliesStored(h, w.replies)
    requires SendsTracked(h, process, w.replies, w.inFlight) && AnswersTracked(h, process, w)
    requires r in w.replies && r.status.Prepared? && !r.body.Legacy? && r.id !in w.inFlight
    requires r.body.TurnReply? ==> Answered(w.turns, r.body).Some?
    ensures MayFollow(h, CardSent(process, r))
    ensures SendsTracked(Then(h, CardSent(process, r)), process, w.replies, w.inFlight + {r.id})
  {
    if SentBody(h, r.id).Some? {
      SentIsStored(h, r.id);
      var d :| d in DiskReplies(h) && ReplyKey(d) == r.id;
    }
    assert ReplyKey(r) == r.id;
    assert HasReply(w.replies, r.id);
    assert r.id.ReplyTo? && AnsweredBy(h, process, r.id.turn) ==> Served(w, r.id.turn);
    assert SendsOnce(h, process, r.id);
  }
  lemma CardAnswers(h: History, process: nat, w: Work, r: Reply)
    requires SingleLive(w.turns) && AnswersTracked(h, process, w)
    requires r in w.replies && !r.body.Legacy?
    requires r.body.TurnReply? ==> Answered(w.turns, r.body).Some?
    requires Unique(w.replies, ReplyKey)
    ensures AnswersTracked(Then(h, CardSent(process, r)), process, w.(inFlight := w.inFlight + {r.id}))
  {
    var a := CardSent(process, r);
    forall q | q in w.replies && q.id == r.id ensures q == r { SameReply(w.replies, q, r); }
    forall t | t in w.turns && t.status.Awaiting? ensures !Replied(Then(h, a), process, t.id) && Said(Then(h, a), t.id).None? {
      if r.id == ReplyTo(t.id) {
        var u := w.turns[Answered(w.turns, r.body).value];
        WorkingIs(w.turns, u);
        WorkingIs(w.turns, t);
      }
    }
    forall q | q in w.replies && q.status == ReplyStatus.Prepared && q.id !in w.inFlight + {r.id} ensures Unspent(Then(h, a), process, q.id) {
      assert Unspent(h, process, q.id);
    }
    forall t | AnsweredBy(Then(h, a), process, t) ensures Served(w.(inFlight := w.inFlight + {r.id}), t) {
      if r.id != ReplyTo(t) { assert Served(w, t); }
    }
  }
  /** An act that is neither a send nor a start answers and announces nothing. */
  lemma OtherAnswers(h: History, process: nat, w: Work, a: Act)
    requires AnswersTracked(h, process, w) && !a.CardSent? && !a.Woke? && (a.Discarded? ==> a.turns == [])
    ensures AnswersTracked(Then(h, a), process, w)
  {
    forall r | r in w.replies && r.status == ReplyStatus.Prepared && r.id !in w.inFlight ensures Unspent(Then(h, a), process, r.id) {
      assert Unspent(h, process, r.id);
    }
  }

  lemma SameReply(replies: seq<Reply>, r: Reply, q: Reply)
    requires Unique(replies, ReplyKey) && r in replies && q in replies && r.id == q.id
    ensures r == q
  {
    var i :| 0 <= i < |replies| && replies[i] == r;
    var j :| 0 <= j < |replies| && replies[j] == q;
    assert i == j;
  }

  lemma RepliesMayFollow(h: History, replies: seq<Reply>, bindings: map<BindingId, Binding>)
    requires NoticesFit(h, bindings, replies) && DiskBindings(h) == bindings
    requires Lawful(h) && Unique(replies, ReplyKey) && RepliesStored(h, replies) && BodiesFit(replies)
      && Repeats(h, replies)
    ensures MayFollow(h, WroteReplies(Tail(replies, REPLY_HISTORY_LIMIT)))
    ensures RepliesStored(Then(h, WroteReplies(Tail(replies, REPLY_HISTORY_LIMIT))), replies)
  {
    var stored := Tail(replies, REPLY_HISTORY_LIMIT);
    TailReplies(replies, REPLY_HISTORY_LIMIT);
    forall r | r in stored && SentBody(h, r.id).Some? ensures SentBody(h, r.id).value == r.body {
      SentIsStored(h, r.id);
      var d :| d in DiskReplies(h) && ReplyKey(d) == r.id;
    }
    forall d | d in stored ensures HasReply(replies, d.id) && forall r | r in replies :: r.id == d.id ==> r.body == d.body {
      forall r | r in replies && r.id == d.id ensures r.body == d.body { SameReply(replies, r, d); }
      assert ReplyKey(d) == d.id;
    }
  }

  // ----- the invariant, in two halves

  // Each half is wrapped in a quantifier that only its own trigger opens, so that a proof
  // which does not mention the trigger carries the half along as one fact. Where such a
  // predicate is to be shown as it stands, it is compared with `true`, which keeps the
  // verifier from taking it apart.

  predicate OpenBindings(k: int) { true }
  predicate OpenWork(k: int) { true }
  predicate OpenMoves(k: int) { true }

  ghost predicate BindingParts(h: History, process: nat, bindings: map<BindingId, Binding>, leases: map<BindingId,
                               Lease>) {
    && LeasesFit(bindings, leases, process)
    && ChatsDistinct(bindings)
    && WatchesDistinct(bindings)
    && Evidenced(h, bindings)
    && Recalled(h, bindings)
    && WatchesTracked(h, bindings)
  }
  ghost predicate BindingsSound(h: History, process: nat, bindings: map<BindingId, Binding>, leases: map<BindingId,
                                Lease>) {
    forall k: int {:trigger OpenBindings(k)} :: OpenBindings(k) ==> BindingParts(h, process, bindings, leases)
  }

  /** The work of the bridge: turns, replies, remembered events, failed renewals, the attempts
      whose card is on its way, what was announced, and the turns whose reply goes out no more. */
  datatype Work = Work(turns: seq<Turn>, replies: seq<Reply>, events: seq<EventId>,
                       failures: map<BindingId, Time>, inFlight: set<AttemptId>, noticed: Noticed, stuck: set<TurnId>)

  /** A replying turn has its reply prepared exactly if it is not stuck. */
  ghost predicate UnderWay(turns: seq<Turn>, replies: seq<Reply>, stuck: set<TurnId>) {
    forall t | t in turns && t.status.Replying? :: t.id in stuck <==> ReplyTo(t.id) !in PreparedIds(replies)
  }
  /** Some record of the turn is replying. */
  ghost predicate IsReplying(turns: seq<Turn>, id: TurnId) { exists t | t in turns :: t.id == id && t.status.Replying? }

  ghost predicate WorkParts(h: History, process: nat, w: Work) {
    && SingleLive(w.turns)
    && Unique(w.replies, ReplyKey)
    && NoDup(w.events)
    && Lawful(h)
    && FailuresTracked(h, w.failures)
    && EventsStored(h, w.events)
    && RepliesStored(h, w.replies)
    && SendsTracked(h, process, w.replies, w.inFlight)
    && AnswersTracked(h, process, w)
    && UnderWay(w.turns, w.replies, w.stuck)
  }
  ghost predicate WorkSound(h: History, process: nat, w: Work) {
    forall k: int {:trigger OpenWork(k)} :: OpenWork(k) ==> WorkParts(h, process, w)
  }

  /** Where an operation began, and the one turn it may start. */
  datatype Base = Base(process: nat, turns: seq<Turn>, replies: seq<Reply>, history: History, incoming: Option<TurnId>)

  /** Since then, turns and replies have moved only as they may and the history has
      only grown. */
  ghost predicate Moved(o: Base, turns: seq<Turn>, replies: seq<Reply>, h: History) {
    forall k: int {:trigger OpenMoves(k)} :: OpenMoves(k) ==>
      && Evolves(o.turns, turns, TurnMove(o.incoming), Born(o.incoming))
      && Evolves(o.replies, replies, ReplyMove, ReplyBorn)
      && Earlier(o.history, h)
      && Kept(o.replies, replies, o.history, h)
  }

  /** Since `p`, the reply has left the memory, settled by then. */
  ghost predicate LeftMemory(p: History, h: History, q: Reply) {
    h != p && h.Then? && ((h.act.Discarded? && exists r | r in h.act.dropped :: ReplyMove(q, r)) || LeftMemory(p, h.prev, q))
  }
  /** Every reply is still there, settled or not, or has left the memory. */
  ghost predicate Kept(was: seq<Reply>, replies: seq<Reply>, p: History, h: History) {
    forall q | q in was :: (exists r | r in replies :: ReplyMove(q, r)) || LeftMemory(p, h, q)
  }

  // ----- changes to bindings and leases

  predicate IsWatchAct(a: Act) { a.Seen? || a.Rebound? || a.Captured? }

  /** An act that is not about a watch leaves what the watches remember alone. */
  lemma Unwatched(h: History, a: Act, process: nat, bindings: map<BindingId, Binding>, leases: map<BindingId, Lease>)
    requires !IsWatchAct(a) && !a.Woke? && BindingsSound(h, process, bindings, leases)
    ensures BindingsSound(Then(h, a), process, bindings, leases)
  {
    assert OpenBindings(0);
    forall b | b in bindings ensures BindingTracked(Then(h, a), bindings[b]) {
      assert BindingTracked(h, bindings[b]);
    }
    forall b | b in bindings && bindings[b].watch.Some? ensures Recalls(Then(h, a), bindings[b].watch.value) {
      assert Recalls(h, bindings[b].watch.value);
    }
    assert Evidenced(Then(h, a), bindings);
    assert BindingParts(Then(h, a), process, bindings, leases);
  }

  /** A change that keeps chat and target and gives the watch no new evidence. */
  ghost predicate Replaces(h: History, x: Binding, y: Binding) {
    && y.chat == x.chat && y.target == x.target
    && (y.watch.Some? ==>
        && x.watch.Some? && y.watch.value.id == x.watch.value.id && y.watch.value.source == x.watch.value.source
        && (y.watch.value.status.Sending? ==> y.watch == x.watch)
        && (Told(x.watch.value.status) ==> Told(y.watch.value.status)) && (x.watch.value.status.Sent? ==> y.watch.value.status.Sent?))
    && (BindingTracked(h, x) ==> BindingTracked(h, y))
  }

  lemma BindingReplaced(h: History, process: nat, bindings: map<BindingId, Binding>, leases: map<BindingId, Lease>,
                        b: BindingId, y: Binding)
    requires BindingsSound(h, process, bindings, leases) && b in bindings && Replaces(h, bindings[b], y)
    ensures BindingsSound(h, process, bindings[b := y], leases)
  {
    assert OpenBindings(0);
    var next := bindings[b := y];
    assert BindingTracked(h, bindings[b]);
    forall c | c in next ensures BindingTracked(h, next[c]) {
      if c != b { assert BindingTracked(h, bindings[c]); }
    }
    if y.watch.Some? { assert Recalls(h, bindings[b].watch.value); }
    assert BindingParts(h, process, next, leases);
  }

  lemma BindingAdded(h: History, process: nat, bindings: map<BindingId, Binding>, leases: map<BindingId, Lease>,
                     b: BindingId, x: Binding)
    requires BindingsSound(h, process, bindings, leases) && b !in bindings
    requires x.watch.None? && forall c | c in bindings :: bindings[c].chat != x.chat
    ensures BindingsSound(h, process, bindings[b := x], leases)
  {
    assert OpenBindings(0);
    var next := bindings[b := x];
    forall c | c in next ensures BindingTracked(h, next[c]) {
      if c != b { assert BindingTracked(h, bindings[c]); }
    }
    assert BindingParts(h, process, next, leases);
  }

  lemma BindingRemoved(h: History, process: nat, bindings: map<BindingId, Binding>, leases: map<BindingId, Lease>,
                       b: BindingId)
    requires BindingsSound(h, process, bindings, leases)
    ensures BindingsSound(h, process, bindings - {b}, leases - {b})
  {
    assert OpenBindings(0);
    var next := bindings - {b};
    forall c | c in next ensures BindingTracked(h, next[c]) { assert BindingTracked(h, bindings[c]); }
    assert BindingParts(h, process, next, leases - {b});
  }

  lemma LeaseSet(h: History, process: nat, bindings: map<BindingId, Binding>, leases: map<BindingId, Lease>,
                 b: BindingId, l: Lease)
    requires BindingsSound(h, process, bindings, leases) && b in bindings
    requires l.target == bindings[b].target && l.owner == Owner(Feishu, ForBinding(b, process))
    ensures BindingsSound(h, process, bindings, leases[b := l])
  {
    assert OpenBindings(0);
    assert BindingParts(h, process, bindings, leases[b := l]);
  }

  lemma LeaseDropped(h: History, process: nat, bindings: map<BindingId, Binding>, leases: map<BindingId, Lease>,
                     b: BindingId)
    requires BindingsSound(h, process, bindings, leases)
    ensures BindingsSound(h, process, bindings, leases - {b})
  {
    assert OpenBindings(0);
    assert BindingParts(h, process, bindings, leases - {b});
  }

  lemma LeaseOwn(h: History, process: nat, bindings: map<BindingId, Binding>, leases: map<BindingId, Lease>,
                 b: BindingId)
    requires BindingsSound(h, process, bindings, leases) && b in leases
    ensures b in bindings && leases[b].target == bindings[b].target
      && leases[b].owner == Owner(Feishu, ForBinding(b, process))
  {
    assert OpenBindings(0);
  }

  lemma OwnTracked(h: History, process: nat, bindings: map<BindingId, Binding>, leases: map<BindingId, Lease>,
                   b: BindingId)
    requires BindingsSound(h, process, bindings, leases) && b in bindings
    ensures BindingTracked(h, bindings[b])
    ensures bindings[b].watch.Some? ==> WatchEvidence(h, bindings[b].watch.value) && Recalls(h, bindings[b].watch.value)
  {
    assert OpenBindings(0);
  }

  /** An accepted grant may be installed for the binding that asked: the invariant is kept, and
      the view that came with it shows the lease. It is accepted for nobody else: no other
      binding, process or terminal, and not once it has expired. */
  lemma GrantedKeeps(h: History, process: nat, bindings: map<BindingId, Binding>, leases: map<BindingId, Lease>,
                     b: BindingId, g: Grant, now: Time)
    requires BindingsSound(h, process, bindings, leases) && b in bindings
    requires Granted(g, bindings[b].target, Owner(Feishu, ForBinding(b, process)), false, now).Some?
    ensures var l := Granted(g, bindings[b].target, Owner(Feishu, ForBinding(b, process)), false, now).value;
      && BindingsSound(h, process, bindings, leases[b := l])
      && LeaseView(bindings[b].target, l, g.view)
      && (forall owner, target, draining, later :: Granted(g, target, owner, draining, later).Some? <==>
            owner == Owner(Feishu, ForBinding(b, process)) && target == bindings[b].target && later < l.expiresAt)
  {
    LeaseSet(h, process, bindings, leases, b, g.lease.value);
  }

  /** An act about one watch, with what it changes in that watch. */
  lemma WatchAct(h: History, process: nat, bindings: map<BindingId, Binding>, leases: map<BindingId, Lease>,
                 b: BindingId, w: Watch, a: Act)
    requires BindingsSound(h, process, bindings, leases) && b in bindings
    requires IsWatchAct(a) && a.watch == w.id
    requires (bindings[b].watch.Some? && bindings[b].watch.value.id == w.id)
      || forall c | c in bindings && bindings[c].watch.Some? :: bindings[c].watch.value.id != w.id
    requires Tracked(Then(h, a), w) && WatchEvidence(Then(h, a), w) && Recalls(Then(h, a), w)
    ensures BindingsSound(Then(h, a), process, bindings[b := bindings[b].(watch := Some(w))], leases)
  {
    assert OpenBindings(0);
    var next := bindings[b := bindings[b].(watch := Some(w))];
    forall c | c in next
      ensures BindingTracked(Then(h, a), next[c])
      ensures next[c].watch.Some? ==> WatchEvidence(Then(h, a), next[c].watch.value) && Recalls(Then(h, a), next[c].watch.value) {
      if c != b {
        assert BindingTracked(h, bindings[c]);
        if bindings[c].watch.Some? { assert Recalls(h, bindings[c].watch.value); }
      }
    }
    assert BindingParts(Then(h, a), process, next, leases);
  }

  // ----- notices about watches

  predicate OpenTold(k: int) { true }
  /** Every card of the watch arrived. */
  ghost predicate Arrived(bindings: map<BindingId, Binding>, w: WatchId) {
    forall b | b in bindings && bindings[b].watch.Some? :: bindings[b].watch.value.id == w ==> bindings[b].watch.value.status.Sent?
  }
  /** A watch about which the process has, or has sent, a notice counts as announced, or is past
      doubt for good. */
  ghost predicate ToldParts(h: History, process: nat, bindings: map<BindingId, Binding>, replies: seq<Reply>,
                            g: Noticed) {
    && NoticesFit(h, bindings, replies)
    && (forall w | EverSent(h, process, WatchNotice(w)) :: w in BoundWatches(h))
    && (forall w | HasReply(replies, WatchNotice(w)) || EverSent(h, process, WatchNotice(w)) :: w in g.watches || Arrived(bindings, w))
  }
  ghost predicate NoticesSound(h: History, process: nat, bindings: map<BindingId, Binding>, replies: seq<Reply>,
                               g: Noticed) {
    forall k: int {:trigger OpenTold(k)} :: OpenTold(k) ==> ToldParts(h, process, bindings, replies, g)
  }

  lemma NoticesAct(h: History, a: Act, process: nat, bindings: map<BindingId, Binding>, replies: seq<Reply>, g: Noticed)
    requires NoticesSound(h, process, bindings, replies, g) && !a.CardSent?
    ensures NoticesSound(Then(h, a), process, bindings, replies, g)
  {
    assert OpenTold(0);
    assert ToldParts(Then(h, a), process, bindings, replies, g);
  }
  lemma NoticesFewer(h: History, process: nat, bindings: map<BindingId, Binding>, replies: seq<Reply>, g: Noticed,
                     kept: seq<Reply>)
    requires NoticesSound(h, process, bindings, replies, g) && forall r | r in kept :: r in replies
    ensures NoticesSound(h, process, bindings, kept, g)
  {
    assert OpenTold(0);
    forall id | HasReply(kept, id) ensures HasReply(replies, id) { var r :| r in kept && ReplyKey(r) == id; }
    assert ToldParts(h, process, bindings, kept, g);
  }
  lemma NoticesReplaced(h: History, process: nat, bindings: map<BindingId, Binding>, replies: seq<Reply>, g: Noticed,
                        b: BindingId, y: Binding)
    requires NoticesSound(h, process, bindings, replies, g) && b in bindings && Replaces(h, bindings[b], y)
    ensures NoticesSound(h, process, bindings[b := y], replies, g)
  {
    assert OpenTold(0);
    assert ToldParts(h, process, bindings[b := y], replies, g);
  }
  lemma NoticesUnwatched(h: History, process: nat, bindings: map<BindingId, Binding>, replies: seq<Reply>, g: Noticed,
                         b: BindingId, y: Binding)
    requires NoticesSound(h, process, bindings, replies, g) && y.watch.None?
    ensures NoticesSound(h, process, bindings[b := y], replies, g)
  {
    assert OpenTold(0);
    assert ToldParts(h, process, bindings[b := y], replies, g);
  }
  lemma NoticesLeft(h: History, process: nat, bindings: map<BindingId, Binding>, replies: seq<Reply>, g: Noticed,
                    b: BindingId)
    requires NoticesSound(h, process, bindings, replies, g)
    ensures NoticesSound(h, process, bindings - {b}, replies, g)
  {
    assert OpenTold(0);
    assert ToldParts(h, process, bindings - {b}, replies, g);
  }
  /** No notice is about a new watch, and none that is sent is about an active one. */
  lemma NoticesWatch(h: History, process: nat, bindings: map<BindingId, Binding>, replies: seq<Reply>, g: Noticed,
                     b: BindingId, w: Watch, a: Act)
    requires NoticesSound(h, process, bindings, replies, g) && b in bindings && !a.CardSent?
    requires (SameWatch(bindings[b].watch, w.id) && ActiveWatch(bindings[b].watch)) || w.id !in BoundWatches(h)
    ensures NoticesSound(Then(h, a), process, bindings[b := bindings[b].(watch := Some(w))], replies, g)
  {
    assert OpenTold(0);
    var next := bindings[b := bindings[b].(watch := Some(w))];
    forall x | HasReply(replies, WatchNotice(x)) ensures x != w.id && AllTold(next, x) { assert AllTold(bindings, x); }
    forall x | EverSent(h, process, WatchNotice(x)) ensures x in g.watches || Arrived(next, x) {
      if x !in g.watches { assert Arrived(bindings, x); }
    }
    assert ToldParts(Then(h, a), process, next, replies, g);
  }
  /** The binding's watch is the one of this id. */
  predicate SameWatch(w: Option<Watch>, id: WatchId) { w.Some? && w.value.id == id }

  lemma NoticesPushed(h: History, process: nat, bindings: map<BindingId, Binding>, replies: seq<Reply>, g: Noticed,
                      r: Reply)
    requires NoticesSound(h, process, bindings, replies, g)
    requires r.id.WatchNotice? ==>
      AllTold(bindings, r.id.watch) && r.id.watch in BoundWatches(h) && r.id.watch in g.watches
    ensures NoticesSound(h, process, bindings, replies + [r], g)
  {
    assert OpenTold(0);
    KeysGrow(replies, r);
    assert ToldParts(h, process, bindings, replies + [r], g);
  }
  lemma NoticesSettled(h: History, process: nat, bindings: map<BindingId, Binding>, replies: seq<Reply>, g: Noticed,
                       i: nat, r: Reply)
    requires NoticesSound(h, process, bindings, replies, g) && i < |replies| && r.id == replies[i].id
    ensures NoticesSound(h, process, bindings, replies[i := r], g)
  {
    assert OpenTold(0);
    KeysSettle(replies, i, r);
    assert ToldParts(h, process, bindings, replies[i := r], g);
  }
  lemma NoticesGrow(h: History, process: nat, bindings: map<BindingId, Binding>, replies: seq<Reply>, g: Noticed,
                    g': Noticed)
    requires NoticesSound(h, process, bindings, replies, g) && g.watches <= g'.watches
    ensures NoticesSound(h, process, bindings, replies, g')
  {
    assert OpenTold(0);
    assert ToldParts(h, process, bindings, replies, g');
  }
  lemma NoticesSent(h: History, process: nat, bindings: map<BindingId, Binding>, replies: seq<Reply>, g: Noticed,
                    r: Reply)
    requires NoticesSound(h, process, bindings, replies, g) && r in replies
    ensures NoticesSound(Then(h, CardSent(process, r)), process, bindings, replies, g)
  {
    assert OpenTold(0);
    assert ReplyKey(r) == r.id && HasReply(replies, r.id);
    assert ToldParts(Then(h, CardSent(process, r)), process, bindings, replies, g);
  }
  /** A watch in doubt that is not announced may be announced: no notice about it was sent. */
  lemma WatchNoticeDue(h: History, process: nat, bindings: map<BindingId, Binding>, leases: map<BindingId, Lease>,
                       replies: seq<Reply>, g: Noticed, b: BindingId)
    requires BindingsSound(h, process, bindings, leases) && NoticesSound(h, process, bindings, replies, g)
    requires b in bindings && Doubtful(bindings[b].watch) && bindings[b].watch.value.id !in g.watches
    ensures var w := bindings[b].watch.value.id;
      !EverSent(h, process, WatchNotice(w)) && AllTold(bindings, w) && w in BoundWatches(h)
  {
    assert OpenTold(0) && OpenBindings(0);
    assert WatchEvidence(h, bindings[b].watch.value);
    var w := bindings[b].watch.value.id;
    assert EverSent(h, process, WatchNotice(w)) ==> w in g.watches || Arrived(bindings, w);
  }
  /** A watch id never tied to a terminal names no watch. */
  lemma FreshUnused(h: History, process: nat, bindings: map<BindingId, Binding>, leases: map<BindingId, Lease>,
                    id: WatchId)
    requires BindingsSound(h, process, bindings, leases) && id !in BoundWatches(h)
    ensures forall c | c in bindings && bindings[c].watch.Some? :: bindings[c].watch.value.id != id
  {
    assert OpenBindings(0);
    forall c | c in bindings && bindings[c].watch.Some? ensures bindings[c].watch.value.id != id {
      assert WatchEvidence(h, bindings[c].watch.value);
    }
  }

  // ----- changes to the work

  lemma ServedSet(w: Work, i: nat, t: Turn, id: TurnId)
    requires i < |w.turns| && w.turns[i].id == t.id && TurnSettles(w.turns[i], t) && Onward(w.turns[i], t)
      && Served(w, id)
    ensures Served(w.(turns := w.turns[i := t]), id)
  {
    FindTurnSet(w.turns, i, t, id);
  }
  /** A turn does not go back to an earlier status. */
  predicate Onward(a: Turn, b: Turn) {
    && (b.status.Prepared? ==> a.status.Prepared?)
    && (b.status.Awaiting? ==> a.status.Prepared? || a.status.Awaiting?)
    && (b.status.Replying? ==> a.status.Awaiting? || a.status.Replying?)
  }
  lemma TurnSet(h: History, process: nat, w: Work, i: nat, t: Turn)
    requires WorkSound(h, process, w) && i < |w.turns| && TurnSettles(w.turns[i], t)
      && Grounded(h, process, w.turns[i], t)
    requires t.status.Replying? && !w.turns[i].status.Replying? ==>
      (t.id in w.stuck <==> ReplyTo(t.id) !in PreparedIds(w.replies))
    ensures WorkSound(h, process, w.(turns := w.turns[i := t]))
    ensures Live(w.turns[i].status) && !Live(t.status) ==> NoLive(w.turns[i := t], t.binding)
  {
    assert OpenWork(0);
    forall id | AnsweredBy(h, process, id) ensures Served(w.(turns := w.turns[i := t]), id) { ServedSet(w, i, t, id); }
    if Live(w.turns[i].status) && !Live(t.status) { EndsLast(w.turns, i, t); }
    assert WorkParts(h, process, w.(turns := w.turns[i := t]));
  }

  /** A turn that comes to wait for output had its input typed and not yet answered. */
  ghost predicate Grounded(h: History, process: nat, a: Turn, b: Turn) {
    && a.id == b.id && Onward(a, b)
    && (b.status.Awaiting? && !a.status.Awaiting? ==>
         EverTyped(h, b.id.event) && !Replied(h, process, b.id) && Said(h, b.id).None?)
  }
  predicate TurnSettles(a: Turn, b: Turn) { a.binding == b.binding && (Live(b.status) ==> Live(a.status)) }

  lemma TurnPushed(h: History, process: nat, w: Work, t: Turn)
    requires WorkSound(h, process, w) && NoLive(w.turns, t.binding) && t.status.Prepared?
    ensures WorkSound(h, process, w.(turns := w.turns + [t]))
  {
    assert OpenWork(0);
    assert SingleLive(w.turns + [t]);
    forall id | AnsweredBy(h, process, id) ensures Served(w.(turns := w.turns + [t]), id) {
      FindTurnPushed(w.turns, t, id);
    }
    assert WorkParts(h, process, w.(turns := w.turns + [t]));
  }

  /** The turn waits for output. */
  predicate Awaited(turns: seq<Turn>, id: TurnId) { exists t | t in turns :: t.id == id && t.status.Awaiting? }
  /** Then no record of it is replying. */
  lemma AwaitedElsewhere(turns: seq<Turn>, id: TurnId)
    requires SingleLive(turns) && Awaited(turns, id) && FindTurn(turns, id).Some?
    ensures !turns[FindTurn(turns, id).value].status.Replying?
  {
    var t :| t in turns && t.id == id && t.status.Awaiting?;
    var u := turns[FindTurn(turns, id).value];
    if u.status.Replying? {
      WorkingIs(turns, t);
      WorkingIs(turns, u);
    }
  }
  lemma PreparedGrow(replies: seq<Reply>, r: Reply)
    ensures PreparedIds(replies + [r]) == PreparedIds(replies) + if r.status.Prepared? then {r.id} else {}
  {
    assert forall q | q in replies :: q in replies + [r];
    assert r in replies + [r];
  }
  lemma ReplyPushed(h: History, process: nat, w: Work, r: Reply)
    requires WorkSound(h, process, w) && !HasReply(w.replies, r.id) && BodiesFit([r]) && Announces(w.noticed, r.id)
      && Unspent(h, process, r.id)
    requires r.id.ReplyTo? ==> Awaited(w.turns, r.id.turn)
    ensures WorkSound(h, process, w.(replies := w.replies + [r]))
  {
    assert OpenWork(0);
    assert r in [r];
    forall t | AnsweredBy(h, process, t) ensures Served(w.(replies := w.replies + [r]), t) {
      assert Served(w, t);
      if r.id == ReplyTo(t) { AwaitedElsewhere(w.turns, t); }
    }
    forall t | t in w.turns && t.status.Replying? ensures t.id in w.stuck <==> ReplyTo(t.id) !in PreparedIds(w.replies + [r]) {
      if r.id == ReplyTo(t.id) {
        var u :| u in w.turns && u.id == t.id && u.status.Awaiting?;
        WorkingIs(w.turns, t);
        WorkingIs(w.turns, u);
      }
      PreparedGrow(w.replies, r);
    }
    forall q | q in w.replies ensures q.id != r.id { assert ReplyKey(q) in Keys(w.replies, ReplyKey); }
    KeysGrow(w.replies, r);
    assert WorkParts(h, process, w.(replies := w.replies + [r]));
  }

  /** Which turns are stuck once an attempt is settled: the one it answers, if that is replying still. */
  ghost function Settling(turns: seq<Turn>, stuck: set<TurnId>, id: AttemptId): set<TurnId> {
    if id.ReplyTo? && IsReplying(turns, id.turn) then stuck + {id.turn} else stuck
  }
  lemma PreparedSettled(replies: seq<Reply>, i: nat, r: Reply)
    requires i < |replies| && Unique(replies, ReplyKey) && r.id == replies[i].id && !r.status.Prepared?
    ensures PreparedIds(replies[i := r]) == PreparedIds(replies) - {r.id}
  {
    var next := replies[i := r];
    forall id ensures id in PreparedIds(next) <==> id in PreparedIds(replies) - {r.id} {
      if id in PreparedIds(next) {
        var q :| q in next && q.status.Prepared? && q.id == id;
        var j :| 0 <= j < |next| && next[j] == q;
        assert j != i && replies[j] in replies && ReplyKey(replies[j]) != ReplyKey(replies[i]);
      }
      if id in PreparedIds(replies) - {r.id} {
        var q :| q in replies && q.status.Prepared? && q.id == id;
        var j :| 0 <= j < |replies| && replies[j] == q;
        assert next[j] in next;
      }
    }
  }
  lemma ReplySettled(h: History, process: nat, w: Work, i: nat, status: ReplyStatus)
    requires WorkSound(h, process, w) && i < |w.replies| && !status.Prepared?
    ensures WorkSound(h, process, w.(replies := w.replies[i := w.replies[i].(status := status)],
                                     stuck := Settling(w.turns, w.stuck, w.replies[i].id)))
  {
    assert OpenWork(0);
    var r := w.replies[i].(status := status);
    var next := w.(replies := w.replies[i := r], stuck := Settling(w.turns, w.stuck, r.id));
    KeysSettle(w.replies, i, r);
    PreparedSettled(w.replies, i, r);
    forall t | AnsweredBy(h, process, t) ensures Served(next, t) { assert Served(w, t); }
    assert WorkParts(h, process, next);
  }
  /** A turn that is not replying may be taken to be stuck or not. */
  lemma StuckSet(h: History, process: nat, w: Work, id: TurnId, stuck: set<TurnId>)
    requires WorkSound(h, process, w) && !IsReplying(w.turns, id) && stuck - {id} == w.stuck - {id}
    ensures WorkSound(h, process, w.(stuck := stuck))
  {
    assert OpenWork(0);
    var next := w.(stuck := stuck);
    forall t | t in w.turns && t.status.Replying? ensures t.id in stuck <==> t.id in w.stuck {
      assert t.id != id;
      assert t.id in stuck - {id} <==> t.id in w.stuck - {id};
    }
    forall t | AnsweredBy(h, process, t) ensures Served(next, t) { assert Served(w, t); }
    assert WorkParts(h, process, next);
  }
  /** A binding whose live turn is not replying has no replying turn. */
  lemma NoneReplying(h: History, process: nat, w: Work, id: TurnId)
    requires WorkSound(h, process, w)
      && (Working(w.turns, id.binding).Some? ==> !Working(w.turns, id.binding).value.status.Replying?)
    ensures !IsReplying(w.turns, id)
  {
    assert OpenWork(0);
    if IsReplying(w.turns, id) {
      var t :| t in w.turns && t.id == id && t.status.Replying?;
      WorkingIs(w.turns, t);
    }
  }

  /** A notice that is due may be sent: what it announces was not announced before. */
  lemma NoticeDue(h: History, process: nat, w: Work, id: TurnId)
    requires WorkSound(h, process, w) && id !in w.noticed.turns
    ensures Unspent(h, process, TurnNotice(id))
  {
    assert OpenWork(0);
    assert !Announces(w.noticed, TurnNotice(id));
  }
  lemma NoticedGrows(h: History, process: nat, w: Work, g: Noticed)
    requires WorkSound(h, process, w) && w.noticed.turns <= g.turns && w.noticed.watches <= g.watches
    ensures WorkSound(h, process, w.(noticed := g))
  {
    assert OpenWork(0);
    assert WorkParts(h, process, w.(noticed := g));
  }
  /** The reply to a turn that waits for output may be sent. */
  lemma ReplyDue(h: History, process: nat, w: Work, t: Turn)
    requires WorkSound(h, process, w) && t in w.turns && t.status.Awaiting?
    ensures Unspent(h, process, ReplyTo(t.id))
  {
    assert OpenWork(0);
  }

  /** There is one reply of an id. */
  lemma OnlyReply(h: History, process: nat, w: Work, j: nat, id: AttemptId)
    requires WorkSound(h, process, w) && j < |w.replies| && w.replies[j].id == id
    ensures forall r | r in w.replies && r.id == id :: r == w.replies[j]
  {
    assert OpenWork(0);
    forall r | r in w.replies && r.id == id ensures r == w.replies[j] { SameReply(w.replies, r, w.replies[j]); }
  }

  lemma EventAdded(h: History, process: nat, w: Work, e: EventId)
    requires WorkSound(h, process, w) && e !in w.events
    ensures WorkSound(h, process, w.(events := w.events + [e]))
  {
    assert OpenWork(0);
    assert WorkParts(h, process, w.(events := w.events + [e]));
  }

  /** An event not remembered was not typed. */
  lemma UnseenUntyped(h: History, process: nat, w: Work, e: EventId)
    requires WorkSound(h, process, w) && e !in w.events
    ensures !Typed(h, e)
  {
    assert OpenWork(0);
    if Typed(h, e) { TypedIsStored(h, e); }
  }

  lemma CardLanded(h: History, process: nat, w: Work, id: AttemptId)
    requires WorkSound(h, process, w) && forall r | r in w.replies && r.id == id :: !r.status.Prepared?
    ensures WorkSound(h, process, w.(inFlight := w.inFlight - {id}))
  {
    assert OpenWork(0);
    forall t | AnsweredBy(h, process, t) ensures Served(w.(inFlight := w.inFlight - {id}), t) { assert Served(w, t); }
    assert WorkParts(h, process, w.(inFlight := w.inFlight - {id}));
  }

  // ----- acts

  lemma Unsent(h: History, process: nat, replies: seq<Reply>, inFlight: set<AttemptId>, a: Act)
    requires SendsTracked(h, process, replies, inFlight) && !a.CardSent?
    ensures SendsTracked(Then(h, a), process, replies, inFlight)
  {
    forall id | SentBy(Then(h, a), process, id) ensures SentBy(h, process, id) {}
  }

  predicate IsPlain(a: Act) {
    IsWatchAct(a) || a.Injected? || a.CommitIssued? || a.RenewRetried? || a.GraceExpired?
  }

  /** An act that writes no file, sends no card and settles no renewal. */
  lemma PlainAct(h: History, process: nat, w: Work, a: Act)
    requires WorkSound(h, process, w) && IsPlain(a) && MayFollow(h, a)
    ensures WorkSound(Then(h, a), process, w)
  {
    assert OpenWork(0);
    OtherFiles(h, a);
    Unsent(h, process, w.replies, w.inFlight, a);
    OtherAnswers(h, process, w, a);
    forall b | b in w.failures ensures RetriedAt(Then(h, a), b, w.failures[b]) {}
    assert WorkParts(Then(h, a), process, w);
  }

  lemma RetryNoted(h: History, process: nat, w: Work, b: BindingId, now: Time)
    requires WorkSound(h, process, w) && RetriedAt(h, b, now)
    ensures WorkSound(h, process, w.(failures := w.failures[b := now]))
  {
    assert OpenWork(0);
    assert WorkParts(h, process, w.(failures := w.failures[b := now]));
  }

  lemma RenewalSettled(h: History, process: nat, w: Work, b: BindingId)
    requires WorkSound(h, process, w)
    ensures WorkSound(Then(h, RenewSettled(b)), process, w.(failures := w.failures - {b}))
  {
    assert OpenWork(0);
    OtherFiles(h, RenewSettled(b));
    Unsent(h, process, w.replies, w.inFlight, RenewSettled(b));
    OtherAnswers(h, process, w, RenewSettled(b));
    assert WorkParts(Then(h, RenewSettled(b)), process, w.(failures := w.failures - {b}));
  }

  /** The first failure on record is one the history shows. */
  lemma RetryShown(h: History, process: nat, w: Work, b: BindingId)
    requires WorkSound(h, process, w) && b in w.failures
    ensures RetriedAt(h, b, w.failures[b])
  {
    assert OpenWork(0);
  }

  lemma CardLogged(h: History, process: nat, w: Work, r: Reply)
    requires WorkSound(h, process, w)
    requires r in w.replies && r.status.Prepared? && !r.body.Legacy? && r.id !in w.inFlight
    requires r.body.TurnReply? ==> Answered(w.turns, r.body).Some?
    ensures WorkSound(Then(h, CardSent(process, r)), process, w.(inFlight := w.inFlight + {r.id}))
  {
    assert OpenWork(0);
    CardMayFollow(h, process, w, r);
    CardAnswers(h, process, w, r);
    OtherFiles(h, CardSent(process, r));
    assert WorkParts(Then(h, CardSent(process, r)), process, w.(inFlight := w.inFlight + {r.id}));
  }

  // ----- the four files

  lemma BindingsStored(h: History, process: nat, w: Work, bindings: map<BindingId, Binding>, leases: map<BindingId,
                       Lease>)
    requires WorkSound(h, process, w) && BindingsSound(h, process, bindings, leases)
      && NoticesSound(h, process, bindings, w.replies, w.noticed)
    ensures WorkSound(Then(h, WroteBindings(bindings)), process, w)
  {
    assert OpenWork(0) && OpenBindings(0) && OpenTold(0);
    NoticesStored(h, bindings, w.replies);
    var a := WroteBindings(bindings);
    OtherFiles(h, a);
    Unsent(h, process, w.replies, w.inFlight, a);
    OtherAnswers(h, process, w, a);
    assert WorkParts(Then(h, a), process, w);
  }

  lemma EventsMayFollow(h: History, events: seq<EventId>)
    requires NoDup(events) && EventsStored(h, events)
    ensures MayFollow(h, WroteDedup(Tail(events, DEDUP_LIMIT)))
    ensures EventsStored(Then(h, WroteDedup(Tail(events, DEDUP_LIMIT))), events)
  {
    TailNoDup(events, DEDUP_LIMIT);
  }

  lemma EventsWritten(h: History, process: nat, w: Work)
    requires WorkSound(h, process, w)
    ensures WorkSound(Then(h, WroteDedup(Tail(w.events, DEDUP_LIMIT))), process, w)
  {
    assert OpenWork(0);
    EventsMayFollow(h, w.events);
    FileWritten(h, process, w, WroteDedup(Tail(w.events, DEDUP_LIMIT)));
  }

  /** A file write that may follow and keeps what is stored keeps the work sound. */
  lemma FileWritten(h: History, process: nat, w: Work, a: Act)
    requires WorkParts(h, process, w) && IsWrite(a) && !a.Discarded? && MayFollow(h, a)
    requires EventsStored(Then(h, a), w.events) && RepliesStored(Then(h, a), w.replies)
    ensures WorkParts(Then(h, a), process, w)
  {
    Unsent(h, process, w.replies, w.inFlight, a);
    OtherAnswers(h, process, w, a);
  }

  lemma TurnsWritten(h: History, process: nat, w: Work)
    requires WorkSound(h, process, w)
    ensures WorkSound(Then(h, WroteTurns(Tail(w.turns, TURN_HISTORY_LIMIT))), process, w)
  {
    assert OpenWork(0);
    var a := WroteTurns(Tail(w.turns, TURN_HISTORY_LIMIT));
    TailSingleLive(w.turns, TURN_HISTORY_LIMIT);
    OtherFiles(h, a);
    Unsent(h, process, w.replies, w.inFlight, a);
    OtherAnswers(h, process, w, a);
    assert WorkParts(Then(h, a), process, w);
  }

  /** Notices on file are notices at hand. */
  lemma NoticesStored(h: History, bindings: map<BindingId, Binding>, replies: seq<Reply>)
    requires NoticesFit(h, bindings, replies) && RepliesStored(h, replies)
    ensures NoticesFit(h, bindings, DiskReplies(h))
  {
    forall w | HasReply(DiskReplies(h), WatchNotice(w)) ensures HasReply(replies, WatchNotice(w)) {
      var d :| d in DiskReplies(h) && ReplyKey(d) == WatchNotice(w);
    }
  }
  lemma RepliesWritten(h: History, process: nat, w: Work, bindings: map<BindingId, Binding>)
    requires WorkSound(h, process, w) && NoticesSound(h, process, bindings, w.replies, w.noticed)
      && DiskBindings(h) == bindings
    ensures WorkSound(Then(h, WroteReplies(Tail(w.replies, REPLY_HISTORY_LIMIT))), process, w)
  {
    assert OpenWork(0) && OpenTold(0);
    var a := WroteReplies(Tail(w.replies, REPLY_HISTORY_LIMIT));
    RepliesMayFollow(h, w.replies, bindings);
    OtherFiles(h, a);
    Unsent(h, process, w.replies, w.inFlight, a);
    OtherAnswers(h, process, w, a);
    assert WorkParts(Then(h, a), process, w);
  }

  // ----- trimming

  function LiveIds(turns: seq<Turn>): set<TurnId> { set t | t in turns && Live(t.status) :: t.id }
  function PreparedIds(replies: seq<Reply>): set<AttemptId> {
    set r | r in replies && r.status == ReplyStatus.Prepared :: r.id
  }
  function TrimmedTurns(turns: seq<Turn>): seq<Turn> { Retained(turns, TURN_HISTORY_LIMIT, LiveIds(turns), TurnKey) }
  function KeptTurnKeys(turns: seq<Turn>): set<TurnId> {
    LiveIds(turns) + Keys(Tail(Omit(turns, LiveIds(turns), TurnKey), TURN_HISTORY_LIMIT), TurnKey)
  }
  /** What the trim takes out of the turns. */
  function DroppedTurns(turns: seq<Turn>): seq<Turn> { Omit(turns, KeptTurnKeys(turns), TurnKey) }
  function TrimmedReplies(replies: seq<Reply>): seq<Reply> {
    Retained(replies, REPLY_HISTORY_LIMIT, PreparedIds(replies), ReplyKey)
  }
  function KeptKeys(replies: seq<Reply>): set<AttemptId> {
    PreparedIds(replies) + Keys(Tail(Omit(replies, PreparedIds(replies), ReplyKey), REPLY_HISTORY_LIMIT), ReplyKey)
  }
  /** What the trim takes out. */
  function DroppedReplies(replies: seq<Reply>): seq<Reply> { Omit(replies, KeptKeys(replies), ReplyKey) }

  lemma TrimSplits(replies: seq<Reply>)
    ensures forall r :: r in TrimmedReplies(replies) <==> r in replies && ReplyKey(r) in KeptKeys(replies)
    ensures forall r :: r in DroppedReplies(replies) <==> r in replies && ReplyKey(r) !in KeptKeys(replies)
    ensures forall r | r in DroppedReplies(replies) :: r.status != ReplyStatus.Prepared
  {
    PickMembers(replies, KeptKeys(replies), ReplyKey);
    OmitMembers(replies, KeptKeys(replies), ReplyKey);
    forall r | r in DroppedReplies(replies) ensures r.status != ReplyStatus.Prepared {
      assert r.status.Prepared? ==> ReplyKey(r) in PreparedIds(replies);
    }
  }

  /** The live turn of a binding. */
  function Working(turns: seq<Turn>, b: BindingId): (r: Option<Turn>)
    ensures r.None? <==> NoLive(turns, b)
    ensures r.Some? ==> r.value in turns && r.value.binding == b && Live(r.value.status)
  {
    var i := ActiveTurn(turns, b);
    if i.Some? then Some(turns[i.value]) else None
  }

  predicate OpenLive(k: int) { true }
  /** Every binding has the same live turn here and there. */
  ghost predicate SameLive(a: seq<Turn>, b: seq<Turn>) {
    forall k: int {:trigger OpenLive(k)} :: OpenLive(k) ==> forall c :: Working(a, c) == Working(b, c)
  }
  lemma SameLiveAt(a: seq<Turn>, b: seq<Turn>, c: BindingId)
    requires SameLive(a, b)
    ensures Working(a, c) == Working(b, c)
  {
    assert OpenLive(0);
  }
  predicate OpenStored(k: int) { true }
  /** The files hold the bindings as they are, no live turn of a binding that has
      none, and the event remembered last. */
  ghost predicate Stored(h: History, bindings: map<BindingId, Binding>, turns: seq<Turn>, events: seq<EventId>) {
    forall k: int {:trigger OpenStored(k)} :: OpenStored(k) ==>
      && DiskBindings(h) == bindings
      && (forall b :: NoLive(turns, b) ==> NoLive(DiskTurns(h), b))
      && (events != [] ==> events[|events| - 1] in DiskEvents(h))
  }
  lemma StoredCovers(h: History, bindings: map<BindingId, Binding>, turns: seq<Turn>, events: seq<EventId>,
                     b: BindingId, k: Handoff)
    requires Stored(h, bindings, turns, events) && b in bindings
    requires bindings[b].handoff == Some(k) && k.status == HandoffStatus.Prepared
    requires k.role.Current? ==> NoLive(turns, b) && !ActiveWatch(bindings[b].watch)
    ensures CommitCovered(h, b, k)
  {
    assert OpenStored(0);
  }
  ghost predicate WritesEvents(a: Act, events: seq<EventId>) {
    forall k: int {:trigger OpenStored(k)} :: OpenStored(k) ==> a == WroteDedup(Tail(events, DEDUP_LIMIT))
  }
  ghost predicate WritesTurns(a: Act, turns: seq<Turn>) {
    forall k: int {:trigger OpenStored(k)} :: OpenStored(k) ==> a == WroteTurns(Tail(turns, TURN_HISTORY_LIMIT))
  }
  ghost predicate WritesReplies(a: Act, replies: seq<Reply>) {
    forall k: int {:trigger OpenStored(k)} :: OpenStored(k) ==> a == WroteReplies(Tail(replies, REPLY_HISTORY_LIMIT))
  }
  // the second, the third and the fourth file
  lemma EventsNext(o: History, first: History, h: History, events: seq<EventId>)
    requires OnlyWrites(o, first) && h.Then? && h.prev == first && WritesEvents(h.act, events)
    ensures OnlyWrites(o, h) && DiskBindings(h) == DiskBindings(first)
  {
    assert OpenStored(0);
    OtherFiles(first, h.act);
  }
  lemma TurnsNext(o: History, first: History, h: History, events: seq<EventId>, turns: seq<Turn>)
    requires OnlyWrites(o, first) && h.Then? && h.prev.Then? && h.prev.prev == first
    requires WritesEvents(h.prev.act, events) && WritesTurns(h.act, turns)
    ensures OnlyWrites(o, h) && DiskBindings(h) == DiskBindings(first)
  {
    assert OpenStored(0);
    EventsNext(o, first, h.prev, events);
    OtherFiles(h.prev, h.act);
  }
  lemma RepliesNext(o: History, first: History, h: History, bindings: map<BindingId, Binding>, events: seq<EventId>,
                    turns: seq<Turn>, replies: seq<Reply>)
    requires OnlyWrites(o, first) && h.Then? && h.prev.Then? && h.prev.prev.Then? && h.prev.prev.prev == first
      && DiskBindings(first) == bindings
    requires WritesEvents(h.prev.prev.act, events) && WritesTurns(h.prev.act, turns) && WritesReplies(h.act, replies)
    ensures OnlyWrites(o, h) && Stored(h, bindings, turns, events) == true && JustWritten(h, replies, events) == true
  {
    assert OpenStored(0);
    TurnsNext(o, first, h.prev, events, turns);
    FilesAre(h, Tail(events, DEDUP_LIMIT), Tail(turns, TURN_HISTORY_LIMIT), Tail(replies, REPLY_HISTORY_LIMIT));
    StoredIn(h, bindings, turns, events);
    assert JustWritten(h, replies, events);
  }
  lemma FilesAre(h: History, events: seq<EventId>, turns: seq<Turn>, replies: seq<Reply>)
    requires h.Then? && h.prev.Then? && h.prev.prev.Then?
    requires h.prev.prev.act == WroteDedup(events) && h.prev.act == WroteTurns(turns) && h.act == WroteReplies(replies)
    ensures DiskEvents(h) == events && DiskTurns(h) == turns && DiskReplies(h) == replies
      && DiskBindings(h) == DiskBindings(h.prev)
  {
    OtherFiles(h.prev.prev, h.prev.act);
    OtherFiles(h.prev, h.act);
  }
  lemma StoredIn(h: History, bindings: map<BindingId, Binding>, turns: seq<Turn>, events: seq<EventId>)
    requires DiskBindings(h) == bindings && DiskTurns(h) == Tail(turns, TURN_HISTORY_LIMIT)
      && DiskEvents(h) == Tail(events, DEDUP_LIMIT)
    ensures Stored(h, bindings, turns, events)
  {
    TailKeepsLast(events, DEDUP_LIMIT);
    TailMembers(turns, TURN_HISTORY_LIMIT);
  }
  /** The reply file was just written, and the event file with the events at hand. */
  ghost predicate JustWritten(h: History, replies: seq<Reply>, events: seq<EventId>) {
    forall k: int {:trigger OpenStored(k)} :: OpenStored(k) ==>
      DiskReplies(h) == Tail(replies, REPLY_HISTORY_LIMIT) && DiskEvents(h) == Tail(events, DEDUP_LIMIT)
  }
  /** The memory was trimmed: first the turns, then the replies. */
  ghost predicate TwiceDiscarded(p: History, h: History) {
    h.Then? && h.prev.Then? && h.prev.prev == p && h.act.Discarded? && h.prev.act.Discarded?
  }
  lemma StoredStill(p: History, h: History, bindings: map<BindingId, Binding>, turns: seq<Turn>, events: seq<EventId>)
    requires Stored(p, bindings, turns, events) == true && TwiceDiscarded(p, h)
    ensures Stored(h, bindings, turns, events)
  {
    assert OpenStored(0);
    OtherFiles(p, h.prev.act);
    OtherFiles(h.prev, h.act);
  }
  lemma DiscardsAreWrites(o: History, p: History, h: History)
    requires OnlyWrites(o, p) && TwiceDiscarded(p, h)
    ensures OnlyWrites(o, h)
  {}
  lemma StoredBindings(h: History, bindings: map<BindingId, Binding>, turns: seq<Turn>, events: seq<EventId>)
    requires Stored(h, bindings, turns, events)
    ensures DiskBindings(h) == bindings
  {
    assert OpenStored(0);
  }
  lemma StoredLast(h: History, bindings: map<BindingId, Binding>, turns: seq<Turn>, events: seq<EventId>)
    requires Stored(h, bindings, turns, events)
    ensures events != [] ==> events[|events| - 1] in DiskEvents(h)
  {
    assert OpenStored(0);
  }

  /** Only prepared notices were added. */
  ghost predicate NoticesAdded(was: seq<Reply>, now: seq<Reply>) {
    |was| <= |now| && now[..|was|] == was
    && forall i | |was| <= i < |now| :: NewNotice(was, now[i])
  }
  predicate NewNotice(was: seq<Reply>, r: Reply) {
    r.body.Notice? && r.status == ReplyStatus.Prepared && !HasReply(was, r.id)
  }
  lemma NoticeAdded(was: seq<Reply>, now: seq<Reply>, r: Reply)
    requires NoticesAdded(was, now) && r.body.Notice? && r.status == ReplyStatus.Prepared && !HasReply(now, r.id)
    ensures NoticesAdded(was, now + [r])
  {
    var all := now + [r];
    assert all[..|was|] == now[..|was|];
    KeysKept(was, now);
    forall i | |was| <= i < |all| ensures NewNotice(was, all[i]) {
      if i < |now| { assert all[i] == now[i]; }
    }
  }
  lemma KeysKept(was: seq<Reply>, now: seq<Reply>)
    requires |was| <= |now| && now[..|was|] == was
    ensures forall id | HasReply(was, id) :: HasReply(now, id)
  {
    forall id | HasReply(was, id) ensures HasReply(now, id) {
      var q :| q in was && ReplyKey(q) == id;
      var i :| 0 <= i < |was| && was[i] == q;
      assert now[i] == now[..|was|][i] && now[i] in now;
    }
  }

  predicate OpenReplies(k: int) { true }
  /** Nothing but new notices was added, and no prepared reply was lost. */
  ghost predicate Carried(was: seq<Reply>, now: seq<Reply>) {
    forall k: int {:trigger OpenReplies(k)} :: OpenReplies(k) ==>
      && (forall r | r in now :: r in was || NewNotice(was, r))
      && (forall r | r in was && r.status == ReplyStatus.Prepared :: r in now)
  }
  lemma CarriedAt(was: seq<Reply>, now: seq<Reply>, r: Reply)
    requires Carried(was, now)
    ensures r in was && r.status == ReplyStatus.Prepared ==> r in now
    ensures r in now && HasReply(was, r.id) ==> r in was
  {
    assert OpenReplies(0);
  }
  lemma CarriedByNotices(was: seq<Reply>, all: seq<Reply>)
    requires NoticesAdded(was, all)
    ensures Carried(was, all)
  {
    forall r | r in all ensures r in was || NewNotice(was, r) {
      var i :| 0 <= i < |all| && all[i] == r;
      if i < |was| { assert r == all[..|was|][i]; }
    }
    forall r | r in was ensures r in all {
      var i :| 0 <= i < |was| && was[i] == r;
      assert all[i] == all[..|was|][i];
    }
  }
  lemma CarriedTwice(a: seq<Reply>, b: seq<Reply>, c: seq<Reply>)
    requires NoticesAdded(a, b) && NoticesAdded(b, c)
    ensures Carried(a, c)
  {
    CarriedByNotices(a, b);
    CarriedByNotices(b, c);
    assert OpenReplies(0);
    forall r | r in c && r !in a ensures NewNotice(a, r) {
      if r !in b { KeysKept(a, b); }
    }
  }
  lemma CarriedByTrim(was: seq<Reply>, all: seq<Reply>)
    requires Carried(was, all)
    ensures Carried(was, TrimmedReplies(all))
  {
    assert OpenReplies(0);
    var keys := PreparedIds(all) + Keys(Tail(Omit(all, PreparedIds(all), ReplyKey), REPLY_HISTORY_LIMIT), ReplyKey);
    PickMembers(all, keys, ReplyKey);
    forall r | r in was && r.status == ReplyStatus.Prepared ensures r in TrimmedReplies(all) {
      assert ReplyKey(r) in PreparedIds(all);
    }
  }

  /** A lost turn counts as noticed; if its binding is linked, its notice is on record
      unless one was given before. */
  predicate TurnNoticed(t: Turn, bindings: map<BindingId, Binding>, before: set<TurnId>, after: set<TurnId>,
                        replies: seq<Reply>) {
    t.status.RecoveryRequired? ==>
      t.id in after && (t.id !in before && t.binding in bindings ==> HasReply(replies, TurnNotice(t.id)))
  }
  /** The same for a watch in doubt. */
  predicate WatchNoticed(b: BindingId, bindings: map<BindingId, Binding>, before: set<WatchId>, after: set<WatchId>,
                         replies: seq<Reply>) {
    b in bindings && Doubtful(bindings[b].watch) ==>
      && bindings[b].watch.value.id in after
      && (bindings[b].watch.value.id !in before ==> HasReply(replies, WatchNotice(bindings[b].watch.value.id)))
  }
  predicate OpenNotices(k: int) { true }
  ghost predicate Announced(turns: seq<Turn>, bindings: map<BindingId, Binding>, order: seq<BindingId>, before: Noticed,
                            after: Noticed, replies: seq<Reply>) {
    forall k: int {:trigger OpenNotices(k)} :: OpenNotices(k) ==>
      && (forall t | t in turns :: TurnNoticed(t, bindings, before.turns, after.turns, replies))
      && (forall b | b in order :: WatchNoticed(b, bindings, before.watches, after.watches, replies))
  }

  /** A notice about the turn is due: it is lost and not announced, and its binding is linked. */
  ghost predicate Due(turns: seq<Turn>, bindings: map<BindingId, Binding>, before: Noticed, id: TurnId) {
    id in LostTurnIds(turns) && id !in before.turns && id.binding in bindings
  }
  /** A notice about a turn is on record exactly if it was before, or it is due. */
  ghost predicate TurnNotices(turns: seq<Turn>, bindings: map<BindingId, Binding>, before: Noticed, was: seq<Reply>,
                              now: seq<Reply>) {
    forall k: int {:trigger OpenNotices(k)} :: OpenNotices(k) ==> forall id: TurnId ::
      HasReply(now, TurnNotice(id)) <==> HasReply(was, TurnNotice(id)) || Due(turns, bindings, before, id)
  }
  lemma LostGrows(turns: seq<Turn>, i: nat)
    requires i < |turns|
    ensures LostTurnIds(turns[..i + 1]) == LostTurnIds(turns[..i]) + if turns[i].status.RecoveryRequired? then {turns[i].id} else {}
  {
    assert turns[..i + 1] == turns[..i] + [turns[i]];
  }
  /** One more turn was looked at. */
  lemma TurnNoticesNext(turns: seq<Turn>, bindings: map<BindingId, Binding>, before: Noticed, was: seq<Reply>,
                        mid: seq<Reply>, now: seq<Reply>, i: nat)
    requires i < |turns| && TurnNotices(turns[..i], bindings, before, was, mid)
    requires forall id: TurnId :: HasReply(now, TurnNotice(id)) <==>
      (HasReply(mid, TurnNotice(id)) || (id == turns[i].id && id !in LostTurnIds(turns[..i]) && Due([turns[i]], bindings, before, id)))
    ensures TurnNotices(turns[..i + 1], bindings, before, was, now)
  {
    assert OpenNotices(0);
    LostGrows(turns, i);
    assert turns[i] in [turns[i]];
  }
  lemma TurnNoticesDone(turns: seq<Turn>, bindings: map<BindingId, Binding>, before: Noticed, after: Noticed,
                        was: seq<Reply>, now: seq<Reply>)
    requires TurnNotices(turns, bindings, before, was, now) && after.turns == before.turns + LostTurnIds(turns)
    ensures forall t | t in turns :: TurnNoticed(t, bindings, before.turns, after.turns, now)
  {
    assert OpenNotices(0);
  }
  lemma AddedArePrepared(was: seq<Reply>, now: seq<Reply>)
    requires NoticesAdded(was, now)
    ensures forall id :: id in PreparedIds(now) <==> id in PreparedIds(was) || (HasReply(now, id) && !HasReply(was, id))
  {
    CarriedByNotices(was, now);
    assert OpenReplies(0);
    forall id ensures id in PreparedIds(now) <==> id in PreparedIds(was) || (HasReply(now, id) && !HasReply(was, id)) {
      if HasReply(now, id) && !HasReply(was, id) {
        var r :| r in now && ReplyKey(r) == id;
        assert r in was ==> ReplyKey(r) in Keys(was, ReplyKey);
      }
      if id in PreparedIds(now) {
        var r :| r in now && r.status == ReplyStatus.Prepared && r.id == id;
        assert ReplyKey(r) == id && HasReply(now, id);
      }
    }
  }
  /** The notices about turns, then the notices about watches. */
  lemma NoticingIs(turns: seq<Turn>, bindings: map<BindingId, Binding>, before: Noticed, was: seq<Reply>,
                   mid: seq<Reply>, now: seq<Reply>)
    requires TurnNotices(turns, bindings, before, was, mid) && NoticesAdded(was, mid) && NoticesAdded(mid, now)
    requires forall id: TurnId :: HasReply(now, TurnNotice(id)) <==> HasReply(mid, TurnNotice(id))
    ensures Noticing(turns, bindings, before, was, now)
  {
    assert OpenNotices(0);
    AddedArePrepared(was, mid);
    AddedArePrepared(mid, now);
  }
  /** A notice about a turn is waiting to be sent exactly if it was before, or it is due and no
      record of one is left. */
  ghost predicate Noticing(turns: seq<Turn>, bindings: map<BindingId, Binding>, before: Noticed, was: seq<Reply>,
                           now: seq<Reply>) {
    forall k: int {:trigger OpenNotices(k)} :: OpenNotices(k) ==> forall id: TurnId ::
      TurnNotice(id) in PreparedIds(now) <==> TurnNotice(id) in PreparedIds(was) || (Due(turns, bindings, before, id) && !HasReply(was, TurnNotice(id)))
  }
  lemma NoticingTrimmed(turns: seq<Turn>, bindings: map<BindingId, Binding>, before: Noticed, was: seq<Reply>,
                        all: seq<Reply>, kept: seq<Reply>)
    requires Noticing(turns, bindings, before, was, all) && RepliesShortened(all, kept)
    ensures Noticing(turns, bindings, before, was, kept)
  {
    assert OpenLists(0);
    PreparedStay(all);
  }

  predicate OpenLists(k: int) { true }
  /** Live turns and prepared replies stay with the latest others, and the latest event ids. */
  ghost predicate ListsTrimmed(w: Work, w': Work) {
    forall k: int {:trigger OpenLists(k)} :: OpenLists(k) ==>
      w'.turns == TrimmedTurns(w.turns) && w'.replies == TrimmedReplies(w.replies) && w'.events == Tail(w.events, DEDUP_LIMIT)
  }

  /** What a successful persist makes of the lists: missing notices are added, then each
      list keeps what it must and its latest rest, and every prepared attempt is queued. */
  ghost predicate Trimmed(w: Work, w': Work, wasQueued: set<AttemptId>, queued: set<AttemptId>, bindings: map<BindingId,
                          Binding>, order: seq<BindingId>, before: Noticed, after: Noticed) {
    exists all :: Carried(w.replies, all) && Announced(w.turns, bindings, order, before, after, all)
      && ListsTrimmed(w.(replies := all, noticed := w'.noticed), w') && Queued(w'.replies, wasQueued, queued)
  }
  predicate OpenQueue(k: int) { true }
  /** Exactly the attempts that can be sent joined the queue. */
  ghost predicate Queued(replies: seq<Reply>, was: set<AttemptId>, queued: set<AttemptId>) {
    forall k: int {:trigger OpenQueue(k)} :: OpenQueue(k) ==> queued == was + Sendable(replies)
  }
  /** The attempts that can be sent. */
  function Sendable(replies: seq<Reply>): set<AttemptId> {
    set r | r in replies && r.status == ReplyStatus.Prepared && !r.body.Legacy? :: r.id
  }
  /** The event remembered last. */
  function Newest(events: seq<EventId>): Option<EventId> { if events == [] then None else Some(events[|events| - 1]) }
  lemma NewestStays(events: seq<EventId>, n: nat)
    requires 0 < n
    ensures Newest(Tail(events, n)) == Newest(events)
  {
    if events != [] { TailAt(events, n, |Tail(events, n)| - 1); }
  }

  ghost predicate TurnsShortened(a: seq<Turn>, b: seq<Turn>) {
    forall k: int {:trigger OpenLists(k)} :: OpenLists(k) ==> b == TrimmedTurns(a)
  }
  ghost predicate RepliesShortened(a: seq<Reply>, b: seq<Reply>) {
    forall k: int {:trigger OpenLists(k)} :: OpenLists(k) ==> b == TrimmedReplies(a)
  }
  ghost predicate TurnsDropped(a: seq<Turn>, b: seq<Turn>) {
    forall k: int {:trigger OpenLists(k)} :: OpenLists(k) ==> b == DroppedTurns(a)
  }
  ghost predicate RepliesDropped(a: seq<Reply>, b: seq<Reply>) {
    forall k: int {:trigger OpenLists(k)} :: OpenLists(k) ==> b == DroppedReplies(a)
  }
  lemma ListsTrimmedIs(w: Work, w': Work)
    requires TurnsShortened(w.turns, w'.turns) == true && RepliesShortened(w.replies, w'.replies) == true
      && w'.events == Tail(w.events, DEDUP_LIMIT)
    ensures ListsTrimmed(w, w') == true
  {
    assert OpenLists(0);
  }
  lemma ListsTrimmedAre(w: Work, w': Work)
    requires ListsTrimmed(w, w') == true
    ensures TurnsShortened(w.turns, w'.turns) == true && RepliesShortened(w.replies, w'.replies) == true
      && EventsShortened(w.events, w'.events) == true
  {
    assert OpenLists(0);
  }
  lemma TrimmedIs(was: Work, w: Work, w': Work, wasQueued: set<AttemptId>, queued: set<AttemptId>,
                  bindings: map<BindingId, Binding>, order: seq<BindingId>, before: Noticed, after: Noticed)
    requires ListsTrimmed(w, w') == true && was.turns == w.turns && was.events == w.events
      && Carried(was.replies, w.replies) == true
    requires w.failures == was.failures && w.inFlight == was.inFlight && w.stuck == was.stuck
    requires Announced(w.turns, bindings, order, before, after, w.replies) == true
      && Queued(w'.replies, wasQueued, queued) == true
    ensures Trimmed(was, w', wasQueued, queued, bindings, order, before, after)
    ensures Carried(was.replies, w'.replies) && Newest(w'.events) == Newest(w.events)
  {
    assert OpenLists(0);
    CarriedByTrim(was.replies, w.replies);
    NewestStays(w.events, DEDUP_LIMIT);
    assert w == was.(replies := w.replies, noticed := w.noticed);
  }

  lemma WorkingIs(turns: seq<Turn>, t: Turn)
    requires SingleLive(turns) && t in turns && Live(t.status)
    ensures Working(turns, t.binding) == Some(t)
  {
    assert Working(turns, t.binding).Some?;
    var i :| 0 <= i < |turns| && turns[i] == Working(turns, t.binding).value;
    var j :| 0 <= j < |turns| && turns[j] == t;
    assert !(i < j) && !(j < i);
  }

  lemma LiveIsWorking(h: History, process: nat, w: Work, t: Turn)
    requires WorkSound(h, process, w) && t in w.turns && Live(t.status)
    ensures Working(w.turns, t.binding) == Some(t)
  {
    assert OpenWork(0);
    WorkingIs(w.turns, t);
  }

  lemma TurnsSplit(turns: seq<Turn>)
    ensures forall t :: t in TrimmedTurns(turns) <==> t in turns && TurnKey(t) in KeptTurnKeys(turns)
    ensures forall t :: t in DroppedTurns(turns) <==> t in turns && TurnKey(t) !in KeptTurnKeys(turns)
  {
    PickMembers(turns, KeptTurnKeys(turns), TurnKey);
    OmitMembers(turns, KeptTurnKeys(turns), TurnKey);
  }
  /** Trimming changes nobody's live turn. */
  lemma TrimKeepsLive(turns: seq<Turn>)
    requires SingleLive(turns)
    ensures SameLive(turns, TrimmedTurns(turns)) && SingleLive(TrimmedTurns(turns))
  {
    var kept := TrimmedTurns(turns);
    PickSingleLive(turns, KeptTurnKeys(turns));
    TurnsSplit(turns);
    forall b ensures Working(kept, b) == Working(turns, b) {
      if Working(turns, b).Some? {
        var t := Working(turns, b).value;
        assert TurnKey(t) in LiveIds(turns);
        WorkingIs(kept, t);
      }
    }
  }
  /** The first record of a turn is dropped with all others of its id, or not at all. */
  lemma TrimServes(w: Work, t: TurnId)
    requires Served(w, t) && t !in Keys(DroppedTurns(w.turns), TurnKey)
    ensures Served(w.(turns := TrimmedTurns(w.turns)), t)
  {
    TurnsSplit(w.turns);
    var u := w.turns[FindTurn(w.turns, t).value];
    assert TurnKey(u) == t && u !in DroppedTurns(w.turns);
    FindTurnPicked(w.turns, KeptTurnKeys(w.turns), t);
  }
  /** Some turns leave the memory, each with all records of its id. */
  ghost predicate Thinned(w: Work, kept: seq<Turn>, dropped: seq<Turn>) {
    && SingleLive(kept) && (forall t | t in kept :: t in w.turns)
    && (forall t | Served(w, t) && t !in Keys(dropped, TurnKey) :: Served(w.(turns := kept), t))
  }
  lemma ThinnedAnswers(h: History, process: nat, w: Work, kept: seq<Turn>, dropped: seq<Turn>)
    requires AnswersTracked(h, process, w) && Thinned(w, kept, dropped)
    ensures AnswersTracked(Then(h, Discarded(dropped, [])), process, w.(turns := kept))
  {
    var next := Then(h, Discarded(dropped, []));
    forall r | r in w.replies && r.status == ReplyStatus.Prepared && r.id !in w.inFlight ensures Unspent(next, process, r.id) {
      assert Unspent(h, process, r.id);
    }
  }
  lemma ThinnedWork(h: History, process: nat, w: Work, kept: seq<Turn>, dropped: seq<Turn>)
    requires WorkSound(h, process, w) && Thinned(w, kept, dropped)
    ensures WorkSound(Then(h, Discarded(dropped, [])), process, w.(turns := kept))
  {
    assert OpenWork(0);
    var a := Discarded(dropped, []);
    OtherFiles(h, a);
    Unsent(h, process, w.replies, w.inFlight, a);
    ThinnedAnswers(h, process, w, kept, dropped);
    assert WorkParts(Then(h, a), process, w.(turns := kept));
  }
  lemma TrimThins(w: Work)
    requires SingleLive(w.turns)
    ensures Thinned(w, TrimmedTurns(w.turns), DroppedTurns(w.turns))
  {
    TrimKeepsLive(w.turns);
    TurnsSplit(w.turns);
    forall t | Served(w, t) && t !in Keys(DroppedTurns(w.turns), TurnKey) ensures Served(w.(turns := TrimmedTurns(w.turns)), t) {
      TrimServes(w, t);
    }
  }

  /** A reply that the trim drops was missing from the file just written. */
  lemma DroppedUnstored(replies: seq<Reply>, r: Reply)
    requires Unique(replies, ReplyKey) && r in replies && r !in TrimmedReplies(replies)
    ensures !HasReply(Tail(replies, REPLY_HISTORY_LIMIT), r.id) && r.status != ReplyStatus.Prepared
  {
    DroppedIsOld(replies, REPLY_HISTORY_LIMIT, PreparedIds(replies), ReplyKey, r);
  }

  lemma TrimUnsent(h: History, process: nat, replies: seq<Reply>, inFlight: set<AttemptId>)
    requires SendsTracked(h, process, replies, inFlight) && Unique(replies, ReplyKey)
    ensures SendsTracked(Then(h, Discarded([], DroppedReplies(replies))), process, TrimmedReplies(replies), inFlight)
  {
    TrimSplits(replies);
    var a := Discarded([], DroppedReplies(replies));
    forall id | SentBy(Then(h, a), process, id) ensures HasReply(TrimmedReplies(replies), id) {
      assert SentBy(h, process, id);
      var r :| r in replies && ReplyKey(r) == id;
      assert r !in DroppedReplies(replies);
      assert r in TrimmedReplies(replies);
    }
  }

  lemma TrimStored(h: History, replies: seq<Reply>)
    requires Unique(replies, ReplyKey) && RepliesStored(h, replies)
    requires DiskReplies(h) == Tail(replies, REPLY_HISTORY_LIMIT)
    ensures RepliesStored(h, TrimmedReplies(replies)) && Unique(TrimmedReplies(replies), ReplyKey)
  {
    PickUnique(replies, KeptKeys(replies), ReplyKey);
    TailReplies(replies, REPLY_HISTORY_LIMIT);
    TrimSplits(replies);
    forall d | d in DiskReplies(h) ensures HasReply(TrimmedReplies(replies), d.id) {
      assert ReplyKey(d) == d.id && HasReply(Tail(replies, REPLY_HISTORY_LIMIT), d.id);
      if d !in TrimmedReplies(replies) { DroppedUnstored(replies, d); }
    }
  }

  lemma PreparedStay(replies: seq<Reply>)
    ensures PreparedIds(TrimmedReplies(replies)) == PreparedIds(replies)
  {
    TrimSplits(replies);
    forall r | r in replies && r.status.Prepared? ensures r in TrimmedReplies(replies) {
      assert ReplyKey(r) in PreparedIds(replies);
    }
  }
  lemma RepliesTrimmed(h: History, process: nat, w: Work)
    requires WorkSound(h, process, w)
    requires DiskReplies(h) == Tail(w.replies, REPLY_HISTORY_LIMIT)
    ensures WorkSound(Then(h, Discarded([], DroppedReplies(w.replies))), process,
                      w.(replies := TrimmedReplies(w.replies)))
  {
    assert OpenWork(0);
    var a, less := Discarded([], DroppedReplies(w.replies)), w.(replies := TrimmedReplies(w.replies));
    TrimSplits(w.replies);
    TrimStored(h, w.replies);
    TrimUnsent(h, process, w.replies, w.inFlight);
    OtherFiles(h, a);
    forall t | AnsweredBy(h, process, t) ensures Served(less, t) { assert Served(w, t); }
    OtherAnswers(h, process, less, a);
    PreparedStay(w.replies);
    assert MayFollow(h, a);
    assert WorkParts(Then(h, a), process, less);
  }

  lemma EventsTrimmed(h: History, process: nat, w: Work)
    requires WorkSound(h, process, w) && DiskEvents(h) == Tail(w.events, DEDUP_LIMIT)
    ensures WorkSound(h, process, w.(events := Tail(w.events, DEDUP_LIMIT)))
  {
    assert OpenWork(0);
    TailNoDup(w.events, DEDUP_LIMIT);
    assert WorkParts(h, process, w.(events := Tail(w.events, DEDUP_LIMIT)));
  }

  // ----- how the lists move

  lemma TurnOrder(incoming: Option<TurnId>)
    ensures Orderly(TurnMove(incoming), Born(incoming)) && Orderly(ReplyMove, ReplyBorn)
  {}

  lemma MovesStart(o: Base)
    ensures Moved(o, o.turns, o.replies, o.history)
  {
    TurnOrder(o.incoming);
    Stays(o.turns, TurnMove(o.incoming), Born(o.incoming));
    Stays(o.replies, ReplyMove, ReplyBorn);
  }

  lemma MovesTurn(o: Base, turns: seq<Turn>, replies: seq<Reply>, h: History, i: nat, t: Turn)
    requires Moved(o, turns, replies, h) && i < |turns| && Progress(o.incoming, turns[i], t)
    ensures Moved(o, turns[i := t], replies, h)
  {
    assert OpenMoves(0);
    TurnOrder(o.incoming);
    Lineage.Moves(turns, i, t, TurnMove(o.incoming), Born(o.incoming));
    Composes(o.turns, turns, turns[i := t], TurnMove(o.incoming), Born(o.incoming));
  }

  lemma MovesTurnBorn(o: Base, turns: seq<Turn>, replies: seq<Reply>, h: History, t: Turn)
    requires Moved(o, turns, replies, h) && StartsFor(o.incoming, t)
    ensures Moved(o, turns + [t], replies, h)
  {
    assert OpenMoves(0);
    TurnOrder(o.incoming);
    Grows(turns, [t], TurnMove(o.incoming), Born(o.incoming));
    Composes(o.turns, turns, turns + [t], TurnMove(o.incoming), Born(o.incoming));
  }

  lemma MovesTurnsTrimmed(o: Base, turns: seq<Turn>, replies: seq<Reply>, h: History)
    requires Moved(o, turns, replies, h)
    ensures Moved(o, TrimmedTurns(turns), replies, Then(h, Discarded(DroppedTurns(turns), [])))
  {
    assert OpenMoves(0);
    TurnOrder(o.incoming);
    PickKeepsOrder(turns, KeptTurnKeys(turns), TurnKey, TurnMove(o.incoming), Born(o.incoming));
    Composes(o.turns, turns, TrimmedTurns(turns), TurnMove(o.incoming), Born(o.incoming));
    LaterDiffers(o.history, h, Discarded(DroppedTurns(turns), []));
  }

  lemma MovesReply(o: Base, turns: seq<Turn>, replies: seq<Reply>, h: History, i: nat, r: Reply)
    requires Moved(o, turns, replies, h) && i < |replies| && ReplyMove(replies[i], r)
    ensures Moved(o, turns, replies[i := r], h)
  {
    assert OpenMoves(0);
    TurnOrder(o.incoming);
    Lineage.Moves(replies, i, r, ReplyMove, ReplyBorn);
    Composes(o.replies, replies, replies[i := r], ReplyMove, ReplyBorn);
    forall q | q in o.replies ensures (exists x | x in replies[i := r] :: ReplyMove(q, x)) || LeftMemory(o.history, h, q) {
      if !LeftMemory(o.history, h, q) {
        var x :| x in replies && ReplyMove(q, x);
        var j :| 0 <= j < |replies| && replies[j] == x;
        assert replies[i := r][j] in replies[i := r] && ReplyMove(q, replies[i := r][j]);
      }
    }
  }

  lemma MovesReplyBorn(o: Base, turns: seq<Turn>, replies: seq<Reply>, h: History, r: Reply)
    requires Moved(o, turns, replies, h) && ReplyBorn(r)
    ensures Moved(o, turns, replies + [r], h)
  {
    assert OpenMoves(0);
    TurnOrder(o.incoming);
    Grows(replies, [r], ReplyMove, ReplyBorn);
    Composes(o.replies, replies, replies + [r], ReplyMove, ReplyBorn);
    forall q | q in o.replies ensures (exists x | x in replies + [r] :: ReplyMove(q, x)) || LeftMemory(o.history, h, q) {
      if !LeftMemory(o.history, h, q) {
        var x :| x in replies && ReplyMove(q, x);
        assert x in replies + [r];
      }
    }
  }

  lemma MovesRepliesTrimmed(o: Base, turns: seq<Turn>, replies: seq<Reply>, h: History)
    requires Moved(o, turns, replies, h)
    ensures Moved(o, turns, TrimmedReplies(replies), Then(h, Discarded([], DroppedReplies(replies))))
  {
    assert OpenMoves(0);
    TurnOrder(o.incoming);
    PickKeepsOrder(replies, KeptKeys(replies), ReplyKey, ReplyMove, ReplyBorn);
    Composes(o.replies, replies, TrimmedReplies(replies), ReplyMove, ReplyBorn);
    TrimSplits(replies);
    var next := Then(h, Discarded([], DroppedReplies(replies)));
    LaterDiffers(o.history, h, Discarded([], DroppedReplies(replies)));
    forall q | q in o.replies ensures (exists x | x in TrimmedReplies(replies) :: ReplyMove(q, x)) || LeftMemory(o.history, next, q) {
      if !LeftMemory(o.history, h, q) {
        var x :| x in replies && ReplyMove(q, x);
        assert x in TrimmedReplies(replies) || x in DroppedReplies(replies);
      }
    }
  }

  lemma MovesAct(o: Base, turns: seq<Turn>, replies: seq<Reply>, h: History, a: Act)
    requires Moved(o, turns, replies, h)
    ensures Moved(o, turns, replies, Then(h, a))
  {
    assert OpenMoves(0);
    LaterDiffers(o.history, h, a);
  }
  function Length(h: History): nat { if h.Start? then 0 else Length(h.prev) + 1 }
  lemma {:induction false} LaterIsLonger(p: History, h: History)
    requires Earlier(p, h)
    ensures Length(p) <= Length(h)
  {
    if p != h { LaterIsLonger(p, h.prev); }
  }
  lemma LaterDiffers(p: History, h: History, a: Act)
    requires Earlier(p, h)
    ensures p != Then(h, a)
  {
    LaterIsLonger(p, h);
  }

  /** The trim of the replies keeps everything sound. */
  lemma TrimSound(o: Base, h: History, process: nat, bindings: map<BindingId, Binding>, leases: map<BindingId, Lease>,
                  w: Work,
                  kept: seq<Reply>, dropped: seq<Reply>)
    requires WorkSound(h, process, w) == true && BindingsSound(h, process, bindings, leases) == true
      && Moved(o, w.turns, w.replies, h) == true
    requires NoticesSound(h, process, bindings, w.replies, w.noticed) == true
    requires JustWritten(h, w.replies, w.events) == true
    requires RepliesShortened(w.replies, kept) && RepliesDropped(w.replies, dropped)
    ensures var next := Then(h, Discarded([], dropped));
      && WorkSound(next, process, w.(replies := kept)) == true
      && BindingsSound(next, process, bindings, leases) == true
      && NoticesSound(next, process, bindings, kept, w.noticed) == true
      && Moved(o, w.turns, kept, next) == true
      && DiskEvents(next) == Tail(w.events, DEDUP_LIMIT)
  {
    assert OpenLists(0) && OpenStored(0);
    var a := Discarded([], DroppedReplies(w.replies));
    RepliesTrimmed(h, process, w);
    MovesRepliesTrimmed(o, w.turns, w.replies, h);
    Unwatched(h, a, process, bindings, leases);
    NoticesAct(h, a, process, bindings, w.replies, w.noticed);
    TrimSplits(w.replies);
    NoticesFewer(Then(h, a), process, bindings, w.replies, w.noticed, kept);
    OtherFiles(h, a);
  }
  /** So does the trim of the turns. */
  lemma TurnsTrimSound(o: Base, h: History, process: nat, bindings: map<BindingId, Binding>, leases: map<BindingId,
                       Lease>, w: Work,
                       kept: seq<Turn>, dropped: seq<Turn>)
    requires WorkSound(h, process, w) == true && BindingsSound(h, process, bindings, leases) == true
      && Moved(o, w.turns, w.replies, h) == true
    requires NoticesSound(h, process, bindings, w.replies, w.noticed) == true
    requires JustWritten(h, w.replies, w.events) == true
    requires TurnsShortened(w.turns, kept) && TurnsDropped(w.turns, dropped)
    ensures var next := Then(h, Discarded(dropped, []));
      && WorkSound(next, process, w.(turns := kept)) == true
      && BindingsSound(next, process, bindings, leases) == true
      && NoticesSound(next, process, bindings, w.replies, w.noticed) == true
      && Moved(o, kept, w.replies, next) == true && SameLive(w.turns, kept) == true
      && JustWritten(next, w.replies, w.events) == true
  {
    assert OpenLists(0) && OpenStored(0);
    var a := Discarded(DroppedTurns(w.turns), []);
    LiveOnce(h, process, w);
    TrimThins(w);
    ThinnedWork(h, process, w, kept, dropped);
    TrimKeepsLive(w.turns);
    MovesTurnsTrimmed(o, w.turns, w.replies, h);
    Unwatched(h, a, process, bindings, leases);
    NoticesAct(h, a, process, bindings, w.replies, w.noticed);
    OtherFiles(h, a);
  }
  lemma LiveOnce(h: History, process: nat, w: Work)
    requires WorkSound(h, process, w)
    ensures SingleLive(w.turns)
  {
    assert OpenWork(0);
  }

  // ----- what a persist leaves alone

  predicate OpenCalm(k: int) { true }
  /** No notice is due. */
  ghost predicate Calm(turns: seq<Turn>, bindings: map<BindingId, Binding>) {
    forall k: int {:trigger OpenCalm(k)} :: OpenCalm(k) ==>
      (forall t | t in turns :: !t.status.RecoveryRequired?) && forall b | b in bindings :: !Doubtful(bindings[b].watch)
  }
  lemma NotCalm(turns: seq<Turn>, bindings: map<BindingId, Binding>, t: Turn)
    requires t in turns && t.status.RecoveryRequired?
    ensures !Calm(turns, bindings)
  {
    assert OpenCalm(0);
  }
  lemma DoubtIsNotCalm(turns: seq<Turn>, bindings: map<BindingId, Binding>, b: BindingId)
    requires b in bindings && Doubtful(bindings[b].watch)
    ensures !Calm(turns, bindings)
  {
    assert OpenCalm(0);
  }
  lemma CalmAt(turns: seq<Turn>, bindings: map<BindingId, Binding>)
    requires Calm(turns, bindings)
    ensures (forall t | t in turns :: !t.status.RecoveryRequired?) && forall b | b in bindings :: !Doubtful(bindings[b].watch)
  {
    assert OpenCalm(0);
  }
  /** Neither list is so long that the trim takes something out. */
  ghost predicate Short(turns: seq<Turn>, replies: seq<Reply>) {
    forall k: int {:trigger OpenCalm(k)} :: OpenCalm(k) ==> TrimmedTurns(turns) == turns && TrimmedReplies(replies) == replies
  }
  lemma ShortStays(turns: seq<Turn>, replies: seq<Reply>, turns': seq<Turn>, replies': seq<Reply>)
    requires Short(turns, replies) && TurnsShortened(turns, turns') && RepliesShortened(replies, replies')
    ensures turns' == turns && replies' == replies
  {
    assert OpenCalm(0) && OpenLists(0);
  }
  ghost predicate EventsShortened(a: seq<EventId>, b: seq<EventId>) {
    forall k: int {:trigger OpenLists(k)} :: OpenLists(k) ==> b == Tail(a, DEDUP_LIMIT)
  }

  /** The turns with the live one of `b` changed. */
  function Renewed(turns: seq<Turn>, b: BindingId, t: Turn): seq<Turn> {
    var i := ActiveTurn(turns, b);
    if i.Some? then turns[i.value := t] else turns
  }
  lemma {:induction false} RenewedLast(turns: seq<Turn>, t: Turn, u: Turn)
    requires NoLive(turns, t.binding) && Live(t.status)
    ensures Renewed(turns + [t], t.binding, u) == turns + [u]
  {
    var all := turns + [t];
    if turns != [] {
      assert all[1..] == turns[1..] + [t] && turns[0] in turns && forall x | x in turns[1..] :: x in turns;
      RenewedLast(turns[1..], t, u);
      assert Renewed(all[1..], t.binding, u)[0..] == turns[1..] + [u];
      ActiveLast(turns[1..], t);
      assert ActiveTurn(all, t.binding) == Some(|turns|);
    } else {
      assert ActiveTurn(all, t.binding) == Some(0);
    }
  }
  lemma {:induction false} ActiveLast(turns: seq<Turn>, t: Turn)
    requires NoLive(turns, t.binding) && Live(t.status)
    ensures ActiveTurn(turns + [t], t.binding) == Some(|turns|)
  {
    if turns != [] {
      assert (turns + [t])[1..] == turns[1..] + [t] && turns[0] in turns && forall x | x in turns[1..] :: x in turns;
      ActiveLast(turns[1..], t);
    }
  }

  predicate OpenNext(k: int) { true }
  /** The turn `t` was started and became `u`, and nothing else changed in the lists. */
  ghost predicate Starts(turns: seq<Turn>, replies: seq<Reply>, bindings: map<BindingId, Binding>, turns': seq<Turn>,
                         replies': seq<Reply>, t: Turn, u: Turn) {
    forall k: int {:trigger OpenNext(k)} :: OpenNext(k) ==>
      (Calm(turns + [t], bindings) && Calm(turns + [u], bindings) && Short(turns + [t], replies) && Short(turns + [u], replies) ==>
        turns' == turns + [u] && replies' == replies)
  }
  lemma StartsIf(turns: seq<Turn>, replies: seq<Reply>, bindings: map<BindingId, Binding>, bindings': map<BindingId,
                 Binding>, t: Turn, u: Turn,
                 turns1: seq<Turn>, replies1: seq<Reply>, turns2: seq<Turn>, replies2: seq<Reply>)
    requires NoLive(turns, t.binding) && Live(t.status) && CalmAfter(turns + [u], bindings, bindings')
    requires Calm(turns + [t], bindings) ==> TurnsShortened(turns + [t], turns1) && RepliesShortened(replies, replies1)
    requires Calm(Renewed(turns1, t.binding, u), bindings') ==>
      TurnsShortened(Renewed(turns1, t.binding, u), turns2) && RepliesShortened(replies1, replies2)
    ensures Starts(turns, replies, bindings, turns2, replies2, t, u)
  {
    if Calm(turns + [t], bindings) && Calm(turns + [u], bindings) && Short(turns + [t], replies) && Short(turns + [u], replies) {
      ShortStays(turns + [t], replies, turns1, replies1);
      RenewedLast(turns, t, u);
      ShortStays(turns + [u], replies, turns2, replies2);
    }
  }
  /** What is calm for these bindings is so for those. */
  ghost predicate CalmAfter(turns: seq<Turn>, bindings: map<BindingId, Binding>, bindings': map<BindingId, Binding>) {
    Calm(turns, bindings) ==> Calm(turns, bindings')
  }
  lemma StillCalm(turns: seq<Turn>, bindings: map<BindingId, Binding>, bindings': map<BindingId, Binding>, b: BindingId)
    requires Calm(turns, bindings) && bindings' - {b} == bindings - {b}
      && (b in bindings' ==> !Doubtful(bindings'[b].watch))
    ensures Calm(turns, bindings')
  {
    CalmAt(turns, bindings);
    forall c | c in bindings' ensures !Doubtful(bindings'[c].watch) {
      if c != b { assert c in bindings' - {b} && c in bindings - {b}; }
    }
  }
  lemma CancelledIsCalm(turns: seq<Turn>, bindings: map<BindingId, Binding>, b: BindingId)
    requires b in bindings
    ensures CalmAfter(turns, bindings,
                      bindings[b := bindings[b].(watch := Ended(bindings[b].watch, WatchStatus.Cancelled))])
  {
    if Calm(turns, bindings) { CalmAt(turns, bindings); }
  }
  lemma EventsShortenedTwice(a: seq<EventId>, b: seq<EventId>, c: seq<EventId>)
    requires EventsShortened(a, b) && EventsShortened(b, c)
    ensures EventsShortened(a, c)
  {
    assert OpenLists(0);
  }

  /** The live turn of `b` is replying with `r`, which is queued, and nothing else changed in the lists. */
  ghost predicate Answers(turns: seq<Turn>, replies: seq<Reply>, bindings: map<BindingId, Binding>, turns': seq<Turn>,
                          replies': seq<Reply>,
                          queued: set<AttemptId>, b: BindingId, u: Turn, r: Reply) {
    forall k: int {:trigger OpenNext(k)} :: OpenNext(k) ==>
      (!HasReply(replies, r.id) && Calm(Renewed(turns, b, u), bindings) && Short(Renewed(turns, b, u), replies + [r]) ==>
        turns' == Renewed(turns, b, u) && replies' == replies + [r] && r.id in queued)
  }
  lemma AnswersIf(turns: seq<Turn>, replies: seq<Reply>, bindings: map<BindingId, Binding>, turns': seq<Turn>,
                  replies': seq<Reply>,
                  queued: set<AttemptId>, was: set<AttemptId>, b: BindingId, u: Turn, r: Reply, pushed: seq<Reply>)
    requires pushed == if HasReply(replies, r.id) then replies else replies + [r]
    requires r.status.Prepared? && !r.body.Legacy? && Queued(replies', was, queued)
    requires Calm(Renewed(turns, b, u), bindings) ==>
      TurnsShortened(Renewed(turns, b, u), turns') && RepliesShortened(pushed, replies')
    ensures Answers(turns, replies, bindings, turns', replies', queued, b, u, r)
  {
    if !HasReply(replies, r.id) && Calm(Renewed(turns, b, u), bindings) && Short(Renewed(turns, b, u), replies + [r]) {
      ShortStays(Renewed(turns, b, u), replies + [r], turns', replies');
      assert OpenQueue(0);
      assert r in replies';
    }
  }

  // ----- leases whose renewal is under way

  predicate OpenRenewals(k: int) { true }
  /** Every lease that went out for renewal was held by this process for its binding. */
  ghost predicate RenewalsSound(process: nat, bindings: map<BindingId, Binding>, renewals: set<Lease>) {
    forall k: int {:trigger OpenRenewals(k)} :: OpenRenewals(k) ==> forall l | l in renewals ::
      && l.owner.kind.Feishu? && l.owner.instance.ForBinding? && l.owner.instance.process == process
      && (l.owner.instance.binding in bindings ==> l.target == bindings[l.owner.instance.binding].target)
  }

  lemma RenewalsKept(process: nat, bindings: map<BindingId, Binding>, renewals: set<Lease>, b: BindingId, y: Binding)
    requires RenewalsSound(process, bindings, renewals)
    requires if b in bindings then y.target == bindings[b].target else forall l | l in renewals :: l.owner != Owner(Feishu, ForBinding(b, process))
    ensures RenewalsSound(process, bindings[b := y], renewals)
  {
    assert OpenRenewals(0);
  }
  lemma RenewalsLeft(process: nat, bindings: map<BindingId, Binding>, renewals: set<Lease>, b: BindingId)
    requires RenewalsSound(process, bindings, renewals)
    ensures RenewalsSound(process, bindings - {b}, renewals)
  {
    assert OpenRenewals(0);
  }
  lemma RenewalAdded(h: History, process: nat, bindings: map<BindingId, Binding>, leases: map<BindingId, Lease>,
                     renewals: set<Lease>, b: BindingId)
    requires RenewalsSound(process, bindings, renewals) && BindingsSound(h, process, bindings, leases) && b in leases
    ensures RenewalsSound(process, bindings, renewals + {leases[b]})
  {
    assert OpenRenewals(0);
    LeaseOwn(h, process, bindings, leases, b);
  }
  lemma RenewalTarget(process: nat, bindings: map<BindingId, Binding>, renewals: set<Lease>, b: BindingId, l: Lease)
    requires RenewalsSound(process, bindings, renewals) && l in renewals
      && l.owner == Owner(Feishu, ForBinding(b, process)) && b in bindings
    ensures l.target == bindings[b].target
  {
    assert OpenRenewals(0);
  }

  // ----- closing and restarting

  lemma LeasesCleared(h: History, process: nat, bindings: map<BindingId, Binding>, leases: map<BindingId, Lease>)
    requires BindingsSound(h, process, bindings, leases)
    ensures BindingsSound(h, process, bindings, map[])
  {
    assert OpenBindings(0);
    assert BindingParts(h, process, bindings, map[]);
  }

  /** A stored binding as a new process sees it: nothing is owned, and a card that was
      being sent is in doubt. */
  function Woken(x: Binding): (y: Binding)
    ensures !Owning(y.status) && y.chat == x.chat && y.target == x.target
    ensures y.watch.Some? <==> x.watch.Some?
    ensures y.watch.Some? ==>
      && y.watch.value.id == x.watch.value.id
      && y.watch.value.source == x.watch.value.source
      && !y.watch.value.status.Sending?
    ensures y.watch.Some? && Told(x.watch.value.status) ==> y.watch == x.watch
  {
    var awake := if Owning(x.status) then x.(status := Stale) else x;
    if x.watch.Some? && x.watch.value.status.Sending? then awake.(watch := Some(x.watch.value.(status := WatchStatus.Uncertain))) else awake
  }
  function AllWoken(bindings: map<BindingId, Binding>): map<BindingId, Binding> {
    map b | b in bindings :: Woken(bindings[b])
  }

  lemma RestartBindings(h: History, process: nat)
    requires Lawful(h)
    ensures BindingsSound(Then(h, Woke(process)), process, AllWoken(DiskBindings(h)), map[])
  {
    DiskFit(h);
    var all, next := AllWoken(DiskBindings(h)), Then(h, Woke(process));
    forall b | b in all && all[b].watch.Some? ensures Recalls(next, all[b].watch.value) {
      StoredIs(DiskBindings(h), b);
    }
    forall b | b in all ensures BindingTracked(next, all[b]) {}
    assert BindingParts(next, process, all, map[]);
  }
  lemma StoredIs(bindings: map<BindingId, Binding>, b: BindingId)
    requires WatchesDistinct(bindings) && b in bindings && bindings[b].watch.Some?
    ensures StoredSource(bindings, bindings[b].watch.value.id) == SourceId(bindings[b].watch.value)
  {
    var w := bindings[b].watch.value;
    if exists s :: KnowsSource(bindings, w.id, s) {
      forall s: nat | KnowsSource(bindings, w.id, s) ensures SourceId(w) == Some(s) {
        var c :| c in bindings && bindings[c].watch.Some? && bindings[c].watch.value.id == w.id
          && bindings[c].watch.value.source.Some? && bindings[c].watch.value.source.value.id == s;
        assert c == b;
      }
    } else if w.source.Some? {
      assert KnowsSource(bindings, w.id, w.source.value.id);
    }
  }
  /** The turn's reply is stored whole and still to be delivered. */
  predicate ReplyWaits(t: Turn, replies: seq<Reply>) {
    t.status.Replying? && exists r | r in replies :: r.id == ReplyTo(t.id) && r.status.Prepared? && !r.body.Legacy?
  }
  /** What a new process makes of a stored turn: one under way is lost, unless its reply still waits. */
  predicate RecoveredTurn(x: Turn, y: Turn, replies: seq<Reply>) {
    if Live(x.status) && !ReplyWaits(x, replies) then y.id == x.id && y.status.RecoveryRequired? else y == x
  }
  predicate Recovered(file: seq<Turn>, turns: seq<Turn>, replies: seq<Reply>) {
    |turns| == |file| && forall k | 0 <= k < |file| :: RecoveredTurn(file[k], turns[k], replies)
  }
  /** The turns still live are stored ones whose reply waits. */
  lemma RecoveredLive(file: seq<Turn>, turns: seq<Turn>, replies: seq<Reply>)
    requires Recovered(file, turns, replies)
    ensures forall t | t in turns && Live(t.status) :: t in file && ReplyWaits(t, replies)
    ensures SingleLive(file) ==> SingleLive(turns)
    ensures UnderWay(turns, replies, {})
  {
    forall t | t in turns && Live(t.status) ensures t in file && ReplyWaits(t, replies) {
      var k :| 0 <= k < |turns| && turns[k] == t;
      assert RecoveredTurn(file[k], turns[k], replies);
    }
    forall i, j | 0 <= i < j < |turns| && Live(turns[i].status) && Live(turns[j].status) && SingleLive(file)
      ensures turns[i].binding != turns[j].binding {
      assert RecoveredTurn(file[i], turns[i], replies) && RecoveredTurn(file[j], turns[j], replies);
    }
  }
  function WorkOnFile(h: History, turns: seq<Turn>): Work {
    Work(turns, DiskReplies(h), DiskEvents(h), map[], {}, AnnouncedOnFile(h), {})
  }
  lemma RestartWork(h: History, process: nat, turns: seq<Turn>)
    requires Lawful(h) && SentUpTo(h, process) && Recovered(DiskTurns(h), turns, DiskReplies(h))
    ensures WorkSound(Then(h, Woke(process + 1)), process + 1, WorkOnFile(h, turns))
  {
    DiskFit(h);
    FilesRepeat(h);
    RecoveredLive(DiskTurns(h), turns, DiskReplies(h));
    var w, n, next := WorkOnFile(h, turns), process + 1, Then(h, Woke(process + 1));
    forall d, r | d in w.replies && r in w.replies && r.id == d.id ensures r.body == d.body {
      SameReply(w.replies, r, d);
    }
    forall d | d in w.replies ensures HasReply(w.replies, d.id) { assert ReplyKey(d) == d.id; }
    forall id ensures !EverSent(next, n, id) && !SentBy(next, n, id) && (id.ReplyTo? ==> !Replied(next, n, id.turn) && !AnsweredBy(next, n, id.turn)) {
      if EverSent(h, n, id) { SentByPast(h, process, n, id); }
      SentIsEver(next, n, id);
    }
    forall t: TurnId ensures !Replied(next, n, t) && !AnsweredBy(next, n, t) {
      assert !Replied(next, n, ReplyTo(t).turn);
    }
    SentUpToEarlier(h, h, process, n);
    assert AnswersTracked(next, n, w);
    assert WorkParts(next, n, w);
  }
  lemma RestartNotices(h: History, process: nat)
    requires Lawful(h) && SentUpTo(h, process)
    ensures NoticesSound(Then(h, Woke(process + 1)), process + 1, AllWoken(DiskBindings(h)), DiskReplies(h),
                         AnnouncedOnFile(h))
  {
    DiskFit(h);
    var disk, all, next := DiskBindings(h), AllWoken(DiskBindings(h)), Then(h, Woke(process + 1));
    forall w ensures !EverSent(next, process + 1, WatchNotice(w)) {
      if EverSent(h, process + 1, WatchNotice(w)) { SentByPast(h, process, process + 1, WatchNotice(w)); }
    }
    forall w | HasReply(DiskReplies(h), WatchNotice(w))
      ensures AllTold(all, w) && (w in AnnouncedOnFile(h).watches || Arrived(all, w)) {
      assert AllTold(disk, w);
      forall b | b in all && all[b].watch.Some? && all[b].watch.value.id == w
        ensures Told(all[b].watch.value.status) && (w in AnnouncedOnFile(h).watches || all[b].watch.value.status.Sent?) {
        assert Told(disk[b].watch.value.status);
        if Doubtful(disk[b].watch) { assert disk[b].watch.value.id in DoubtfulWatches(disk); }
      }
    }
    assert ToldParts(next, process + 1, all, DiskReplies(h), AnnouncedOnFile(h));
  }
  lemma RestartSound(h: History, process: nat, turns: seq<Turn>)
    requires Lawful(h) && SentUpTo(h, process) && Recovered(DiskTurns(h), turns, DiskReplies(h))
    ensures BindingsSound(Then(h, Woke(process + 1)), process + 1, AllWoken(DiskBindings(h)), map[])
    ensures WorkSound(Then(h, Woke(process + 1)), process + 1, WorkOnFile(h, turns))
    ensures NoticesSound(Then(h, Woke(process + 1)), process + 1, AllWoken(DiskBindings(h)), DiskReplies(h),
                         AnnouncedOnFile(h))
    ensures RenewalsSound(process + 1, AllWoken(DiskBindings(h)), {})
  {
    RestartNotices(h, process);
    RestartBindings(h, process + 1);
    RestartWork(h, process, turns);
  }

  lemma CutSound(h: History, process: nat, w: Work, cut: History)
    requires WorkSound(h, process, w) && Earlier(cut, h)
    ensures Lawful(cut) && SentUpTo(cut, process)
  {
    assert OpenWork(0);
    LawfulEarlier(cut, h);
    SentUpToEarlier(cut, h, process, process);
  }
}
