/** Runs in which an event is delivered once more after 4096 others. In one of them the process
    sends the reply to one turn twice; in the other the turn waits for its reply in vain. */
module BridgeRepeat {
  import opened Basics
  import opened BridgeTypes
  import opened BridgeHistory
  import opened BridgeInvariant
  import opened Bridge
  import opened BridgeRuns
  import opened BridgeCases
  import opened Retention

  const TEXT: Text := 5
  const QUIET: Watch := Watch(WATCH, WatchStatus.Cancelled, 1, 1, 1, 1, None, None, None)
  const BOUND: Binding := Binding(3, TARGET, 1, Topic, Active, Some(QUIET), None)
  const NOTHING: Answer<View> := Threw(Fault(true, false, OtherCode, false))
  const NO_HANDOFF: HandoffAnswers := HandoffAnswers(NOTHING, Threw(NOTHING.fault), NOTHING, WHOLE, WHOLE, WHOLE)
  const TAKEN: Receipt := Receipt(true, 1, 1, 1, true)

  /** The turn of an event, from its input to the arrival of its reply. */
  function Fresh(e: EventId): Turn { NewTurn(0, e, 0, TARGET, 1, LeaseFor(1, 1), 0) }
  function Waiting(e: EventId): Turn { Accepted(Fresh(e), TAKEN) }
  function Speaking(e: EventId): Turn { Waiting(e).(status := TurnStatus.Replying) }
  function Done(e: EventId): Turn { Waiting(e).(status := TurnStatus.Completed, completedAt := Some(0)) }
  function Attempt(e: EventId): AttemptId { ReplyTo(TurnId(0, e)) }
  function Card(e: EventId): Reply {
    Reply(Attempt(e), ReplyBody(Waiting(e), BOUND, TEXT, FinalCompleted), ReplyStatus.Prepared)
  }
  function Landed(e: EventId): Reply { Card(e).(status := ReplyStatus.Sent) }

  /** Finished turns and sent replies of different events, none of them `e`. */
  ghost predicate Past(turns: seq<Turn>, replies: seq<Reply>, e: EventId) {
    && |turns| <= TURN_HISTORY_LIMIT && |replies| <= REPLY_HISTORY_LIMIT
    && (forall t | t in turns :: t.status.Completed? && t.id != TurnId(0, e))
    && (forall r | r in replies :: r.status.Sent? && r.id != Attempt(e))
    && Unique(turns, TurnKey) && Unique(replies, ReplyKey)
  }

  // ----- the lists in one round

  lemma OthersOf(turns: seq<Turn>, t: Turn)
    requires |turns| <= TURN_HISTORY_LIMIT && Live(t.status)
    ensures TrimmedTurns(turns + [t]) == turns + [t]
  {
    var all := turns + [t];
    assert t in all && TurnKey(t) in LiveIds(all);
    OmitLast(turns, t, LiveIds(all), TurnKey);
    OmitShort(turns, LiveIds(all), TurnKey);
    RetainedShort(all, TURN_HISTORY_LIMIT, LiveIds(all), TurnKey);
  }
  lemma OtherReplies(replies: seq<Reply>)
    requires |replies| <= REPLY_HISTORY_LIMIT
    ensures TrimmedReplies(replies) == replies
  {
    OmitShort(replies, PreparedIds(replies), ReplyKey);
    RetainedShort(replies, REPLY_HISTORY_LIMIT, PreparedIds(replies), ReplyKey);
  }
  lemma OtherRepliesOf(replies: seq<Reply>, r: Reply)
    requires |replies| <= REPLY_HISTORY_LIMIT && r.status.Prepared?
    ensures TrimmedReplies(replies + [r]) == replies + [r]
  {
    var all := replies + [r];
    assert r in all && ReplyKey(r) in PreparedIds(all);
    OmitLast(replies, r, PreparedIds(all), ReplyKey);
    OmitShort(replies, PreparedIds(all), ReplyKey);
    RetainedShort(all, REPLY_HISTORY_LIMIT, PreparedIds(all), ReplyKey);
  }
  lemma ShortTurns(turns: seq<Turn>, t: Turn, replies: seq<Reply>)
    requires |turns| <= TURN_HISTORY_LIMIT && Live(t.status) && |replies| <= REPLY_HISTORY_LIMIT
    ensures Short(turns + [t], replies)
  {
    OthersOf(turns, t);
    OtherReplies(replies);
  }
  lemma ShortBoth(turns: seq<Turn>, t: Turn, replies: seq<Reply>, r: Reply)
    requires |turns| <= TURN_HISTORY_LIMIT && Live(t.status) && |replies| <= REPLY_HISTORY_LIMIT && r.status.Prepared?
    ensures Short(turns + [t], replies + [r])
  {
    OthersOf(turns, t);
    OtherRepliesOf(replies, r);
  }
  /** While the event is worked on, no notice is due and the trim takes nothing out. */
  lemma RoundIsQuiet(turns: seq<Turn>, replies: seq<Reply>, e: EventId)
    requires Past(turns, replies, e)
    ensures NoLive(turns, 0) && !HasReply(replies, Attempt(e))
    ensures forall t | t in [Fresh(e), Waiting(e), Speaking(e), Done(e)] :: Calm(turns + [t], map[0 := BOUND])
    ensures Short(turns + [Fresh(e)], replies) && Short(turns + [Waiting(e)], replies)
      && Short(turns + [Speaking(e)], replies + [Card(e)])
  {
    ShortTurns(turns, Fresh(e), replies);
    ShortTurns(turns, Waiting(e), replies);
    ShortBoth(turns, Speaking(e), replies, Card(e));
    forall t | t in [Fresh(e), Waiting(e), Speaking(e), Done(e)] ensures Calm(turns + [t], map[0 := BOUND]) {
      CalmWith(turns, t);
    }
    NotThere(replies, e);
  }
  lemma CalmWith(turns: seq<Turn>, t: Turn)
    requires (forall u | u in turns :: u.status.Completed?) && !t.status.RecoveryRequired?
    ensures Calm(turns + [t], map[0 := BOUND])
  {}
  lemma NotThere(replies: seq<Reply>, e: EventId)
    requires forall r | r in replies :: r.id != Attempt(e)
    ensures !HasReply(replies, Attempt(e))
  {}
  /** Once it is done, the latest turns and replies stay. */
  lemma RoundIsTrimmed(turns: seq<Turn>, replies: seq<Reply>, e: EventId)
    requires Past(turns, replies, e)
    ensures TrimmedTurns(turns + [Done(e)]) == Tail(turns + [Done(e)], TURN_HISTORY_LIMIT)
    ensures TrimmedReplies(replies + [Landed(e)]) == Tail(replies + [Landed(e)], REPLY_HISTORY_LIMIT)
  {
    var all, sent := turns + [Done(e)], replies + [Landed(e)];
    assert LiveIds(all) == {} && PreparedIds(sent) == {};
    RetainedLatest(all, TURN_HISTORY_LIMIT, TurnKey);
    RetainedLatest(sent, REPLY_HISTORY_LIMIT, ReplyKey);
  }
  lemma {:induction false} FoundLast(turns: seq<Turn>, t: Turn)
    requires forall u | u in turns :: u.id != t.id
    ensures FindTurn(turns + [t], t.id) == Some(|turns|)
  {
    if turns != [] {
      assert (turns + [t])[1..] == turns[1..] + [t] && turns[0] in turns && forall u | u in turns[1..] :: u in turns;
      FoundLast(turns[1..], t);
    }
  }
  lemma {:induction false} ReplyLast(replies: seq<Reply>, r: Reply)
    requires forall q | q in replies :: q.id != r.id
    ensures FindReply(replies + [r], r.id) == Some(|replies|)
  {
    if replies != [] {
      assert (replies + [r])[1..] == replies[1..] + [r] && replies[0] in replies && forall q | q in replies[1..] :: q in replies;
      ReplyLast(replies[1..], r);
    }
  }

  // ----- one round

  /** The one binding is active under its lease. */
  ghost predicate Attached(f: FeishuBridge)
    reads f
  {
    f.Inv() && f.process == 1 && f.bindings == map[0 := BOUND] && f.leases == map[0 := LeaseFor(1, 1)]
  }

  /** The event comes in and is typed. */
  method TypeIn(f: FeishuBridge, e: EventId)
    requires Attached(f) && Past(f.turns, f.replies, e) && e !in f.eventIds
    modifies f
    ensures Attached(f) && f.inFlight == old(f.inFlight) && Earlier(old(f.history), f.history)
    ensures f.turns == old(f.turns) + [Waiting(e)] && f.replies == old(f.replies)
      && EventsShortened(old(f.eventIds) + [e], f.eventIds)
  {
    RoundIsQuiet(f.turns, f.replies, e);
    assert Takes(BOUND, LeaseFor(1, 1), f.turns, 0, Got(Holding(1)), Got(TAKEN), WHOLE, WHOLE);
    var _ := f.HandleEvent(0, e, 0, Admitted, Got(Holding(1)), Got(TAKEN), NO_HANDOFF, 0, WHOLE, WHOLE);
    MovedEarlier(f.base, f.turns, f.replies, f.history);
    assert OpenNext(0);
    assert Fresh(e) in [Fresh(e), Waiting(e), Speaking(e), Done(e)] && Waiting(e) in [Fresh(e), Waiting(e), Speaking(e), Done(e)];
  }

  /** The pane shows the reply. */
  method ReadReply(f: FeishuBridge, ghost turns: seq<Turn>, e: EventId)
    requires Attached(f) && Past(turns, f.replies, e) && f.turns == turns + [Waiting(e)]
    modifies f
    ensures Attached(f) && f.inFlight == old(f.inFlight) && Earlier(old(f.history), f.history)
    ensures f.turns == turns + [Speaking(e)] && f.replies == old(f.replies) + [Card(e)]
      && EventsShortened(old(f.eventIds), f.eventIds)
    ensures Attempt(e) in f.queued
  {
    RoundIsQuiet(turns, f.replies, e);
    WorkingLast(turns, Waiting(e));
    RenewedLast(turns, Waiting(e), Speaking(e));
    var k := PollAnswers(Got(Holding(1)), Got(Chunk(TARGET, 1, 1, Feishu, 1, true, false)), Got(Holding(1)), true,
                         Closed,
                         Got(Snapshot(TARGET, 1, 1, 1, Feishu, 1, Some(TEXT))), Got(Holding(1)));
    assert Replyable(f.replies, Attempt(e), TEXT);
    assert Harvestable(Waiting(e), LeaseFor(1, 1), k, f.replies, 1, WHOLE);
    f.PollTurn(0, k, 1, WHOLE, WHOLE, WHOLE, WHOLE);
    MovedEarlier(f.base, f.turns, f.replies, f.history);
    assert OpenNext(0);
    assert Speaking(e) in [Fresh(e), Waiting(e), Speaking(e), Done(e)];
  }
  lemma WorkingLast(turns: seq<Turn>, t: Turn)
    requires NoLive(turns, t.binding) && Live(t.status)
    ensures Working(turns + [t], t.binding) == Some(t)
  {
    ActiveLast(turns, t);
  }

  /** The card goes out. */
  method SendCard(f: FeishuBridge, ghost turns: seq<Turn>, ghost replies: seq<Reply>, e: EventId)
    requires Attached(f) && Past(turns, replies, e) && f.turns == turns + [Speaking(e)]
      && f.replies == replies + [Card(e)]
    requires f.inFlight == {} && Attempt(e) in f.queued
    modifies f
    ensures Attached(f) && f.inFlight == {Attempt(e)} && f.history == Then(old(f.history), CardSent(1, Card(e)))
    ensures f.turns == old(f.turns) && f.replies == old(f.replies) && f.eventIds == old(f.eventIds)
  {
    ReplyLast(replies, Card(e));
    FoundLast(turns, Speaking(e));
    assert Deliverable(f.turns, Card(e).body);
    var _ := f.IssueOutbound(Attempt(e), WHOLE);
  }

  /** The card has arrived. */
  method Settle(f: FeishuBridge, ghost turns: seq<Turn>, ghost replies: seq<Reply>, e: EventId)
    requires Attached(f) && Past(turns, replies, e) && f.turns == turns + [Speaking(e)]
      && f.replies == replies + [Card(e)]
    requires f.inFlight == {Attempt(e)}
    modifies f
    ensures Attached(f) && f.inFlight == {} && Earlier(old(f.history), f.history)
      && EventsShortened(old(f.eventIds), f.eventIds)
    ensures f.turns == Tail(turns + [Done(e)], TURN_HISTORY_LIMIT)
      && f.replies == Tail(replies + [Landed(e)], REPLY_HISTORY_LIMIT)
  {
    ReplyLast(replies, Card(e));
    FoundLast(turns, Speaking(e));
    RoundIsQuiet(turns, replies, e);
    RoundIsTrimmed(turns, replies, e);
    assert Finished(f.turns, Card(e).body, 0) == turns + [Done(e)];
    assert f.replies[|replies| := Landed(e)] == replies + [Landed(e)];
    f.ApplySent(Attempt(e), 0, WHOLE);
    MovedEarlier(f.base, f.turns, f.replies, f.history);
    assert OpenLists(0);
    assert Done(e) in [Fresh(e), Waiting(e), Speaking(e), Done(e)];
  }

  // ----- the run

  function Turns(n: nat): seq<Turn> { seq(n, i requires 0 <= i < n => Done(i)) }
  function Replies(n: nat): seq<Reply> { seq(n, i requires 0 <= i < n => Landed(i)) }
  function Events(n: nat): seq<EventId> { seq(n, i requires 0 <= i < n => i) }

  /** After `n` rounds, what is left of an event. */
  lemma PastRounds(n: nat, e: EventId)
    requires e == n || (e == 0 && n > DEDUP_LIMIT)
    ensures Past(Tail(Turns(n), TURN_HISTORY_LIMIT), Tail(Replies(n), REPLY_HISTORY_LIMIT), e)
      && e !in Tail(Events(n), DEDUP_LIMIT)
  {
    var turns, replies, events := Tail(Turns(n), TURN_HISTORY_LIMIT), Tail(Replies(n), REPLY_HISTORY_LIMIT),
    Tail(Events(n), DEDUP_LIMIT);
    forall i | 0 <= i < |turns| ensures turns[i] == Done(n - |turns| + i) { TailAt(Turns(n), TURN_HISTORY_LIMIT, i); }
    forall i | 0 <= i < |replies| ensures replies[i] == Landed(n - |replies| + i) {
      TailAt(Replies(n), REPLY_HISTORY_LIMIT, i);
    }
    forall i | 0 <= i < |events| ensures events[i] == n - |events| + i { TailAt(Events(n), DEDUP_LIMIT, i); }
  }
  lemma NextRound(n: nat)
    ensures Tail(Tail(Turns(n), TURN_HISTORY_LIMIT) + [Done(n)], TURN_HISTORY_LIMIT) == Tail(Turns(n + 1), TURN_HISTORY_LIMIT)
    ensures Tail(Tail(Replies(n), REPLY_HISTORY_LIMIT) + [Landed(n)], REPLY_HISTORY_LIMIT) == Tail(Replies(n + 1), REPLY_HISTORY_LIMIT)
    ensures Tail(Tail(Events(n), DEDUP_LIMIT) + [n], DEDUP_LIMIT) == Tail(Events(n + 1), DEDUP_LIMIT)
  {
    TailGrows(Turns(n), Done(n), TURN_HISTORY_LIMIT);
    TailGrows(Replies(n), Landed(n), REPLY_HISTORY_LIMIT);
    TailGrows(Events(n), n, DEDUP_LIMIT);
    assert Turns(n + 1) == Turns(n) + [Done(n)] && Replies(n + 1) == Replies(n) + [Landed(n)] && Events(n + 1) == Events(n) + [n];
  }

  /** The bridge has answered the events below `n`. */
  ghost predicate AfterRounds(f: FeishuBridge, n: nat)
    reads f
  {
    && Attached(f) && f.inFlight == {}
    && f.turns == Tail(Turns(n), TURN_HISTORY_LIMIT) && f.replies == Tail(Replies(n), REPLY_HISTORY_LIMIT)
    && f.eventIds == Tail(Events(n), DEDUP_LIMIT)
  }

  /** An event that is not remembered is answered, up to the send of its card. */
  method Answer(f: FeishuBridge, ghost n: nat, e: EventId)
    requires AfterRounds(f, n) && (e == n || (e == 0 && n > DEDUP_LIMIT))
    modifies f
    ensures Attached(f) && f.inFlight == {Attempt(e)}
    ensures f.history.Then? && f.history.act == CardSent(1, Card(e)) && Earlier(old(f.history), f.history.prev)
    ensures f.turns == old(f.turns) + [Speaking(e)] && f.replies == old(f.replies) + [Card(e)]
      && EventsShortened(old(f.eventIds) + [e], f.eventIds)
  {
    ghost var turns, replies, events := f.turns, f.replies, f.eventIds;
    PastRounds(n, e);
    TypeIn(f, e);
    ghost var typed, first := f.history, f.eventIds;
    ReadReply(f, turns, e);
    EventsShortenedTwice(events + [e], first, f.eventIds);
    EarlierTrans(old(f.history), typed, f.history);
    SendCard(f, turns, replies, e);
  }

  /** One whole round. */
  method Round(f: FeishuBridge, n: nat)
    requires AfterRounds(f, n)
    modifies f
    ensures AfterRounds(f, n + 1)
    ensures exists p :: Earlier(old(f.history), p) && Earlier(Then(p, CardSent(1, Card(n))), f.history)
  {
    ghost var turns, replies, events := f.turns, f.replies, f.eventIds;
    PastRounds(n, n);
    Answer(f, n, n);
    ghost var p, asked := f.history.prev, f.eventIds;
    Settle(f, turns, replies, n);
    EventsShortenedTwice(events + [n], asked, f.eventIds);
    NextRound(n);
    assert OpenLists(0);
    assert Earlier(old(f.history), p) && Earlier(Then(p, CardSent(1, Card(n))), f.history);
  }

  /** One process sends the reply to the turn of event 0 twice. */
  method SecondSend() returns (f: FeishuBridge, ghost p: History, ghost q: History)
    ensures f.Inv() && Earlier(Then(q, CardSent(1, Card(0))), f.history) && Earlier(Then(p, CardSent(1, Card(0))), q)
  {
    f := Linked(None);
    assert Tail(Turns(0), TURN_HISTORY_LIMIT) == [] && Tail(Replies(0), REPLY_HISTORY_LIMIT) == [] && Tail(Events(0), DEDUP_LIMIT) == [];
    Round(f, 0);
    p :| Earlier(Then(p, CardSent(1, Card(0))), f.history);
    var n := 1;
    while n <= DEDUP_LIMIT
      invariant 1 <= n <= DEDUP_LIMIT + 1 && AfterRounds(f, n)
      invariant Earlier(Then(p, CardSent(1, Card(0))), f.history)
    {
      ghost var before := f.history;
      Round(f, n);
      ghost var x :| Earlier(before, x) && Earlier(Then(x, CardSent(1, Card(n))), f.history);
      EarlierTrans(x, Then(x, CardSent(1, Card(n))), f.history);
      EarlierTrans(before, x, f.history);
      EarlierTrans(Then(p, CardSent(1, Card(0))), before, f.history);
      n := n + 1;
    }
    ghost var before := f.history;
    Answer(f, n, 0);
    q := f.history.prev;
    EarlierTrans(Then(p, CardSent(1, Card(0))), before, q);
  }

  // ----- a turn that waits for its reply in vain

  /** One event was answered, and others were filtered out since. */
  ghost predicate AfterFiltering(f: FeishuBridge, n: nat)
    reads f
  {
    Attached(f) && f.turns == [Done(0)] && f.replies == [Landed(0)] && f.eventIds == Tail(Events(n), DEDUP_LIMIT)
  }
  lemma FewLists()
    ensures Calm([Done(0)], map[0 := BOUND]) && Short([Done(0)], [Landed(0)])
    ensures forall t | t in [Fresh(0), Waiting(0)] :: Calm([Done(0)] + [t], map[0 := BOUND]) && Short([Done(0)] + [t], [Landed(0)])
  {
    CalmWith([], Done(0));
    assert [] + [Done(0)] == [Done(0)];
    OmitShort([Done(0)], LiveIds([Done(0)]), TurnKey);
    RetainedShort([Done(0)], TURN_HISTORY_LIMIT, LiveIds([Done(0)]), TurnKey);
    OtherReplies([Landed(0)]);
    forall t | t in [Fresh(0), Waiting(0)] ensures Calm([Done(0)] + [t], map[0 := BOUND]) && Short([Done(0)] + [t], [Landed(0)]) {
      CalmWith([Done(0)], t);
      ShortTurns([Done(0)], t, [Landed(0)]);
    }
  }

  /** The filters keep an event out. */
  method FilterOut(f: FeishuBridge, n: nat)
    requires AfterFiltering(f, n) && n !in f.eventIds
    modifies f
    ensures AfterFiltering(f, n + 1)
  {
    ghost var events := f.eventIds;
    FewLists();
    var _ := f.HandleEvent(0, n, 0, Filtered, NOTHING, Threw(NOTHING.fault), NO_HANDOFF, 0, WHOLE, WHOLE);
    ShortStays([Done(0)], [Landed(0)], f.turns, f.replies);
    NextRound(n);
    assert OpenLists(0);
  }

  /** The event comes in again and is typed. */
  method TypeAgain(f: FeishuBridge, ghost n: nat)
    requires AfterFiltering(f, n) && 0 !in f.eventIds
    modifies f
    ensures Attached(f) && f.turns == [Done(0), Waiting(0)] && f.replies == [Landed(0)]
  {
    FewLists();
    assert Takes(BOUND, LeaseFor(1, 1), f.turns, 0, Got(Holding(1)), Got(TAKEN), WHOLE, WHOLE);
    var _ := f.HandleEvent(0, 0, 0, Admitted, Got(Holding(1)), Got(TAKEN), NO_HANDOFF, 0, WHOLE, WHOLE);
    assert OpenNext(0);
    assert Fresh(0) in [Fresh(0), Waiting(0)] && Waiting(0) in [Fresh(0), Waiting(0)];
  }

  /** The pane shows the same reply again. */
  method ReadAgain(f: FeishuBridge)
    requires Attached(f) && f.turns == [Done(0), Waiting(0)] && f.replies == [Landed(0)]
    modifies f
    ensures Attached(f) && Working(f.turns, 0) == Some(Speaking(0)) && TurnId(0, 0) in f.stuck
  {
    WorkingLast([Done(0)], Waiting(0));
    assert [Done(0)] + [Waiting(0)] == f.turns;
    var k := PollAnswers(Got(Holding(1)), Got(Chunk(TARGET, 1, 1, Feishu, 1, true, false)), Got(Holding(1)), true,
                         Closed,
                         Got(Snapshot(TARGET, 1, 1, 1, Feishu, 1, Some(TEXT))), Got(Holding(1)));
    assert Harvestable(Waiting(0), LeaseFor(1, 1), k, f.replies, 1, WHOLE);
    assert ReplyKey(Landed(0)) == Attempt(0) && Landed(0) in f.replies && HasSettled(f.replies, Attempt(0));
    f.PollTurn(0, k, 1, WHOLE, WHOLE, WHOLE, WHOLE);
  }

  /** An event whose reply was sent comes in again after 4096 others were filtered out, and the
      agent gives the same reply: the turn is replying, nothing of it is left to be sent, and the
      binding can be neither paused nor taken over nor removed, even with force. */
  method WaitsInVain() returns (f: FeishuBridge, pause: Outcome, takeover: Outcome, remove: Outcome)
    ensures f.Inv() && Working(f.turns, 0) == Some(Speaking(0)) && Attempt(0) !in PreparedIds(f.replies)
    ensures pause == Refused && takeover == Refused && remove == Refused
  {
    f := Linked(None);
    assert Tail(Turns(0), TURN_HISTORY_LIMIT) == [] && Tail(Replies(0), REPLY_HISTORY_LIMIT) == [] && Tail(Events(0), DEDUP_LIMIT) == [];
    Round(f, 0);
    assert Turns(1) == [Done(0)] && Replies(1) == [Landed(0)];
    var n := 1;
    while n <= DEDUP_LIMIT
      invariant 1 <= n <= DEDUP_LIMIT + 1 && AfterFiltering(f, n)
    {
      PastRounds(n, n);
      FilterOut(f, n);
      n := n + 1;
    }
    PastRounds(n, 0);
    TypeAgain(f, n);
    ReadAgain(f);
    InvSound(f);
    assert Working(f.turns, 0).value in f.turns;
    pause := f.PauseBinding(0, true, Got(FREE), 2, WHOLE, WHOLE);
    ghost var granted;
    takeover, granted := f.TakeoverBinding(0, OtherInstance(0), true, Got(FREE), Threw(NOTHING.fault), 2, WHOLE, WHOLE,
                                           WHOLE, WHOLE);
    remove := f.RemoveBindingFor(0, true, Got(FREE), Got(FREE), Got(TARGET), Got(FREE), 2, WHOLE);
  }
}
