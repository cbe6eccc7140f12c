# tmux-worktree, modelled and proved

A Dafny model of the parts of tmux-worktree on which correctness under concurrency, crashes
and outside interference rests, with proofs of what they promise. `dafny verify dfyconfig.toml`
checks everything.

**The Feishu bridge** (`BridgeTypes`, `BridgeHistory`, `BridgeInvariant`, `Bridge`, `BridgeRuns`,
`BridgeCases`, `BridgeRepeat`, `Lineage`, `Retention`). One object whose methods are the operations of the serial lane; every
answer of the terminal authority, of Lark, of storage and of the clock is a parameter, so each
contract holds for all answers. Work on other lanes (renewal, card delivery, activity completion)
is split into a step that issues it and a step that applies its outcome, with anything in between.
Everything the bridge does to the outside is recorded in a *history*, together with process starts,
looks at agents and records that leave the memory; `Lawful` says which act may
follow which past and is closed under prefixes, so a crash is a shorter history and a restart reads
the files back from it. `BridgeRuns.Run` carries this over every script of commands, and
`BridgeCases` and `BridgeRepeat` show the cases where a promise fails.

**Turn output** (`Utf8`, `OutputStream`). Bytes cut anywhere, decoded as they come, bounded to 128 KiB.

**Storage** (`BridgeStore`). The write-if-changed store against one that rewrites everything.

**Managed state and its lock** (`ManagedState`, `StateLock`). Any number of contenders for a lock
made with mkdir, owner records and quarantine renames, as a step machine.

**Managed sessions** (`Lifecycle`, `Creation`). What the answers to create, restore and kill prove
when others replace sessions between any two steps.

**Observe and admit** (`Utf16`, `CanonicalJson`, `Placement`, `Admission`). Canonical text and its bytes, worktree
placement, and the admission that runs a mutation only if looking again shows the same.

**Remote commands** (`ShellQuote`). Printed text against a reader for the POSIX shell language.

`Basics` has what several of these modules use.

## Results that say when a promise fails

- An active binding always has a lease, except in two cases whose conditions on state and answers
  are exact, step by step over whole runs (`BridgeRuns.Breaks` in `BridgeRuns.Run`). Linking a chat
  on a free terminal keeps the binding when its first write fails although the lease is given back
  (`Bridge.FeishuBridge.CreateBinding`, shown by `BridgeCases.UnleasedFromTheStart`). A confirmed
  handoff of an idle binding that cannot be stored, followed by an answer that Feishu still holds
  the terminal, leaves it active (`Bridge.FeishuBridge.SettleHandoff`, shown by
  `BridgeCases.UnleasedByHandover`).
- A captured result has the source under which its agent was last seen running, exactly unless the
  process started from a file that was behind and has not seen the agent running since
  (`BridgeHistory.CapturesCovered`). `BridgeCases.CaptureOfAnOldSource` shows it: a new source
  is seen, cannot be stored, the process dies, and after a repair the old source is captured.
- One process never sends a notice about a watch twice. It sends the reply to a turn twice only after
  the settled reply and the turn have left the memory and the event was typed again, its id having
  left the stored window (`BridgeHistory.SentOncePerProcess`); `BridgeRepeat.SecondSend` is a run in
  which it does, after 4096 other events.
- A replying turn has its reply prepared, or on its way to Lark, except in two cases whose conditions
  on state and command are exact (`BridgeRuns.StuckExactly`, over whole runs `BridgeRuns.AllUnderWay`):
  its event was delivered again and the agent gives a text that a settled reply of the turn already
  has, or its reply is settled while an older record of the same turn hides it. Nothing is sent then,
  and the binding can be neither paused nor taken over nor removed (`BridgeRepeat.WaitsInVain`, again
  after 4096 other events). Such turns are kept in the ghost field `stuck`.
- A second reply to a turn with another payload needs a new input of its event, even when another
  process sends it and even when the record was lost (`BridgeHistory.OtherPayloadNeedsInput`).
- The lock excludes two holders as long as no rename falls between somebody's mkdir and release;
  for a contender about to rename, this is exactly the condition
  (`StateLock.RenameSafeExactlyWhenHarmless`). One dead holder and three contenders lose an update
  (`StateLock.LostUpdate`).
- Decoding is independent of the chunking exactly for texts without U+FEFF
  (`OutputStream.IndependentOfChunks`).
- A kill is reported as not applied although the session died exactly if the command killed it and
  still exited with an error, and a successor carried the name at the second look
  (`Lifecycle.KillManaged`, exhibited by `Lifecycle.MismatchAfterKill`).
- Two worktrees share a path exactly if project and session name are the same or, where they are
  digested, the same once unpaired surrogates are replaced (`Placement.PlacesDiffer`). Cutting a name
  to twenty code units can split a surrogate pair, so two sessions of one project can share their
  branch (`Placement.CutPairShares`); text without unpaired surrogates never does
  (`Placement.PairedPlacesDiffer`), and neither do revisions (`CanonicalJson.BytesEqualIffSame`).
- An observed terminal can be admitted exactly if its derived title fits the limits of a request
  (`Admission.CanonicalTerminalStable`); a directory whose name begins with a space is observed and
  cannot be admitted (`Admission.SpacedDirectoryFails`).

## Modelling choices

- Identifiers derived by a digest (turns, attempts, incarnations, revisions) are constructors, so
  they do not collide; event ids are taken to have no unpaired surrogates. In placement a digest is
  a function from bytes to 43 characters, a text is digested as the UTF-8 it is written as, and the
  lemmas ask that the digest tells the bytes at hand apart.
- Operations use one clock reading per serial operation. Sweeps over all bindings, turns or leases
  are one step per item. Bindings are a map; the order in which a write visits them is a parameter.
- Watch ids are random and never reused: a new watch has an id that the history does not have.
- An inbound event comes with the binding of its chat and with what the message filters made of it.
  The marked reply in a rendered pane is an answer of the snapshot.
- The status `active` is set together with the watch that goes with it; no other step can come
  between the two.
- A number in canonical JSON stands for the text it prints as, and record field names in a revision
  are stand-ins of different lengths.

## Model

| member | source | states |
|---|---|---|
| Bridge.FeishuBridge.Persist | src/feishuBridge.ts:2939-2944 | a persist adds the missing notices, writes the four files in order and, only when all four are written, trims and queues; it never changes anybody's live turn, and afterwards the files hold the bindings as they are, no live turn of an idle binding, and the newest event id; a notice about a turn comes to wait to be sent exactly if the turn is lost, its process has not announced it, its binding is linked and no such notice is on record |
| Bridge.FeishuBridge.TrimInMemoryHistory | src/feishuBridge.ts:2954-2985 | live turns and prepared replies survive with the latest 256 others, event ids keep the latest 4096, and every binding keeps its live turn |
| Retention.TailKeepingKeys | src/feishuBridge.ts:197-210 | the three passes compute the items with a live key or one of the last keys of the others |
| Retention.RetainedExactly | src/feishuBridge.ts:197-210 | with unique keys: all live entries and exactly the last others, both in order, and trimming again changes nothing |
| Bridge.FeishuBridge.WriteFiles | src/feishuBridgeStorage.ts:706-729 | a write that stops after some files leaves a lawful prefix; a complete one leaves the stored windows |
| Bridge.FeishuBridge.AddNotices | src/feishuBridge.ts:2760-2810 | every lost turn and doubtful watch gets its notice once, and nothing else is added; which notices about turns are prepared afterwards, exactly |
| Bridge.FeishuBridge.CreateBinding | src/feishuBridge.ts:425-554 | refused exactly when chat or terminal are not free for it, or the dashboard cannot hand over, or the lease is not granted; on a free terminal done exactly if both writes and the first look succeed, and then active with the granted lease and that watch, on file; active without a lease exactly if a granted lease meets a failed first write |
| Bridge.FeishuBridge.LinkByHandoff | src/feishuBridge.ts:464-529 | taking over from the dashboard leaves an active leased binding, a stale unleased one, or (first write failed) none |
| Bridge.FeishuBridge.LinkByLease | src/feishuBridge.ts:530-546 | when the first write fails the lease is dropped and the active binding stays |
| Bridge.FeishuBridge.UpdateMode | src/feishuBridge.ts:556-575 | refused while a turn is live; a failed write restores the old mode |
| Bridge.FeishuBridge.PauseBinding | src/feishuBridge.ts:577-619 | refused exactly for work that may not be cancelled; otherwise no live turn and no active watch remain, and success needs a confirmed release |
| Bridge.FeishuBridge.ResumeBinding | src/feishuBridge.ts:621-647 | success means active with exactly the granted lease; a replaced terminal makes the binding stale and touches no lease |
| Bridge.FeishuBridge.RepairBinding | src/feishuBridge.ts:649-688 | only a stale binding whose terminal is free becomes active, exactly if a lease was granted, the watch could be started and the write succeeds, and then with exactly that lease and watch |
| Bridge.FeishuBridge.RemoveBindingFor | src/feishuBridge.ts:690-734 | a binding goes exactly when its lease was released or nobody could be typing for it, and never with a live turn left |
| Bridge.FeishuBridge.CommitHandoff | src/feishuBridge.ts:782-808 | the commit is asked for exactly after the prepared record was stored, and when Feishu gives up the terminal there is then no live turn and no active watch |
| Bridge.FeishuBridge.TakeoverBinding | src/feishuBridge.ts:736-827 | refusal conditions; on success the binding is paused without a lease and records the committed handoff with the given-up lease's epoch and fence; every failure is stale and unleased, or stopped at the first write |
| Bridge.FeishuBridge.ReturnBinding | src/feishuBridge.ts:829-903 | refused exactly when the local owner does not hold the terminal under this lease; success means an active binding with the granted lease and a committed handoff; any failure is stale |
| Bridge.FeishuBridge.Submit | src/feishuBridge.ts:1011-1028 | terminal input is issued exactly after the event id was stored |
| Bridge.FeishuBridge.StartTurn | src/feishuBridge.ts:989-1069 | the new turn is recorded before its input; accepted input leaves it awaiting under the receipt's correlation with the inherited watch cancelled; when a refused input leaves the binding active without a lease, exactly |
| Bridge.FeishuBridge.Steer | src/feishuBridge.ts:2039-2129 | a turn without authority or without its marker nonce is lost and not typed into; accepted steering only moves the deadline; an active binding keeps its lease |
| Bridge.FeishuBridge.HandleEvent | src/feishuBridge.ts:905-1071 | a remembered event changes nothing; a handled one is remembered; filtered or unleased events type nothing; at most the turn of this very event starts, and an idle held terminal that takes the input gets exactly it; active without a lease exactly in the named cases |
| Bridge.FeishuBridge.IssueRenewal | src/feishuBridge.ts:1073-1098 | a renewal goes out only for the current lease of an active binding |
| Bridge.FeishuBridge.ApplyRenewal | src/feishuBridge.ts:1100-1208 | a verdict acts only on a lease of the same epoch, id and fence; a transport failure fences only 60000 ms after the first one on record |
| Bridge.FeishuBridge.ReconcileTarget | src/feishuBridge.ts:1216-1234 | a binding is dropped exactly on proof that its terminal ended |
| Bridge.FeishuBridge.ReconcileHandoff | src/feishuBridge.ts:1257-1265 | only owning, leased bindings are touched, and the binding ends up active without a lease exactly if the handoff strands it or it was so before |
| Bridge.FeishuBridge.SettleHandoff | src/feishuBridge.ts:1783-1846 | while Feishu holds the terminal the lease stays; while a turn is live a draining terminal is left alone; active without a lease exactly under the stated answers and writes |
| Bridge.FeishuBridge.PassOn | src/feishuBridge.ts:1847-1885 | when a handover leaves the binding active without a lease, exactly |
| Bridge.FeishuBridge.ResolveCommit | src/feishuBridge.ts:1886-1920 | an unconfirmed commit is withdrawn, committed or uncertain exactly by what the authority says next |
| Bridge.FeishuBridge.Retire | src/feishuBridge.ts:1275-1299 | a leased binding is paused exactly after a confirmed release with no turn live, and stale otherwise |
| Bridge.FeishuBridge.Close | src/feishuBridge.ts:1267-1316 | afterwards no lease is held and no formerly leased binding is active |
| Bridge.FeishuBridge.PollTurn | src/feishuBridge.ts:1318-1481 | a poll only writes files; the turn stays awaiting, starts replying, or needs recovery, and the binding at most turns stale; a complete reply read in time makes the turn replying; if no reply of the turn is on record, no notice is due and the lists are within their limits, the reply is then prepared, stored and queued, and nothing else changes in the lists; a turn made replying is stuck only if a settled reply of it was on record, and exactly then if the poll stored nothing before |
| Bridge.FeishuBridge.ReadOutput | src/feishuBridge.ts:1329-1404 | waiting, quiet, lost, moved cursor or new bytes, exactly by the answers; only new output slides the deadline |
| Bridge.FeishuBridge.Harvest | src/feishuBridge.ts:1433-1480 | a turn starts replying only with a complete marked reply from a matching snapshot and the turn's authority |
| Bridge.FeishuBridge.CompleteReply | src/feishuBridge.ts:1735-1781 | the turn is replying exactly if authority, payload and write all held, and then its reply is prepared, a new one with this text and final status, exactly unless a settled reply of the turn was on record, when nothing is left to be sent and the turn is stuck; if they did not all hold, the turn is lost and the binding stale |
| Bridge.FeishuBridge.PollWatch | src/feishuBridge.ts:1483-1549 | a running agent arms the watch with its source; a completion goes out only for an idle agent, with a result of the watched generation and source, and is captured before it is stored |
| Bridge.FeishuBridge.PrepareCompletion | src/feishuBridge.ts:1551-1602 | captured, retried or broken exactly by the answers |
| Bridge.FeishuBridge.SettleActivity | src/feishuBridge.ts:1636-1733 | what each verdict on a completion card does, and when it is ignored |
| Bridge.FeishuBridge.Activate | src/feishuBridge.ts:2202-2224 | active exactly if the watch could be started, and then with a watch bound to exactly the lease and generation shown; otherwise stale without an active watch; done exactly if that is on file |
| Bridge.FeishuBridge.StartWatch | src/feishuBridge.ts:2226-2284 | started exactly under the lease's own view with a sound first look, and then exactly the watch that the look makes of it |
| Bridge.FeishuBridge.IssueOutbound | src/feishuBridge.ts:2812-2875 | a card is sent exactly for a prepared attempt with a whole payload, and a turn reply only while its turn waits for it; what is not sent becomes uncertain, and leaves its turn stuck exactly if that is replying still |
| Bridge.FeishuBridge.ApplySent | src/feishuBridge.ts:2876-2907 | a reply is marked sent and its turn finished in one step, then the lists are stored and trimmed; only a notice that came too late gives the terminal up |
| Bridge.FeishuBridge.ApplyUncertain | src/feishuBridge.ts:2908-2928 | an unconfirmed attempt is uncertain for good, the turn it answers is lost and its binding stale |
| Bridge.FeishuBridge.Restart | src/feishuBridge.ts:332-402 | after a crash at any act: nothing is owned, live turns are only those whose stored reply still waits, and the lists come from the files by legal moves |
| Bridge.FeishuBridge.RecoverTurns | src/feishuBridge.ts:348-363 | exactly the live turns without a prepared payload on record are lost, the others stay as they are |
| BridgeInvariant.GrantedKeeps | src/feishuBridge.ts:2430-2450 | an accepted grant installed for the binding that asked keeps the invariant and matches its own view, and the same grant is accepted for no other binding, process, terminal or expired moment |
| BridgeRuns.Step | src/feishuBridge.ts:2987-2991 | one command with any answers is a legal step, and keeps active bindings leased exactly if it does not break that |
| BridgeRuns.Run | src/feishuBridge.ts:2987-2991 | in every run with crashes anywhere: at most one live turn per binding, unique attempts, leases that fit their bindings, one binding per chat, a lawful history, only legal steps, and at every step active bindings stay leased exactly if the command does not break that, and the stuck turns, which are the replying ones without a prepared reply, change exactly as its command says |
| BridgeRuns.TerminalStays | src/feishuBridge.ts:2178-2181 | within a process, deliveries included, turns keep order and identity and their status only goes forward; terminal ones never change, only a delivery finishes a turn, and a turn without predecessor belongs to an event not remembered |
| BridgeRuns.FinishedWithReply | src/feishuBridge.ts:2880-2899 | within a process a turn becomes completed or timed out only in a step after which its reply, prepared before, is sent; it was replying and gets the final status of that reply |
| BridgeRuns.RepliesOnlySettle | src/feishuBridge.ts:2836-2929 | a settled reply stays as it is until it leaves the memory; a prepared one stays, becomes uncertain, or by a delivery sent, always with its payload |
| BridgeRuns.SentByDelivery | src/feishuBridge.ts:2880-2899 | at most one reply is newly sent in a step, the one it delivers, which was prepared; in an ordinary step none |
| BridgeRuns.StuckExactly | src/feishuBridge.ts:1735-1765 | a replying turn is left without a prepared reply only by a poll that finds a settled reply of it on record, or by a card settled while the turn goes on replying, and always then, except by a poll that stores something first |
| BridgeRuns.AllUnderWay | src/feishuBridge.ts:2812-2928 | in every run in which no command does that, each replying turn has its reply prepared in each state |
| BridgeHistory.InjectedAtMostOnce | src/feishuBridge.ts:907-907 | across crashes, a second input for an event comes only after 4096 other ids pushed it out of the stored window or the file was lost, and each input follows the storing of its id |
| BridgeHistory.SentOncePerProcess | src/feishuBridge.ts:2812-2834 | a second send of an attempt by one process needs its settled record to have left the memory in between and is never a notice about a watch; for a reply also the record of its turn has left, and there is a new input of its event in between, whose id had left the stored window since the earlier input; a notice about a turn was on file unannounced when the process started |
| BridgeHistory.ResentUnchanged | src/feishuBridge.ts:2867-2875 | every later send of an attempt that stayed on file carries the identical payload |
| BridgeHistory.OtherPayloadNeedsInput | src/feishuBridge.ts:1735-1765 | a reply to a turn that is sent again with another payload, by any process and whatever became of its record, has a new input of the turn's event in between |
| BridgeHistory.CommitsCovered | src/feishuBridge.ts:782-808 | every commit finds the same prepared record on file, and where Feishu gives up, no live turn and no active watch on file |
| BridgeHistory.CapturesCovered | src/feishuBridge.ts:1513-1548 | a capture follows two idle looks at least 1000 ms apart in one generation with no running one between, and has a source seen running: the one remembered, and the latest one exactly unless the process started from a file that was behind |
| BridgeHistory.OvertakenExactly | src/feishuBridge.ts:2226-2284 | what a process remembers of an agent is what was last seen exactly unless it was overtaken, and what is on file exactly unless the file is behind |
| BridgeHistory.GraceKept | src/feishuBridge.ts:1133-1140 | giving up for transport failures needs one at least 60000 ms old that nothing has settled since |
| BridgeHistory.DiskFit | src/feishuBridgeStorage.ts:675-704 | whatever a crash leaves on file can be loaded: one live turn per binding, unique attempts and ids, one binding per chat |
| BridgeInvariant.RestartSound | src/feishuBridge.ts:332-402 | the invariant holds for the state loaded from any lawful history |
| BridgeCases.UnleasedFromTheStart | src/feishuBridge.ts:530-546 | a run in which a failed first write leaves a binding active without a lease |
| BridgeCases.UnleasedByHandover | src/feishuBridge.ts:1847-1920 | a run in which an unstored handoff does |
| BridgeCases.CaptureOfAnOldSource | src/feishuBridge.ts:1513-1602 | a run with a crash in which the source captured is not the one last seen running |
| BridgeRepeat.SecondSend | src/feishuBridge.ts:2939-2985 | a run in which one process sends the reply to one turn twice |
| BridgeRepeat.WaitsInVain | src/feishuBridge.ts:577-590 | a run after which a turn is replying, nothing of it is left to be sent, and pause, takeover and removal are refused even with force |
| BridgeStore.FeishuBridgeStore.WriteIfChanged | src/feishuBridgeStorage.ts:731-738 | the file ends up with the content wanted, written only if it changed or is gone |
| BridgeStore.FeishuBridgeStore.Write | src/feishuBridgeStorage.ts:706-729 | the files are those of a plain rewrite up to the first refused one, with no write that was not needed |
| BridgeStore.Play | src/feishuBridgeStorage.ts:706-738 | under saves, outside deletions and restarts in any order the files equal those of a store that rewrites everything |
| BridgeStore.RewriteIs | src/feishuBridgeStorage.ts:722-725 | the plain store leaves each written file with its wanted content and the others alone |
| OutputStream.BoundedTail | src/feishuBridge.ts:118-130 | the backward loop finds the longest suffix that fits |
| OutputStream.BoundedIsLongest | src/feishuBridge.ts:118-130 | it is a suffix, and every longer one is too long |
| OutputStream.BoundedTwice | src/feishuBridge.ts:1390-1390 | bounding at every step is bounding once |
| OutputStream.DecodeIncrementally | src/feishuBridge.ts:162-184 | the loop holds back the fewest bytes that let the rest decode |
| OutputStream.ChunkInvariance | src/feishuBridge.ts:162-184 | however a well-formed stream without U+FEFF is cut, decoding yields its whole characters so far and holds back the rest |
| OutputStream.IndependentOfChunks | src/feishuBridge.ts:162-184 | independence of the chunking holds exactly without U+FEFF |
| OutputStream.OutputReader.Accept | src/canonicalTerminalControlClient.ts:900-933 | a read is taken exactly when it continues at the cursor |
| OutputStream.FollowTurn | src/feishuBridge.ts:1377-1396 | the output is the longest tail within 128 KiB of the characters that arrived |
| Utf8.RoundTrip | src/feishuBridge.ts:173-173 | strict decoding undoes encoding |
| Utf16.BytesEqualIffScrubbed | src/createTargetObservationV1.ts:581-589 | two strings are written as the same bytes exactly if they agree once unpaired surrogates are replaced |
| ManagedState.EffectIsLocal | src/state.ts:443-453 | an operation settles its own name and leaves all others alone |
| ManagedState.NoLostUpdate | src/state.ts:577-618 | every name has the record of the last operation on it |
| StateLock.GuardedStep | src/state.ts:481-565 | every step without a harmful rename keeps the lock with the one contender inside |
| StateLock.MutualExclusion | src/state.ts:529-565 | holders dying or not, contenders exclude each other and the file is the effects in order, while renames are harmless |
| StateLock.SerialWhileHoldersLive | src/state.ts:529-618 | if no holder dies and owner records come in time, exclusion, lock order and no lost update for any number of contenders |
| StateLock.RenameSafeExactlyWhenHarmless | src/state.ts:510-527 | a quarantine rename keeps exclusion exactly if nobody is between mkdir and release |
| StateLock.LostUpdate | src/state.ts:510-527 | a dead holder and three contenders lose an update |
| Lifecycle.ObservesOneSession | src/session.ts:976-1012 | a marked record stands for one session for good, two records of an authoritative list never for the same one, and observations agree exactly on the same session |
| Lifecycle.ConditionIsExact | src/tmux.ts:637-652 | the kill condition and the target name fix the whole session, birth option included, whatever the markers of the target are like |
| Lifecycle.HalfMarkerSpares | src/tmux.ts:637-652 | a birth option put on an unmarked session since it was listed keeps the kill away |
| Lifecycle.KillExact | src/tmux.ts:659-689 | the session dies exactly if the command ran on that very one; a kill verdict means a kill with a clean exit; a mismatch verdict after a kill exactly for a failing exit and a successor of the same name |
| Lifecycle.MismatchAfterKill | src/tmux.ts:678-685 | for any session and successor there are answers under which the session dies and the verdict is a mismatch |
| Lifecycle.KillManaged | src/session.ts:1014-1132 | whatever became of any session since the listing, only the expected incarnation dies, exactly if the command ran on it; the file loses that one record and only after a confirmed kill, rejections before the kill ask tmux for nothing, and not-applied hides a kill exactly in the stated case |
| Lifecycle.DroppedExactly | src/session.ts:1108-1111 | taking the record out leaves exactly the others |
| Creation.Commit | src/session.ts:442-552 | a session is committed exactly if every look finds it with its markers and its record, also when the start or the write threw; every error is doubt; the record was written and then both were seen |
| Creation.CapturedIsObserved | src/session.ts:353-381 | the record of a captured session is observed as marked on exactly that session |
| Creation.ResolveSessionName | src/session.ts:210-218 | the search ends with the base name or the first numbered one that is free |
| Creation.ListedExactly | src/rpcV2.ts:660-681 | every listed session is a record and a live session that agree in every marker |
| Creation.ListedIff | src/rpcV2.ts:660-681 | a name is found under an incarnation exactly if its one record is observed so on the session that carries the name |
| Creation.Conclude | src/rpcV2.ts:827-854 | success needs the session listed under its incarnation and as frozen, exactly so where nothing is frozen; anything else is doubt |
| Creation.CreateWorktree | src/rpcV2.ts:797-855 | failed exactly if a check on markers, state, place, name, repository or fetch does not pass or an unfrozen parent cannot be made, and then neither git, nor tmux, nor the state file was asked; success means the marked session and its record were seen after the commit, in the frozen place |
| Creation.CreateTerminal | src/rpcV2.ts:857-893 | failed exactly if a check does not pass, which is exactly when nothing was asked for; never adds a worktree |
| Creation.RestoreWorktree | src/rpcV2.ts:895-931 | the same for a worktree that is already there, under the first free name |
| Creation.CreateManagedWorktree | src/session.ts:597-886 | a plain error means nothing was asked for; when doubt is reported although nothing was, exactly; done means confirmed in the place asked for |
| CanonicalJson.RoundTrip | src/canonicalJson.ts:7-14 | a parser recovers the value with its keys in order |
| CanonicalJson.PrintsEqualIffSame | src/canonicalJson.ts:7-14 | two values print equally exactly if they are equal up to key order |
| CanonicalJson.EmitPaired | src/canonicalJson.ts:7-14 | canonical text has no unpaired surrogates, whatever the value holds |
| CanonicalJson.BytesEqualIffSame | src/canonicalJson.ts:7-14 | two values are written as the same bytes exactly if they are equal up to key order, whatever unpaired surrogates they hold |
| CanonicalJson.PrintIsNormal | src/canonicalJson.ts:11-13 | printing sorts keys by code units at every level |
| CanonicalJson.NormalIffSame | src/canonicalJson.ts:7-14 | sorted forms agree exactly for values equal up to key order |
| Placement.SegmentsDiffer | src/canonicalWorktreePlacement.ts:62-74 | projects share a segment exactly if they are one, or neither serves as a segment and they agree once unpaired surrogates are replaced |
| Placement.BranchesDiffer | src/createTargetObservationV1.ts:581-589 | session names share a branch exactly if they are one, or both are unsafe and agree once unpaired surrogates are replaced |
| Placement.CutPairShares | src/createTargetObservationV1.ts:625-627 | two session names of one project that differ in a character cut in half share their branch |
| Placement.PlacementParses | src/createTargetObservationV1.ts:629-640 | every accepted project and name gives the base and two safe segments, which the parser takes exactly if the path is not too long |
| Placement.ParsedIsClosed | src/canonicalWorktreePlacement.ts:77-111 | what the parser accepts lies at the base, a safe segment and the branch |
| Placement.PlacesDiffer | src/createTargetObservationV1.ts:625-640 | projects and session names share a path exactly if each are the same or, where they are digested, the same once unpaired surrogates are replaced |
| Placement.PairedPlacesDiffer | src/createTargetObservationV1.ts:625-640 | without unpaired surrogates different projects or names never share a path |
| Placement.NearestExistingAncestor | src/canonicalWorktreePlacement.ts:113-126 | the deepest existing ancestor, or none exists |
| Placement.CanonicalProspectivePath | src/createTargetObservationV1.ts:498-520 | the real path of the nearest existing ancestor with the missing part restored, exactly if that ancestor is a directory |
| Placement.CanonicalIsFenced | src/canonicalWorktreePlacement.ts:129-149 | a base made canonical passes the symbolic-link fence |
| Placement.CheckFilesystem | src/canonicalWorktreePlacement.ts:129-149 | the check passes exactly if neither base nor path crosses a symbolic link |
| Placement.WorktreeFenced | src/canonicalWorktreePlacement.ts:129-149 | below a canonical base the worktree path passes exactly if the deepest of its two directories that exists is no alias |
| Admission.RevisionsEqualIffSame | src/createTargetObservationV1.ts:591-597 | revisions agree exactly if everything observed agrees |
| Admission.AdmitWorktree | src/createTargetObservationV1.ts:743-774 | the mutation runs exactly if the fresh revision, arguments and execution are the frozen ones |
| Admission.AdmitTerminal | src/createTargetObservationV1.ts:743-774 | a terminal is opened exactly if the request is well formed, its directory still resolves to the frozen one and the revision is that of the frozen execution |
| Admission.AdmittedUnchanged | src/createTargetObservationV1.ts:599-669 | an admitted request finds project, git identity, base commit and place unchanged |
| Admission.ObservedPlace | src/createTargetObservationV1.ts:634-640 | an observed worktree goes below the base in two safe segments |
| Admission.CanonicalTerminalStable | src/createTargetObservationV1.ts:671-697 | an observed terminal can be admitted, as given and in canonical form alike, exactly if its title fits |
| Admission.SpacedDirectoryFails | src/createTargetObservationV1.ts:285-298 | a directory whose name begins with a space is observed, and the observation is admitted in neither form |
| Admission.TerminalRevisionExact | src/createTargetObservationV1.ts:687-696 | terminal revisions agree exactly for the same directory and title |
| Admission.TerminalAdmittedUnchanged | src/createTargetObservationV1.ts:671-697 | a terminal admitted under an earlier revision opens in the directory and under the title observed then |
| ShellQuote.QuoteIsExact | src/hosts.ts:402-404 | a quoted value is read back as exactly that value |
| ShellQuote.PathIsExact | src/hosts.ts:406-418 | a path expression is read as the path meant, with the home directory for `~` |
| ShellQuote.RemoteTwIsExact | src/hosts.ts:481-486 | the remote shell runs exactly the program with exactly the arguments |
| ShellQuote.RemoteTmuxIsExact | src/hosts.ts:488-492 | the same for tmux |

## Left out

- The terminal-control authority and relay internals: their answers are arbitrary values, and only the checks made on them are used.
- Lark command plumbing, sockets, HTTP, PTY handling, setup, update and the user interface.
- Reactions, lifecycle notices and informative replies in the chat, which carry no authority.
- The poll interval of activity watches: a poll may happen at any time.
- Escape stripping, marker search and prompt text: the marker state of the output and the marked reply are answers.
- Record validators of the store: a refused write is a failed write, and a corrupt file is one set aside.
- The throttled fair order of activity polling and the deadline of lock acquisition: any order, and giving up at any time.
- Owner records without a process id, the two unlink steps inside the removal of a lock directory, and the two reads inside one look at its age: a lock is removed in one step and judged in one step.
- The textual form of the tmux kill condition: it is a conjunction of field comparisons.
- Lifecycle of sessions without version 2 markers, with its rollbacks, and the lookup of a project in the configuration before a create.
- Bridge.FeishuBridge.IssueOutbound: a queued attempt without a durable payload is only marked uncertain; such attempts are never queued. That an attempt taken up is queued and not on its way is a precondition, which a run checks before the step.
- BridgeHistory.SentOncePerProcess: for a second notice about a turn the condition is necessary; when a notice comes to wait to be sent is exact in Bridge.FeishuBridge.Persist, and no whole run is given.
- BridgeRuns.StuckExactly: for a poll that stores something before the turn's reply the condition is only necessary, because the settled reply may leave the memory in between.
- Bridge.FeishuBridge.PollTurn: the bytes read and the cursor are not in its contract; OutputStream models them.
- Retention.RetainedExactly: asks for unique keys, which turn ids have unless an event is delivered again after leaving the stored window.
