/** Live entries that outlive their rows: exactly when a run leaves one behind, and what it costs. */
module StaleEntries {
  import opened CodexModel
  import opened RequestIds
  import opened InteractionCodec
  import opened CodexStore
  import opened Orchestration
  import opened OrchestrationSafety

  predicate Left(s: State, iid: string) {
    iid in s.live && !IsPending(s.db, iid)
  }

  lemma StaleMeansLeft(s: State, iid: string)
    requires Inv(s)
    ensures IsStale(s, iid) <==> Left(s, iid)
  {
  }

  /* ---- the steps that leave an entry behind, and those that forget one ---- */

  /** The session whose startup this action finds failed. */
  function FailedStart(s: State, a: Action): Option<string> {
    match a
    case ThreadStarted(sid, _, up, _) =>
      if StartingThread(sid) in s.flows && !(up && sid in s.db.sessions && s.db.sessions[sid].status == Starting)
      then Some(sid) else None
    case TurnBegun(sid, _, up, _) =>
      if StartingTurn(sid) in s.flows && !(up && SessionActive(s.db, sid)) then Some(sid) else None
    case StartupRaised(flow, _, _) =>
      if flow in s.flows && (flow.StartingThread? || flow.StartingTurn?) then Some(flow.sessionId) else None
    case _ => None
  }

  predicate Orphans(s: State, a: Action, iid: string) {
    FailedStart(s, a).Some? && PendingIn(s.db, iid, FailedStart(s, a).value)
  }

  /** A "resolved" notice that finds the entry, or a restart. */
  predicate Forgets(s: State, a: Action, iid: string) {
    match a
    case UpstreamResolved(requestId, found, _) => found == Some(iid) && FindsLive(s, requestId, found)
    case Restart(during, partway, order, announced, _) =>
      Enumerates(order, ActiveIds(LeftBehind(s, during, partway))) && announced <= |order|
    case _ => false
  }

  /* ---- building blocks of the steps ---- */

  /** A failed startup leaves behind exactly the entries whose rows it cancels, in addition to those
      left behind before. */
  lemma FailedStartupLeaves(s: State, sid: string, summary: string, now: Time, iid: string)
    requires Consistent(s.db) && LiveTracksPending(s)
    ensures Left(FailStartup(s, sid, summary, now), iid) <==> Left(s, iid) || PendingIn(s.db, iid, sid)
  {
    if SessionActive(s.db, sid) {
      var t := FailStartup(s, sid, summary, now);
      assert t.live == s.live && t.db.interactions == SettleAllOf(s.db, sid, InteractionStatus.Cancelled, now);
    }
  }

  /** Every other way to end a session drops the entries it settles. */
  lemma EndLeavesNothing(s: State, sid: string, terminal: SessionStatus, event: EventType, summary: string,
                         now: Time, iid: string)
    requires LiveTracksPending(s)
    ensures Left(EndSession(s, sid, terminal, event, summary, true, now), iid) <==> Left(s, iid)
  {
    var t := EndSession(s, sid, terminal, event, summary, true, now);
    if t != s {
      assert t.live == DropLive(s.live, sid);
      assert t.db.interactions == SettleAllOf(s.db, sid, InteractionStatus.Cancelled, now);
      if iid in s.live {
        assert Repeats(s.live[iid], s.db.interactions[iid]);
        assert IsPending(s.db, iid) || IsStale(s, iid);
      }
    }
  }

  lemma FinishLeavesNothing(s: State, sid: string, turnId: string, summary: string, now: Time, iid: string)
    requires LiveTracksPending(s)
    ensures var (db, r) := FinishInteractiveTurn(s.db, sid, turnId, summary, now);
      r.Ok? && r.value.Some? ==> (Left(s.(db := db, live := DropLive(s.live, sid)), iid) <==> Left(s, iid))
  {
    if iid in s.live {
      assert Repeats(s.live[iid], s.db.interactions[iid]);
      assert IsPending(s.db, iid) || IsStale(s, iid);
    }
  }

  lemma SettleLeavesNothing(s: State, x: string, decision: string, actor: string, status: InteractionStatus,
                            now: Time, iid: string)
    ensures Left(Settle(s, x, decision, actor, status, now).0, iid) <==> Left(s, iid)
  {
  }

  lemma AdmitLeavesNothing(s: State, request: ServerRequest, sid: string, kind: InteractionKind,
                           x: string, summary: string, now: Time, iid: string)
    requires LiveTracksPending(s)
    ensures Left(Admit(s, request, sid, kind, x, summary, now), iid) <==> Left(s, iid)
  {
    assert iid in s.live ==> iid in s.db.interactions;
  }

  lemma NoticeForgets(s: State, requestId: RequestId, found: Option<string>, now: Time, iid: string)
    ensures Left(ProcessResolved(s, requestId, found, now), iid) <==>
      Left(s, iid) && !(found == Some(iid) && FindsLive(s, requestId, found))
  {
  }

  lemma TimeOutLeavesNothing(s: State, x: string, sid: string, kind: InteractionKind, decision: string,
                             deniable: bool, now: Time, iid: string)
    requires Inv(s)
    ensures Left(TimeOut(s, x, sid, kind, decision, deniable, now), iid) <==> Left(s, iid)
  {
    var (t, won) := Settle(s, x, decision, "timeout", InteractionStatus.Expired, now);
    SettleLeavesNothing(s, x, decision, "timeout", InteractionStatus.Expired, now, iid);
    SettleSafe(s, x, decision, "timeout", InteractionStatus.Expired, now);
    EndLeavesNothing(t, sid, Interrupted, SessionInterrupted, "user input request expired", now, iid);
  }

  /* ---- one lemma for each step ---- */

  /** The bookkeeping of a resumed call is not what the tables and the live map say. */
  lemma SameRowsSameLeft(s: State, t: State, iid: string)
    requires t.live == s.live && t.db.interactions == s.db.interactions
    ensures Left(t, iid) <==> Left(s, iid)
  {
  }

  /** A startup that fails, right after its call was resumed. */
  lemma FailedCallLeaves(s: State, flow: Flow, summary: string, now: Time, iid: string)
    requires Inv(s)
    ensures Left(FailStartup(s.(flows := s.flows - multiset{flow}), flow.sessionId, summary, now), iid) <==>
      Left(s, iid) || PendingIn(s.db, iid, flow.sessionId)
  {
    var t := s.(flows := s.flows - multiset{flow});
    SameRowsSameLive(s, t);
    FailedStartupLeaves(t, flow.sessionId, summary, now, iid);
  }

  const FAILED := "Codex session startup failed (RuntimeError)"

  lemma ThreadStartLeaves(s: State, sid: string, threadId: string, up: bool, now: Time, iid: string)
    requires Inv(s)
    ensures Left(ResumeThread(s, sid, threadId, up, now), iid) <==>
      Left(s, iid) || Orphans(s, ThreadStarted(sid, threadId, up, now), iid)
  {
    var flow, t := StartingThread(sid), ResumeThread(s, sid, threadId, up, now);
    if FailedStart(s, ThreadStarted(sid, threadId, up, now)).Some? {
      assert t == FailStartup(s.(flows := s.flows - multiset{flow}), sid, FAILED, now);
      FailedCallLeaves(s, flow, FAILED, now, iid);
    } else {
      SameRowsSameLeft(s, t, iid);
    }
  }

  lemma TurnStartLeaves(s: State, sid: string, turnId: string, up: bool, now: Time, iid: string)
    requires Inv(s)
    ensures Left(ResumeTurn(s, sid, turnId, up, now), iid) <==>
      Left(s, iid) || Orphans(s, TurnBegun(sid, turnId, up, now), iid)
  {
    var flow, t := StartingTurn(sid), ResumeTurn(s, sid, turnId, up, now);
    if FailedStart(s, TurnBegun(sid, turnId, up, now)).Some? {
      assert t == FailStartup(s.(flows := s.flows - multiset{flow}), sid, FAILED, now);
      FailedCallLeaves(s, flow, FAILED, now, iid);
    } else {
      SameRowsSameLeft(s, t, iid);
    }
  }

  lemma RaisedStartLeaves(s: State, flow: Flow, summary: string, now: Time, iid: string)
    requires Inv(s)
    ensures Left(ResumeStartupRaised(s, flow, summary, now), iid) <==>
      Left(s, iid) || Orphans(s, StartupRaised(flow, summary, now), iid)
  {
    var t := ResumeStartupRaised(s, flow, summary, now);
    if FailedStart(s, StartupRaised(flow, summary, now)).Some? {
      assert t == FailStartup(s.(flows := s.flows - multiset{flow}), flow.sessionId, summary, now);
      FailedCallLeaves(s, flow, summary, now, iid);
    } else {
      assert t == s;
    }
  }

  /** Every other end of a session, right after the call that asked for it was resumed. */
  lemma ResumedEndLeavesNothing(s: State, flows: multiset<Flow>, interactive: set<string>, sid: string,
                                terminal: SessionStatus, event: EventType, summary: string, now: Time, iid: string)
    requires Inv(s)
    ensures Left(EndSession(s.(flows := flows, interactive := interactive), sid, terminal, event, summary, true, now), iid)
      <==> Left(s, iid)
  {
    var t := s.(flows := flows, interactive := interactive);
    SameRowsSameLive(s, t);
    EndLeavesNothing(t, sid, terminal, event, summary, now, iid);
  }

  lemma RaisedLeavesNothing(s: State, flow: Flow, summary: string, now: Time, iid: string)
    requires Inv(s)
    ensures Left(ResumeResponderRaised(s, flow, summary, now), iid) <==> Left(s, iid)
  {
    ResumedEndLeavesNothing(s, s.flows - multiset{flow}, s.interactive, flow.sessionId, Interrupted,
                            SessionInterrupted, summary, now, iid);
  }

  lemma InterruptLeavesNothing(s: State, flow: Flow, now: Time, iid: string)
    requires Inv(s)
    ensures Left(ResumeInterrupted(s, flow, now), iid) <==> Left(s, iid)
  {
    if flow.InterruptingTurn? {
      ResumedEndLeavesNothing(s, s.flows - multiset{flow}, s.interactive, flow.sessionId, Interrupted,
                              SessionInterrupted, flow.summary, now, iid);
    }
  }

  lemma LarkLeavesNothing(s: State, x: string, actor: string, allow: Option<bool>,
                          answers: Option<map<string, string>>, now: Time, iid: string)
    ensures Left(ResolveInteraction(s, x, actor, allow, answers, now), iid) <==> Left(s, iid)
  {
    if x in s.live {
      var resolved := Resolution(s.live[x].interaction.kind, s.live[x].request.params, allow, answers);
      if resolved.Ok? {
        SettleLeavesNothing(s, x, resolved.value.1, actor, Resolved, now, iid);
      }
    }
  }

  lemma TerminalLeavesNothing(s: State, requestId: RequestId, result: Json, found: Option<string>, now: Time, iid: string)
    ensures Left(ResolveTerminalRequest(s, requestId, result, found, now), iid) <==> Left(s, iid)
  {
    if found.Some? && found.value in s.live {
      var entry := s.live[found.value];
      var decision := TerminalDecision(entry.interaction.kind, entry.request.params, result);
      if decision.Ok? {
        SettleLeavesNothing(s, found.value, decision.value, "terminal", Resolved, now, iid);
      }
    }
  }

  lemma RequestLeavesNothing(s: State, request: ServerRequest, target: Option<string>, byThread: Option<string>,
                             x: string, summary: string, now: Time, iid: string)
    requires LiveTracksPending(s)
    ensures Left(ProcessServerRequest(s, request, target, byThread, x, summary, now), iid) <==> Left(s, iid)
  {
    var addressee, kind := Addressee(s.db, request, target, byThread), KindOf(request.methodName);
    if addressee.Some? && kind.Some? {
      AdmitLeavesNothing(s, request, addressee.value, kind.value, x, summary, now, iid);
    }
  }

  lemma ExpiryLeavesNothing(s: State, x: string, params: map<string, Json>, now: Time, iid: string)
    requires Inv(s)
    ensures Left(ExpireInteraction(s, x, params, now), iid) <==> Left(s, iid)
  {
    if x in s.db.interactions {
      var row := s.db.interactions[x];
      TimeOutLeavesNothing(s, x, row.sessionId, row.kind, TimeoutDecision(row.kind),
                           DenialResponse(row.kind, params).Ok?, now, iid);
    }
  }

  lemma TurnEndLeavesNothing(s: State, threadId: string, turn: Option<string>, outcome: SessionStatus,
                             byThread: Option<string>, summary: string, now: Time, iid: string)
    requires LiveTracksPending(s)
    ensures Left(ProcessTurnCompleted(s, threadId, turn, outcome, byThread, summary, now), iid) <==> Left(s, iid)
  {
    if byThread.Some? {
      var sid := byThread.value;
      if turn.Some? {
        FinishLeavesNothing(s, sid, turn.value, summary, now, iid);
      }
      EndLeavesNothing(s, sid, outcome, if outcome.Interrupted? then SessionInterrupted else SessionCompleted,
                       summary, now, iid);
    }
  }

  /* ---- every action ---- */

  lemma StartupLeaves(s: State, a: Action, iid: string)
    requires Inv(s) && IsStartup(a)
    ensures Left(StartupStep(s, a), iid) <==> Left(s, iid) || Orphans(s, a, iid)
  {
    match a
    case ThreadStarted(sid, threadId, up, now) => ThreadStartLeaves(s, sid, threadId, up, now, iid);
    case TurnBegun(sid, turnId, up, now) => TurnStartLeaves(s, sid, turnId, up, now, iid);
    case StartupRaised(flow, summary, now) => RaisedStartLeaves(s, flow, summary, now, iid);
    case CreateManaged(sid, row) => SameRowsSameLeft(s, CreateManagedSession(s, sid, row), iid);
    case CreateInteractive(sid, row) => SameRowsSameLeft(s, CreateInteractiveSession(s, sid, row), iid);
    case BindInteractive(sid, threadId, turn, now) => SameRowsSameLeft(s, BindThread(s, sid, threadId, turn, now), iid);
  }

  lemma ExchangeForgets(s: State, a: Action, iid: string)
    requires Inv(s) && IsExchange(a)
    ensures Left(ExchangeStep(s, a), iid) <==> Left(s, iid) && !Forgets(s, a, iid)
  {
    match a
    case ReceiveRequest(request, target, byThread, x, summary, now) =>
      RequestLeavesNothing(s, request, target, byThread, x, summary, now, iid);
    case AnswerFromLark(x, actor, allow, answers, now) => LarkLeavesNothing(s, x, actor, allow, answers, now, iid);
    case AnswerFromTerminal(requestId, result, found, now) =>
      TerminalLeavesNothing(s, requestId, result, found, now, iid);
    case UpstreamResolved(requestId, found, now) => NoticeForgets(s, requestId, found, now, iid);
    case ExpireOne(x, now) =>
      ExpiryLeavesNothing(s, x, if x in s.live then s.live[x].request.params else map[], now, iid);
  }

  lemma ResumptionLeavesNothing(s: State, a: Action, iid: string)
    requires Inv(s) && IsResumption(a)
    ensures Left(ResumptionStep(s, a), iid) <==> Left(s, iid)
  {
    match a
    case ResponderReturned(flow, now) => SameRowsSameLeft(s, ResumeResponded(s, flow, now), iid);
    case ResponderRaised(flow, summary, now) => RaisedLeavesNothing(s, flow, summary, now, iid);
    case InterruptAttempted(flow, now) => InterruptLeavesNothing(s, flow, now, iid);
  }

  lemma TurnLeavesNothing(s: State, a: Action, iid: string)
    requires Inv(s) && IsTurn(a)
    ensures Left(TurnStep(s, a), iid) <==> Left(s, iid)
  {
    match a
    case TurnStartedNotice(threadId, turnId, byThread, now) =>
      SameRowsSameLeft(s, ProcessTurnStarted(s, threadId, turnId, byThread, now), iid);
    case TurnCompletedNotice(threadId, turn, outcome, byThread, summary, now) =>
      TurnEndLeavesNothing(s, threadId, turn, outcome, byThread, summary, now, iid);
  }

  lemma EndingLeavesNothing(s: State, a: Action, iid: string)
    requires Inv(s) && IsEnding(a)
    ensures Left(EndingStep(s, a), iid) <==> Left(s, iid)
  {
    match a
    case CancelSession(sid, now) =>
      EndLeavesNothing(s, sid, SessionStatus.Cancelled, SessionCompleted, "cancelled", now, iid);
    case CloseInteractive(sid, now) =>
      ResumedEndLeavesNothing(s, s.flows, s.interactive - {sid}, sid, SessionStatus.Cancelled, SessionCompleted,
                              "interactive session closed", now, iid);
    case InterruptActive(sid, summary, now) =>
      EndLeavesNothing(s, sid, Interrupted, SessionInterrupted, summary, now, iid);
  }

  lemma DeliveryLeavesNothing(s: State, a: Action, iid: string)
    requires IsDelivery(a)
    ensures Left(DeliveryStep(s, a), iid) <==> Left(s, iid)
  {
  }

  lemma RestartsForget(s: State, a: Action, iid: string)
    requires a.Restart?
    ensures Left(Apply(s, a), iid) <==> Left(s, iid) && !Forgets(s, a, iid)
  {
    if Forgets(s, a, iid) {
      var db := LeftBehind(s, a.during, a.partway);
      AnnounceKeepsLive(Reconciled(s, db, a.now), a.order[..a.announced], a.now);
    }
  }

  lemma {:induction false} AnnounceKeepsLive(s: State, sids: seq<string>, now: Time)
    ensures Announce(s, sids, now).live == s.live
    decreases sids
  {
    if sids != [] {
      AnnounceKeepsLive(Emit(s, SessionInterrupted, sids[0], None, "interrupted during daemon restart", now), sids[1..], now);
    }
  }

  /** What one action does to the entries left behind: a failed startup adds those it orphans, a notice or a
      restart may forget some, and no other action changes anything. */
  lemma StepLeaves(s: State, a: Action, iid: string)
    requires Inv(s)
    ensures Left(Apply(s, a), iid) <==> Orphans(s, a, iid) || (Left(s, iid) && !Forgets(s, a, iid))
  {
    if IsStartup(a) {
      StartupLeaves(s, a, iid);
    } else if IsExchange(a) {
      ExchangeForgets(s, a, iid);
    } else if IsResumption(a) {
      ResumptionLeavesNothing(s, a, iid);
    } else if IsTurn(a) {
      TurnLeavesNothing(s, a, iid);
    } else if IsEnding(a) {
      EndingLeavesNothing(s, a, iid);
    } else if IsDelivery(a) {
      DeliveryLeavesNothing(s, a, iid);
    } else {
      RestartsForget(s, a, iid);
    }
  }

  /* ---- main results ---- */

  function Before(timeout: nat, delay: nat, run: seq<Action>, k: nat): State
    requires k <= |run|
  {
    Exec(Init(timeout, delay), run[..k])
  }

  /** Some step of the run orphaned the entry, and no later one forgot it. */
  ghost predicate LeftByRun(timeout: nat, delay: nat, run: seq<Action>, iid: string) {
    exists k :: 0 <= k < |run| && OrphanedAt(timeout, delay, run, k, iid)
  }

  ghost predicate OrphanedAt(timeout: nat, delay: nat, run: seq<Action>, k: nat, iid: string)
    requires k < |run|
  {
    && Orphans(Before(timeout, delay, run, k), run[k], iid)
    && forall j :: k < j < |run| ==> !Forgets(Before(timeout, delay, run, j), run[j], iid)
  }

  /** Over every run: an entry is stale at the end if and only if a failed startup orphaned it and neither a
      notice nor a restart has forgotten it since. */
  lemma {:induction false} StaleExactlyWhenOrphaned(timeout: nat, delay: nat, run: seq<Action>, iid: string)
    ensures IsStale(Exec(Init(timeout, delay), run), iid) <==> LeftByRun(timeout, delay, run, iid)
    decreases |run|
  {
    InitIsGood(timeout, delay);
    ExecKeepsInv(Init(timeout, delay), run);
    StaleMeansLeft(Exec(Init(timeout, delay), run), iid);
    if run != [] {
      var init, last := run[..|run| - 1], run[|run| - 1];
      var s := Exec(Init(timeout, delay), init);
      StaleExactlyWhenOrphaned(timeout, delay, init, iid);
      ExecKeepsInv(Init(timeout, delay), init);
      StaleMeansLeft(s, iid);
      StepLeaves(s, last, iid);
      LastStep(timeout, delay, run);
      ExecOne(s, last);
      LeftByLonger(timeout, delay, run, iid);
    }
  }

  lemma EndsInLast(run: seq<Action>)
    requires run != []
    ensures run == run[..|run| - 1] + [run[|run| - 1]]
  {
  }

  lemma LastStep(timeout: nat, delay: nat, run: seq<Action>)
    requires run != []
    ensures Exec(Init(timeout, delay), run) == Exec(Before(timeout, delay, run, |run| - 1), [run[|run| - 1]])
  {
    EndsInLast(run);
    ExecAppends(Init(timeout, delay), run[..|run| - 1], [run[|run| - 1]]);
  }

  lemma LeftByLonger(timeout: nat, delay: nat, run: seq<Action>, iid: string)
    requires run != []
    ensures var n := |run| - 1;
      var s := Before(timeout, delay, run, n);
      LeftByRun(timeout, delay, run, iid) <==>
      Orphans(s, run[n], iid) || (LeftByRun(timeout, delay, run[..n], iid) && !Forgets(s, run[n], iid))
  {
    var n := |run| - 1;
    var init := run[..n];
    if k :| 0 <= k < |run| && OrphanedAt(timeout, delay, run, k, iid) && k < n {
      OrphanedInShorter(timeout, delay, run, k, iid);
    }
    if k :| 0 <= k < n && OrphanedAt(timeout, delay, init, k, iid) {
      OrphanedInShorter(timeout, delay, run, k, iid);
    }
    if Orphans(Before(timeout, delay, run, n), run[n], iid) {
      assert OrphanedAt(timeout, delay, run, n, iid);
    }
  }

  lemma OrphanedInShorter(timeout: nat, delay: nat, run: seq<Action>, k: nat, iid: string)
    requires k < |run| - 1
    ensures OrphanedAt(timeout, delay, run, k, iid) <==>
      OrphanedAt(timeout, delay, run[..|run| - 1], k, iid)
      && !Forgets(Before(timeout, delay, run, |run| - 1), run[|run| - 1], iid)
  {
    var n := |run| - 1;
    var init := run[..n];
    forall j | 0 <= j < n ensures Before(timeout, delay, run, j) == Before(timeout, delay, init, j) && run[j] == init[j] {
      PrefixOfPrefix(run, n, j);
    }
  }

  lemma PrefixOfPrefix(run: seq<Action>, n: nat, k: nat)
    requires k <= n <= |run|
    ensures run[..n][..k] == run[..k]
  {
  }

  /* ---- entries are left behind ---- */

  /** A request arrives over the thread of a session whose first turn is being started, and the start fails. */
  function StaleRun(sid: string, row: Session, thread: string, request: ServerRequest, iid: string): seq<Action> {
    [CreateManaged(sid, row), ThreadStarted(sid, thread, true, 0),
     ReceiveRequest(request, None, Some(sid), iid, "", 0), TurnBegun(sid, "u", false, 0)]
  }

  /** Such a run leaves its entry behind, for every request of a known method that names a thread. */
  lemma StaleEntriesArise(timeout: nat, delay: nat, sid: string, row: Session, thread: string,
                          request: ServerRequest, iid: string)
    requires KindOf(request.methodName).Some?
    requires TextParam(request.params, "threadId") == Some(thread) && thread != ""
    ensures IsStale(Exec(Init(timeout, delay), StaleRun(sid, row, thread, request, iid)), iid)
  {
    var s0 := Init(timeout, delay);
    var create, start := CreateManaged(sid, row), ThreadStarted(sid, thread, true, 0);
    var receive, fail := ReceiveRequest(request, None, Some(sid), iid, "", 0), TurnBegun(sid, "u", false, 0);
    FirstStepsStart(timeout, delay, sid, row, thread);
    ThirdStepAdmits(Apply(Apply(s0, create), start), sid, thread, request, iid);
    LastStepOrphans(Apply(Apply(Apply(s0, create), start), receive), sid, iid);
    RunOfFour(s0, create, start, receive, fail);
  }

  /** The session waits for its first turn to be started. */
  ghost predicate TurnStarting(s: State, sid: string, thread: string) {
    && Inv(s) && SessionActive(s.db, sid) && s.db.sessions[sid].threadId == Some(thread)
    && StartingTurn(sid) in s.flows && s.db.interactions == map[] && s.interactive == {}
  }

  ghost predicate AskedWhileStarting(s: State, sid: string, iid: string) {
    Inv(s) && StartingTurn(sid) in s.flows && PendingIn(s.db, iid, sid)
  }

  lemma FirstStepsStart(timeout: nat, delay: nat, sid: string, row: Session, thread: string)
    ensures TurnStarting(Apply(Apply(Init(timeout, delay), CreateManaged(sid, row)), ThreadStarted(sid, thread, true, 0)),
                         sid, thread)
  {
    StartingATurn(timeout, delay, sid, row, thread);
  }

  lemma ThirdStepAdmits(s: State, sid: string, thread: string, request: ServerRequest, iid: string)
    requires TurnStarting(s, sid, thread) && KindOf(request.methodName).Some?
    requires TextParam(request.params, "threadId") == Some(thread) && thread != ""
    ensures AskedWhileStarting(Apply(s, ReceiveRequest(request, None, Some(sid), iid, "", 0)), sid, iid)
  {
    AdmittedWhileStarting(s, sid, thread, request, iid);
  }

  lemma LastStepOrphans(s: State, sid: string, iid: string)
    requires AskedWhileStarting(s, sid, iid)
    ensures IsStale(Apply(s, TurnBegun(sid, "u", false, 0)), iid)
  {
    FailedTurnOrphans(s, sid, iid);
  }

  lemma FailedTurnOrphans(s: State, sid: string, iid: string)
    requires Inv(s) && StartingTurn(sid) in s.flows && PendingIn(s.db, iid, sid)
    ensures IsStale(ResumeTurn(s, sid, "u", false, 0), iid)
  {
    var t := s.(flows := s.flows - multiset{StartingTurn(sid)});
    assert ResumeTurn(s, sid, "u", false, 0) == FailStartup(t, sid, FAILED, 0);
    FailedCallLeaves(s, StartingTurn(sid), FAILED, 0, iid);
    ResumeTurnGood(s, sid, "u", false, 0);
    StaleMeansLeft(ResumeTurn(s, sid, "u", false, 0), iid);
  }

  lemma StartingATurn(timeout: nat, delay: nat, sid: string, row: Session, thread: string)
    ensures var s := ResumeThread(CreateManagedSession(Init(timeout, delay), sid, row), sid, thread, true, 0);
      && Inv(s) && SessionActive(s.db, sid) && s.db.sessions[sid].threadId == Some(thread)
      && StartingTurn(sid) in s.flows && s.db.interactions == map[] && s.interactive == {}
  {
    InitIsGood(timeout, delay);
    CreateGood(Init(timeout, delay), sid, row);
    ResumeThreadGood(CreateManagedSession(Init(timeout, delay), sid, row), sid, thread, true, 0);
  }

  lemma AdmittedWhileStarting(s: State, sid: string, thread: string, request: ServerRequest, iid: string)
    requires Inv(s) && SessionActive(s.db, sid) && s.db.sessions[sid].threadId == Some(thread)
    requires s.db.interactions == map[] && s.interactive == {}
    requires KindOf(request.methodName).Some?
    requires TextParam(request.params, "threadId") == Some(thread) && thread != ""
    ensures var t := ProcessServerRequest(s, request, None, Some(sid), iid, "", 0);
      && Inv(t) && PendingIn(t.db, iid, sid) && SessionActive(t.db, sid) && t.flows == s.flows
  {
    var kind := KindOf(request.methodName).value;
    ThreadAdmits(s, sid, thread, request, kind, iid);
    AdmitGood(s, request, sid, kind, iid, "", 0);
    FirstRequestIsAdmitted(s, sid, request, kind, iid);
  }

  lemma ThreadAdmits(s: State, sid: string, thread: string, request: ServerRequest, kind: InteractionKind, iid: string)
    requires SessionActive(s.db, sid) && s.db.sessions[sid].threadId == Some(thread) && s.interactive == {}
    requires KindOf(request.methodName) == Some(kind)
    requires TextParam(request.params, "threadId") == Some(thread) && thread != ""
    ensures ProcessServerRequest(s, request, None, Some(sid), iid, "", 0) == Admit(s, request, sid, kind, iid, "", 0)
  {
    assert SelectsByThread(s.db, thread, Some(sid));
    assert Addressee(s.db, request, None, Some(sid)) == Some(sid);
  }

  lemma FirstRequestIsAdmitted(s: State, sid: string, request: ServerRequest, kind: InteractionKind, iid: string)
    requires SessionActive(s.db, sid) && s.db.interactions == map[]
    ensures var t := Admit(s, request, sid, kind, iid, "", 0);
      PendingIn(t.db, iid, sid) && SessionActive(t.db, sid) && t.flows == s.flows
  {
    var row := NewRow(s, request, sid, kind, "", 0);
    assert !ViolatesUniqueness(s.db, iid, row);
  }

  lemma RunOfFour(s: State, a: Action, b: Action, c: Action, d: Action)
    ensures Exec(s, [a, b, c, d]) == Apply(Apply(Apply(Apply(s, a), b), c), d)
  {
    FirstOfRun(s, a, [b, c, d]);
    FirstOfRun(Apply(s, a), b, [c, d]);
    FirstOfRun(Apply(Apply(s, a), b), c, [d]);
    ExecOne(Apply(Apply(Apply(s, a), b), c), d);
    assert [a] + [b, c, d] == [a, b, c, d] && [b] + [c, d] == [b, c, d] && [c] + [d] == [c, d];
  }

  lemma FirstOfRun(s: State, a: Action, rest: seq<Action>)
    ensures Exec(s, [a] + rest) == Exec(Apply(s, a), rest)
  {
    ExecAppends(s, [a], rest);
    ExecOne(s, a);
  }

  /* ---- what a stale entry costs ---- */

  /** Among the entries that are not stale a JSON-RPC id names at most one. */
  lemma RequestIdNamesOnePendingEntry(s: State, i: string, j: string)
    requires Inv(s) && i in s.live && j in s.live && !IsStale(s, i) && !IsStale(s, j)
    ensures s.live[i].request.id == s.live[j].request.id <==> i == j
  {
    if s.live[i].request.id == s.live[j].request.id {
      assert IsPending(s.db, i) && IsPending(s.db, j);
    }
  }

  lemma LookupMeansSameId(s: State, id: RequestId, j: string)
    requires Inv(s) && j in s.live
    ensures FindsLive(s, id, Some(j)) <==> s.live[j].request.id == id
  {
    assert Repeats(s.live[j], s.db.interactions[j]);
    CanonicalIsInjective(s.live[j].request.id, id);
  }

  /** Every lookup of the id of a pending interaction returns that interaction if and only if no stale entry has
      the same id. */
  lemma LookupFindsPendingUnlessStale(s: State, iid: string)
    requires Inv(s) && IsPending(s.db, iid)
    ensures iid in s.live
    ensures (forall found :: FindsLive(s, s.live[iid].request.id, found) ==> found == Some(iid)) <==>
      (forall j :: j in s.live && IsStale(s, j) ==> s.live[j].request.id != s.live[iid].request.id)
  {
    assert iid in s.live;
    var id := s.live[iid].request.id;
    LookupMeansSameId(s, id, iid);
    forall j | j in s.live ensures FindsLive(s, id, Some(j)) <==> s.live[j].request.id == id {
      LookupMeansSameId(s, id, j);
    }
    if forall j :: j in s.live && IsStale(s, j) ==> s.live[j].request.id != id {
      forall found | FindsLive(s, id, found) ensures found == Some(iid) {
        if found.Some? {
          RequestIdNamesOnePendingEntry(s, found.value, iid);
        }
      }
    } else {
      var j :| j in s.live && IsStale(s, j) && s.live[j].request.id == id;
      assert FindsLive(s, id, Some(j)) && j != iid;
    }
  }

  /** When the lookup returns a stale entry, a terminal answer changes nothing, and a "resolved" notice
      changes no table: the pending interaction stays as it was. */
  lemma StaleLookupLosesTheAnswer(s: State, id: RequestId, stale: string, result: Json, now: Time)
    requires Inv(s) && IsStale(s, stale) && FindsLive(s, id, Some(stale))
    ensures ResolveTerminalRequest(s, id, result, Some(stale), now) == s
    ensures ProcessResolved(s, id, Some(stale), now) == s.(live := s.live - {stale})
  {
  }
}
