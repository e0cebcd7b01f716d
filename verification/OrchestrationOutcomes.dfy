/** What each action of the orchestrator does to the session or interaction it is about, read off the tables. */
module OrchestrationOutcomes {
  import opened CodexModel
  import opened RequestIds
  import opened InteractionCodec
  import opened CodexStore
  import opened Orchestration
  import opened OrchestrationSafety

  /* ---- what may be seen afterwards ---- */

  /** One notification was added: of this event, about this session, due after the configured delay. */
  ghost predicate Announces(s: State, t: State, event: EventType, sid: string, iid: Option<string>, summary: string, now: Time) {
    && |t.db.outbox| == |s.db.outbox| + 1 && t.db.outbox[..|s.db.outbox|] == s.db.outbox
    && var item := t.db.outbox[|s.db.outbox|];
      && item.notice == Orchestrator(event, sid) && item.interactionId == iid
      && item.payloadSummary == SafeSummary(summary)
      && item.createdAt == now && item.nextAttemptAt == now + s.notifyDelay
      && item.attemptCount == 0 && item.sentAt.None?
      && (sid in s.db.sessions ==> item.sessionName == Some(s.db.sessions[sid].name))
  }

  /** No session but `sid` changed. */
  ghost predicate OnlySession(s: State, t: State, sid: string) {
    && t.db.sessions.Keys == s.db.sessions.Keys
    && forall x :: x in s.db.sessions && x != sid ==> t.db.sessions[x] == s.db.sessions[x]
  }

  /** The session ended with this status and summary, its pending requests were cancelled, and that was announced. */
  ghost predicate EndsAs(s: State, t: State, sid: string, status: SessionStatus, event: EventType, summary: string, now: Time) {
    && OnlySession(s, t, sid) && sid in s.db.sessions
    && t.db.sessions[sid] == s.db.sessions[sid].(status := status, summary := SafeSummary(summary), updatedAt := now)
    && CancelsRequestsOf(s, t, sid, now)
    && Announces(s, t, event, sid, None, summary, now)
  }

  ghost predicate CancelsRequestsOf(s: State, t: State, sid: string, now: Time) {
    && t.db.interactions.Keys == s.db.interactions.Keys
    && (forall iid :: PendingIn(s.db, iid, sid) ==>
      t.db.interactions[iid] ==
        s.db.interactions[iid].(status := InteractionStatus.Cancelled, resolvedAt := Some(now)))
    && (forall iid :: iid in s.db.interactions && !PendingIn(s.db, iid, sid) ==>
      t.db.interactions[iid] == s.db.interactions[iid])
  }

  lemma EndSessionEndsAs(s: State, sid: string, status: SessionStatus, event: EventType, summary: string,
                         drop: bool, now: Time)
    requires SessionActive(s.db, sid) && !IsActive(status)
    ensures EndsAs(s, EndSession(s, sid, status, event, summary, drop, now), sid, status, event, summary, now)
  {
  }

  /* ---- how sessions end ---- */

  /** A managed session ends as its turn ended; an interrupted turn is announced as an interruption, any other as a
      completion. */
  lemma ManagedTurnEndsSession(s: State, threadId: string, turn: Option<string>, outcome: SessionStatus,
                               sid: string, summary: string, now: Time)
    requires SessionActive(s.db, sid) && s.db.sessions[sid].threadId == Some(threadId) && sid !in s.interactive
    requires outcome == Succeeded || outcome == Failed || outcome == Interrupted
    ensures EndsAs(s, Apply(s, TurnCompletedNotice(threadId, turn, outcome, Some(sid), summary, now)), sid, outcome,
                   if outcome == Interrupted then SessionInterrupted else SessionCompleted, summary, now)
  {
    var event := if outcome == Interrupted then SessionInterrupted else SessionCompleted;
    assert Apply(s, TurnCompletedNotice(threadId, turn, outcome, Some(sid), summary, now))
        == EndSession(s, sid, outcome, event, summary, true, now);
    EndSessionEndsAs(s, sid, outcome, event, summary, true, now);
  }

  /** The current turn of an interactive session ends without ending the session: it goes on without a turn. */
  lemma InteractiveTurnEnds(s: State, threadId: string, turn: string, outcome: SessionStatus,
                            sid: string, summary: string, now: Time)
    requires SessionActive(s.db, sid) && s.db.sessions[sid].threadId == Some(threadId) && sid in s.interactive
    requires outcome == Succeeded || outcome == Failed || outcome == Interrupted
    requires s.db.sessions[sid].turnId == Some(turn) && turn != ""
    ensures var t := Apply(s, TurnCompletedNotice(threadId, Some(turn), outcome, Some(sid), summary, now));
      && OnlySession(s, t, sid) && CancelsRequestsOf(s, t, sid, now)
      && t.db.sessions[sid] ==
        s.db.sessions[sid].(status := Running, turnId := None, summary := SafeSummary(summary), updatedAt := now)
      && Announces(s, t, if outcome == Interrupted then TurnInterrupted else TurnCompleted, sid, None, summary, now)
  {
    var db := FinishInteractiveTurn(s.db, sid, turn, summary, now).0;
    assert Apply(s, TurnCompletedNotice(threadId, Some(turn), outcome, Some(sid), summary, now))
        == Emit(s.(db := db, live := DropLive(s.live, sid)),
                if outcome == Interrupted then TurnInterrupted else TurnCompleted, sid, None, summary, now);
  }

  /** Any other end of a turn is ignored: of no active session, with no final status, or of another turn. */
  lemma OtherTurnEndsAreIgnored(s: State, threadId: string, turn: Option<string>, outcome: SessionStatus,
                                byThread: Option<string>, summary: string, now: Time)
    requires byThread.None? || !SessionActive(s.db, byThread.value) || IsActive(outcome)
      || (byThread.value in s.interactive && (turn.None? || turn != s.db.sessions[byThread.value].turnId))
    ensures Apply(s, TurnCompletedNotice(threadId, turn, outcome, byThread, summary, now)) == s
  {
  }

  lemma CancelEndsSession(s: State, sid: string, now: Time)
    requires SessionActive(s.db, sid)
    ensures EndsAs(s, Apply(s, CancelSession(sid, now)), sid, SessionStatus.Cancelled, SessionCompleted, "cancelled", now)
  {
    EndSessionEndsAs(s, sid, SessionStatus.Cancelled, SessionCompleted, "cancelled", true, now);
  }

  lemma CloseEndsSession(s: State, sid: string, now: Time)
    requires SessionActive(s.db, sid)
    ensures var t := Apply(s, CloseInteractive(sid, now));
      && EndsAs(s, t, sid, SessionStatus.Cancelled, SessionCompleted, "interactive session closed", now)
      && sid !in t.interactive
  {
    var u := s.(interactive := s.interactive - {sid});
    EndSessionEndsAs(u, sid, SessionStatus.Cancelled, SessionCompleted, "interactive session closed", true, now);
  }

  lemma InterruptEndsSession(s: State, sid: string, summary: string, now: Time)
    requires SessionActive(s.db, sid)
    ensures EndsAs(s, Apply(s, InterruptActive(sid, summary, now)), sid, Interrupted, SessionInterrupted, summary, now)
  {
    EndSessionEndsAs(s, sid, Interrupted, SessionInterrupted, summary, true, now);
  }

  /** A startup call that raised: the session failed, and that is announced as a completion. */
  lemma RaisedStartupEndsSession(s: State, flow: Flow, summary: string, now: Time)
    requires flow in s.flows && (flow.StartingThread? || flow.StartingTurn?) && SessionActive(s.db, flow.sessionId)
    ensures EndsAs(s, Apply(s, StartupRaised(flow, summary, now)), flow.sessionId, Failed, SessionCompleted, summary, now)
  {
    EndSessionEndsAs(s.(flows := s.flows - multiset{flow}), flow.sessionId, Failed, SessionCompleted, summary, false, now);
  }

  /** The app-server was found dead, or the session was no longer waiting, after the thread was started. */
  lemma DeadServerFailsThread(s: State, sid: string, threadId: string, up: bool, now: Time)
    requires StartingThread(sid) in s.flows && SessionActive(s.db, sid) && !(up && s.db.sessions[sid].status == Starting)
    ensures EndsAs(s, Apply(s, ThreadStarted(sid, threadId, up, now)), sid, Failed, SessionCompleted,
                   "Codex session startup failed (RuntimeError)", now)
  {
    var t, text := s.(flows := s.flows - multiset{StartingThread(sid)}), "Codex session startup failed (RuntimeError)";
    assert Apply(s, ThreadStarted(sid, threadId, up, now)) == EndSession(t, sid, Failed, SessionCompleted, text, false, now);
    EndSessionEndsAs(t, sid, Failed, SessionCompleted, text, false, now);
  }

  lemma DeadServerFailsTurn(s: State, sid: string, turnId: string, now: Time)
    requires StartingTurn(sid) in s.flows && SessionActive(s.db, sid)
    ensures EndsAs(s, Apply(s, TurnBegun(sid, turnId, false, now)), sid, Failed, SessionCompleted,
                   "Codex session startup failed (RuntimeError)", now)
  {
    var t, text := s.(flows := s.flows - multiset{StartingTurn(sid)}), "Codex session startup failed (RuntimeError)";
    assert Apply(s, TurnBegun(sid, turnId, false, now)) == EndSession(t, sid, Failed, SessionCompleted, text, false, now);
    EndSessionEndsAs(t, sid, Failed, SessionCompleted, text, false, now);
  }

  /** A response that could not be delivered interrupts the session. */
  lemma RaisedResponderEndsSession(s: State, flow: Flow, summary: string, now: Time)
    requires flow in s.flows && flow.Responding? && SessionActive(s.db, flow.sessionId)
    ensures EndsAs(s, Apply(s, ResponderRaised(flow, summary, now)), flow.sessionId, Interrupted, SessionInterrupted,
                   summary, now)
  {
    EndSessionEndsAs(s.(flows := s.flows - multiset{flow}), flow.sessionId, Interrupted, SessionInterrupted, summary,
                     true, now);
  }

  /** So does an expired question, once its turn was interrupted. */
  lemma AttemptedInterruptEndsSession(s: State, flow: Flow, now: Time)
    requires flow in s.flows && flow.InterruptingTurn? && SessionActive(s.db, flow.sessionId)
    ensures EndsAs(s, Apply(s, InterruptAttempted(flow, now)), flow.sessionId, Interrupted, SessionInterrupted,
                   flow.summary, now)
  {
    EndSessionEndsAs(s.(flows := s.flows - multiset{flow}), flow.sessionId, Interrupted, SessionInterrupted, flow.summary,
                     true, now);
  }

  /* ---- how sessions start ---- */

  lemma ManagedSessionIsCreated(s: State, sid: string, row: Session)
    requires sid !in s.db.sessions
    ensures var t := Apply(s, CreateManaged(sid, row));
      && t.db == s.db.(sessions := s.db.sessions[sid := row.(status := Starting, summary := SafeSummary(row.summary))])
      && t.flows == s.flows + multiset{StartingThread(sid)} && t.interactive == s.interactive && t.live == s.live
  {
  }

  lemma InteractiveSessionIsCreated(s: State, sid: string, row: Session)
    requires sid !in s.db.sessions
    ensures var t := Apply(s, CreateInteractive(sid, row));
      && t.db == s.db.(sessions := s.db.sessions[sid := row.(status := Starting, summary := SafeSummary(row.summary))])
      && t.flows == s.flows && t.interactive == s.interactive + {sid} && t.live == s.live
  {
  }

  /** A started thread is bound to the session that waits for it, and the turn is started next. */
  lemma ThreadIsBound(s: State, sid: string, threadId: string, now: Time)
    requires StartingThread(sid) in s.flows && sid in s.db.sessions && s.db.sessions[sid].status == Starting
    ensures var t := Apply(s, ThreadStarted(sid, threadId, true, now));
      && OnlySession(s, t, sid) && t.db.interactions == s.db.interactions && t.db.outbox == s.db.outbox
      && t.db.sessions[sid] == s.db.sessions[sid].(status := Running, threadId := Some(threadId), updatedAt := now)
      && t.flows == s.flows - multiset{StartingThread(sid)} + multiset{StartingTurn(sid)}
  {
  }

  /** A started turn is bound, and the start of the session is announced. */
  lemma TurnIsBound(s: State, sid: string, turnId: string, now: Time)
    requires StartingTurn(sid) in s.flows && SessionActive(s.db, sid)
    ensures var t := Apply(s, TurnBegun(sid, turnId, true, now));
      && OnlySession(s, t, sid) && t.db.interactions == s.db.interactions
      && t.db.sessions[sid] == s.db.sessions[sid].(status := Running, turnId := Some(turnId), updatedAt := now)
      && Announces(s, t, SessionStarted, sid, None, "session started", now)
      && t.flows == s.flows - multiset{StartingTurn(sid)}
  {
  }

  /** An interactive session gets its thread, and its turn if it is known, only while it is starting. */
  lemma InteractiveThreadIsBound(s: State, sid: string, threadId: string, turn: Option<string>, now: Time)
    ensures var t := Apply(s, BindInteractive(sid, threadId, turn, now));
      if threadId != "" && turn != Some("") && sid in s.db.sessions && s.db.sessions[sid].status == Starting then
        t == s.(db := s.db.(sessions := s.db.sessions[sid :=
          s.db.sessions[sid].(status := Running, threadId := Some(threadId), turnId := turn, updatedAt := now)]))
      else t == s
  {
  }

  /** A later turn is bound to the active session of its thread, which then counts as running. */
  lemma LaterTurnIsBound(s: State, sid: string, threadId: string, turnId: string, now: Time)
    requires SessionActive(s.db, sid) && s.db.sessions[sid].threadId == Some(threadId)
    ensures Apply(s, TurnStartedNotice(threadId, turnId, Some(sid), now)) ==
      s.(db := s.db.(sessions := s.db.sessions[sid :=
        s.db.sessions[sid].(status := Running, turnId := Some(turnId), updatedAt := now)]))
  {
  }

  /* ---- requests ---- */

  /** The four methods that ask for something, and what they ask for. */
  ghost predicate AsksFor(methodName: string, kind: InteractionKind) {
    match kind
    case ExecApproval => methodName == "item/commandExecution/requestApproval"
    case FileChangeApproval => methodName == "item/fileChange/requestApproval"
    case PermissionRequest => methodName == "item/permissions/requestApproval"
    case UserInput => methodName == "item/tool/requestUserInput"
  }

  lemma MethodsHaveTheirKinds(methodName: string)
    ensures forall kind :: KindOf(methodName) == Some(kind) <==> AsksFor(methodName, kind)
  {
  }

  /** The text parameter, if it is there and not empty. */
  ghost predicate Carries(request: ServerRequest, key: string, value: string) {
    value != "" && TextParam(request.params, key) == Some(value)
  }

  /** The session a request is for: the one the caller names, as long as the request names no other thread, or else one
      bound to the thread the request names. An interactive session takes requests of its current turn only. */
  ghost predicate IsFor(s: State, request: ServerRequest, target: Option<string>, byThread: Option<string>, sid: string) {
    && SessionActive(s.db, sid)
    && (target.Some? ==>
      && target.value == sid
      && forall thread :: Carries(request, "threadId", thread) ==> s.db.sessions[sid].threadId == Some(thread))
    && (target.None? ==>
      && byThread == Some(sid) && s.db.sessions[sid].threadId.Some?
      && Carries(request, "threadId", s.db.sessions[sid].threadId.value))
    && (sid in s.interactive ==>
      TextParam(request.params, "turnId").None? || TextParam(request.params, "turnId") == s.db.sessions[sid].turnId)
  }

  ghost predicate IsTaken(s: State, request: ServerRequest, iid: string) {
    iid in s.db.interactions
    || exists j :: IsPending(s.db, j) && s.db.interactions[j].requestId == Canonical(request.id)
  }

  lemma AddresseeIsExact(s: State, request: ServerRequest, target: Option<string>, byThread: Option<string>, sid: string)
    ensures IsFor(s, request, target, byThread, sid) <==>
      && Addressee(s.db, request, target, byThread) == Some(sid) && SessionActive(s.db, sid)
      && !BelongsToOtherTurn(s, sid, request.params)
  {
    var thread := TextParam(request.params, "threadId");
    if thread.Some? && thread.value != "" {
      assert Carries(request, "threadId", thread.value);
    }
  }

  /** A request is refused with the code of section 5.1 of the JSON-RPC 2.0 Specification that says why: no such
      method, no session it is for, or an id that is taken. */
  lemma RefusalIsExact(s: State, request: ServerRequest, target: Option<string>, byThread: Option<string>,
                       iid: string, summary: string, now: Time)
    ensures var code := Refusal(s, request, target, byThread, iid, summary, now);
      var known := exists kind :: AsksFor(request.methodName, kind);
      var addressed := exists sid :: IsFor(s, request, target, byThread, sid);
      && (code == Some(-32601) <==> !known)
      && (code == Some(-32602) <==> known && !addressed)
      && (code == Some(-32600) <==> known && addressed && IsTaken(s, request, iid))
      && (code.None? <==> known && addressed && !IsTaken(s, request, iid))
  {
    MethodsHaveTheirKinds(request.methodName);
    var kind, addressee := KindOf(request.methodName), Addressee(s.db, request, target, byThread);
    assert kind.Some? ==> AsksFor(request.methodName, kind.value);
    IsForOneOrNone(s, request, target, byThread);
  }

  lemma IsForOneOrNone(s: State, request: ServerRequest, target: Option<string>, byThread: Option<string>)
    ensures var addressee := Addressee(s.db, request, target, byThread);
      (exists sid :: IsFor(s, request, target, byThread, sid)) <==>
      && addressee.Some? && SessionActive(s.db, addressee.value)
      && !BelongsToOtherTurn(s, addressee.value, request.params)
  {
    var addressee := Addressee(s.db, request, target, byThread);
    if addressee.Some? {
      AddresseeIsExact(s, request, target, byThread, addressee.value);
    }
    forall sid | IsFor(s, request, target, byThread, sid) ensures addressee == Some(sid) {
      AddresseeIsExact(s, request, target, byThread, sid);
    }
  }

  /** An accepted request is stored as pending under its own kind, in the session it is for, with its deadline; the
      session waits for an answer or an approval; and the request is announced. */
  lemma AcceptedRequestIsStored(s: State, request: ServerRequest, target: Option<string>, byThread: Option<string>,
                                iid: string, summary: string, now: Time)
    requires Refusal(s, request, target, byThread, iid, summary, now).None?
    ensures StoresRequest(s, Apply(s, ReceiveRequest(request, target, byThread, iid, summary, now)),
                          request, target, byThread, iid, summary, now)
  {
    var kind, sid := KindOf(request.methodName).value, Addressee(s.db, request, target, byThread).value;
    AcceptedMeansAdmitted(s, request, target, byThread, iid, summary, now);
    MethodsHaveTheirKinds(request.methodName);
    AddresseeIsExact(s, request, target, byThread, sid);
    AdmittedIsStored(s, request, target, byThread, sid, kind, iid, summary, now);
  }

  lemma AcceptedMeansAdmitted(s: State, request: ServerRequest, target: Option<string>, byThread: Option<string>,
                              iid: string, summary: string, now: Time)
    requires Refusal(s, request, target, byThread, iid, summary, now).None?
    ensures Apply(s, ReceiveRequest(request, target, byThread, iid, summary, now))
         == Admit(s, request, Addressee(s.db, request, target, byThread).value, KindOf(request.methodName).value,
                  iid, summary, now)
  {
  }

  lemma AdmittedIsStored(s: State, request: ServerRequest, target: Option<string>, byThread: Option<string>,
                         sid: string, kind: InteractionKind, iid: string, summary: string, now: Time)
    requires IsFor(s, request, target, byThread, sid) && AsksFor(request.methodName, kind)
    requires !ViolatesUniqueness(s.db, iid, NewRow(s, request, sid, kind, summary, now))
    ensures StoresRequest(s, Admit(s, request, sid, kind, iid, summary, now), request, target, byThread, iid, summary, now)
  {
    AdmittedRow(s, request, sid, kind, iid, summary, now);
  }

  ghost predicate StoresRequest(s: State, t: State, request: ServerRequest, target: Option<string>, byThread: Option<string>,
                          iid: string, summary: string, now: Time)
  {
    && iid in t.db.interactions && t.db.interactions == s.db.interactions[iid := t.db.interactions[iid]]
    && var row := t.db.interactions[iid];
      && row.status == Pending && AsksFor(request.methodName, row.kind) && row.requestId == Canonical(request.id)
      && row.requestedAt == now && row.expiresAt == now + s.timeout && row.payloadSummary == SafeSummary(summary)
      && row.actorId.None? && row.decision.None? && row.resolvedAt.None? && row.larkMessageId.None?
      && t.live == s.live[iid := Live(request, row)]
      && IsFor(s, request, target, byThread, row.sessionId) && OnlySession(s, t, row.sessionId)
      && t.db.sessions[row.sessionId] == s.db.sessions[row.sessionId].(
        status := if row.kind == UserInput then WaitingForInput else WaitingForApproval, updatedAt := now)
      && Announces(s, t, InteractionRequested, row.sessionId, Some(iid), summary, now)
  }

  lemma AdmittedRow(s: State, request: ServerRequest, sid: string, kind: InteractionKind, iid: string,
                    summary: string, now: Time)
    requires SessionActive(s.db, sid) && !ViolatesUniqueness(s.db, iid, NewRow(s, request, sid, kind, summary, now))
    ensures var t := Admit(s, request, sid, kind, iid, summary, now);
      var row := NewRow(s, request, sid, kind, summary, now);
      && t.db.interactions == s.db.interactions[iid := row] && t.live == s.live[iid := Live(request, row)]
      && row.payloadSummary == SafeSummary(summary)
      && t.db.sessions == s.db.sessions[sid := s.db.sessions[sid].(status := WaitingStatus(kind), updatedAt := now)]
      && Announces(s, t, InteractionRequested, sid, Some(iid), summary, now)
  {
    NewRowIsStoredAsIs(s, request, sid, kind, summary, now);
    SafeSummaryTwice(summary);
  }

  lemma SafeSummaryTwice(text: string)
    ensures SafeSummary(SafeSummary(text)) == SafeSummary(text)
  {
  }

  /** A withdrawn request: its row is cancelled at that time, and nobody is said to have answered it. */
  lemma WithdrawnRequestIsCancelled(s: State, requestId: RequestId, iid: string, now: Time)
    requires FindsLive(s, requestId, Some(iid)) && IsPending(s.db, iid)
    ensures var t := Apply(s, UpstreamResolved(requestId, Some(iid), now));
      && t.db.interactions == s.db.interactions[iid :=
        s.db.interactions[iid].(status := InteractionStatus.Cancelled, resolvedAt := Some(now))]
      && t.live == s.live - {iid} && t.db.outbox == s.db.outbox && t.responses == s.responses
  {
  }

  /** A delivered response is announced with the decision, as long as the session is active. */
  lemma DeliveredResponseIsAnnounced(s: State, flow: Flow, now: Time)
    requires flow in s.flows && flow.Responding?
    ensures var t := Apply(s, ResponderReturned(flow, now));
      && t.db.sessions == s.db.sessions && t.db.interactions == s.db.interactions
      && t.flows == s.flows - multiset{flow}
      && (if SessionActive(s.db, flow.sessionId)
          then Announces(s, t, InteractionResolved, flow.sessionId, Some(flow.interactionId), flow.summary, now)
          else t.db.outbox == s.db.outbox)
  {
  }

  /** A notification from elsewhere in the daemon is added under its tag, due after the configured delay. */
  lemma ExternalNoticeIsAdded(s: State, tag: string, now: Time)
    ensures var t := Apply(s, EnqueueExternal(tag, now));
      && t == s.(db := s.db.(outbox := t.db.outbox)) && |t.db.outbox| == |s.db.outbox| + 1
      && t.db.outbox[..|s.db.outbox|] == s.db.outbox
      && var item := t.db.outbox[|s.db.outbox|];
        && item.notice == External(tag) && item.createdAt == now && item.nextAttemptAt == now + s.notifyDelay
        && item.attemptCount == 0 && item.sentAt.None?
  {
  }

  /* ---- expiry ---- */

  /** An overdue request is settled as expired by "timeout": an approval as a refusal, a question as submitted. */
  ghost predicate ExpiresAs(s: State, t: State, iid: string, now: Time) {
    && iid in s.db.interactions && iid in t.db.interactions
    && var row := s.db.interactions[iid];
      && t.db.interactions[iid].status == InteractionStatus.Expired
      && t.db.interactions[iid].actorId == Some("timeout") && t.db.interactions[iid].resolvedAt == Some(now)
      && t.db.interactions[iid].decision.Some?
      && (row.kind == UserInput <==> t.db.interactions[iid].decision == Some(Submitted))
      && !MeansYes(t.db.interactions[iid].decision.value)
  }

  lemma TimeOutExpires(s: State, iid: string, now: Time)
    requires IsPending(s.db, iid)
    ensures var kind := s.db.interactions[iid].kind;
      var (t, won) := Settle(s, iid, TimeoutDecision(kind), "timeout", InteractionStatus.Expired, now);
      won && ExpiresAs(s, t, iid, now) && iid !in t.live
  {
    var kind := s.db.interactions[iid].kind;
    DenialsSayNo(kind, map[]);
    DecisionsAreStorable(kind, map[], None, None, JNull);
  }

  /** ... and then an approval is denied to the app-server, a question interrupts its turn if there is one, and ends
      the session at once if there is none. Nothing happens to a request that is not due or no longer pending. */
  lemma OverdueApprovalIsDenied(s: State, iid: string, now: Time)
    requires IsPending(s.db, iid) && iid in s.live && s.db.interactions[iid].expiresAt <= now
    requires s.db.interactions[iid].kind != UserInput
    requires DenialResponse(s.db.interactions[iid].kind, s.live[iid].request.params).Ok?
    ensures var t := Apply(s, ExpireOne(iid, now));
      && ExpiresAs(s, t, iid, now) && iid !in t.live && t.responses == s.responses + [iid]
      && Responding(iid, s.db.interactions[iid].sessionId, "expired and denied") in t.flows
      && t.db.outbox == s.db.outbox
  {
    var row := s.db.interactions[iid];
    var (t, won) := Settle(s, iid, TimeoutDecision(row.kind), "timeout", InteractionStatus.Expired, now);
    TimeOutExpires(s, iid, now);
    assert Apply(s, ExpireOne(iid, now)) == CallResponder(t, iid, row.sessionId, "expired and denied");
  }

  lemma OverdueQuestionInterruptsTurn(s: State, iid: string, now: Time)
    requires IsPending(s.db, iid) && s.db.interactions[iid].expiresAt <= now && s.db.interactions[iid].kind == UserInput
    requires var sid := s.db.interactions[iid].sessionId;
      sid in s.db.sessions && NonEmpty(s.db.sessions[sid].threadId) && NonEmpty(s.db.sessions[sid].turnId)
    ensures var t := Apply(s, ExpireOne(iid, now));
      && ExpiresAs(s, t, iid, now) && iid !in t.live && t.responses == s.responses && t.db.outbox == s.db.outbox
      && InterruptingTurn(s.db.interactions[iid].sessionId, "user input request expired") in t.flows
  {
    var row := s.db.interactions[iid];
    var (t, won) := Settle(s, iid, TimeoutDecision(row.kind), "timeout", InteractionStatus.Expired, now);
    TimeOutExpires(s, iid, now);
    assert Apply(s, ExpireOne(iid, now)) == AbandonInput(t, row.sessionId, now);
  }

  lemma OverdueQuestionEndsSession(s: State, iid: string, now: Time)
    requires IsPending(s.db, iid) && s.db.interactions[iid].expiresAt <= now && s.db.interactions[iid].kind == UserInput
    requires var sid := s.db.interactions[iid].sessionId;
      SessionActive(s.db, sid) && !(NonEmpty(s.db.sessions[sid].threadId) && NonEmpty(s.db.sessions[sid].turnId))
    ensures var t, sid := Apply(s, ExpireOne(iid, now)), s.db.interactions[iid].sessionId;
      && ExpiresAs(s, t, iid, now) && sid in t.db.sessions && t.db.sessions[sid].status == Interrupted
      && Announces(s, t, SessionInterrupted, sid, None, "user input request expired", now)
  {
    var row := s.db.interactions[iid];
    var (u, won) := Settle(s, iid, TimeoutDecision(row.kind), "timeout", InteractionStatus.Expired, now);
    TimeOutExpires(s, iid, now);
    SettledSessionGoesOn(s, iid, TimeoutDecision(row.kind), now);
    assert Apply(s, ExpireOne(iid, now)) == AbandonInput(u, row.sessionId, now);
    AbandonedSessionEnds(s, u, row.sessionId, now);
  }

  /** Settling a row leaves its session active, with its thread and turn, and announces nothing. */
  lemma SettledSessionGoesOn(s: State, iid: string, decision: string, now: Time)
    requires IsPending(s.db, iid) && SessionActive(s.db, s.db.interactions[iid].sessionId)
    ensures var u, sid := Settle(s, iid, decision, "timeout", InteractionStatus.Expired, now).0, s.db.interactions[iid].sessionId;
      && SessionActive(u.db, sid) && u.db.outbox == s.db.outbox && u.notifyDelay == s.notifyDelay
      && u.db.sessions[sid].threadId == s.db.sessions[sid].threadId
      && u.db.sessions[sid].turnId == s.db.sessions[sid].turnId && u.db.sessions[sid].name == s.db.sessions[sid].name
  {
    var u, sid := Settle(s, iid, decision, "timeout", InteractionStatus.Expired, now).0, s.db.interactions[iid].sessionId;
    RefreshedStatusIsJustified(s.db.(interactions := u.db.interactions), sid);
  }

  lemma AbandonedSessionEnds(s: State, u: State, sid: string, now: Time)
    requires SessionActive(u.db, sid) && !(NonEmpty(u.db.sessions[sid].threadId) && NonEmpty(u.db.sessions[sid].turnId))
    requires u.db.outbox == s.db.outbox && u.notifyDelay == s.notifyDelay
    requires sid in s.db.sessions && u.db.sessions[sid].name == s.db.sessions[sid].name
    ensures var t := AbandonInput(u, sid, now);
      && sid in t.db.sessions && t.db.sessions[sid].status == Interrupted
      && Announces(s, t, SessionInterrupted, sid, None, "user input request expired", now)
      && forall iid :: iid in u.db.interactions && !IsPending(u.db, iid) ==>
        iid in t.db.interactions && t.db.interactions[iid] == u.db.interactions[iid]
  {
    EndSessionEndsAs(u, sid, Interrupted, SessionInterrupted, "user input request expired", true, now);
  }

  lemma NothingElseExpires(s: State, iid: string, now: Time)
    requires !IsPending(s.db, iid) || s.db.interactions[iid].expiresAt > now
    ensures Apply(s, ExpireOne(iid, now)) == s
  {
  }
}
