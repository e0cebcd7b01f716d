/** Safety of the orchestrator over every run, crashes and restarts included. */
module OrchestrationSafety {
  import opened CodexModel
  import opened RequestIds
  import opened InteractionCodec
  import opened CodexStore
  import opened Orchestration

  /* ---- what every reachable state satisfies ---- */

  predicate AnnouncesEnd(item: OutboxItem, sid: string) {
    item.notice.Orchestrator? && EndsSession(item.notice.event) && item.notice.sessionId == sid
  }

  /** How many end-of-session notifications the outbox holds for a session. */
  function Endings(outbox: seq<OutboxItem>, sid: string): nat {
    if outbox == [] then 0
    else Endings(outbox[..|outbox| - 1], sid) + if AnnouncesEnd(outbox[|outbox| - 1], sid) then 1 else 0
  }

  ghost predicate EndingsAnnouncedOnce(db: Db) {
    forall sid :: Endings(db.outbox, sid) <= if SessionEnded(db, sid) then 1 else 0
  }

  predicate Repeats(live: Live, row: Interaction) {
    SameRequest(live.interaction, row) && row.requestId == Canonical(live.request.id)
  }

  /** Left behind by a session that failed to start. */
  predicate IsStale(s: State, iid: string) {
    && iid in s.live && iid in s.db.interactions && !IsPending(s.db, iid)
    && s.db.interactions[iid].sessionId in s.db.sessions
    && s.db.sessions[s.db.interactions[iid].sessionId].status == Failed
  }

  ghost predicate LiveTracksPending(s: State) {
    && (forall iid :: IsPending(s.db, iid) ==> iid in s.live)
    && (forall iid :: iid in s.live ==>
      && iid in s.db.interactions && Repeats(s.live[iid], s.db.interactions[iid])
      && (IsPending(s.db, iid) || IsStale(s, iid)))
  }

  predicate Answered(db: Db, iid: string) {
    iid in db.interactions && db.interactions[iid].status in {Resolved, InteractionStatus.Expired}
  }

  ghost predicate RespondedOnce(s: State) {
    && (forall iid :: multiset(s.responses)[iid] <= 1)
    && (forall iid :: iid in s.responses ==> Answered(s.db, iid))
  }

  ghost predicate Inv(s: State) {
    Consistent(s.db) && LiveTracksPending(s) && EndingsAnnouncedOnce(s.db) && RespondedOnce(s)
  }

  /* ---- what every step does ---- */

  /** A session notification is written only for a session that had not ended, and an ending only
      by the step that ended it. */
  ghost predicate NewNotice(db: Db, db': Db, item: OutboxItem) {
    item.notice.Orchestrator? ==>
      && !SessionEnded(db, item.notice.sessionId)
      && (EndsSession(item.notice.event) ==> SessionEnded(db', item.notice.sessionId))
  }

  ghost predicate NoticesGrow(db: Db, db': Db) {
    forall k :: |db.outbox| <= k < |db'.outbox| ==> NewNotice(db, db', db'.outbox[k])
  }

  /** A response is given only by the step that took the row out of `Pending`. */
  ghost predicate ResponsesGrow(s: State, s': State) {
    || s'.responses == s.responses
    || exists iid :: s'.responses == s.responses + [iid] && IsPending(s.db, iid) && Answered(s'.db, iid)
  }

  ghost predicate SafeStep(s: State, s': State) {
    Evolves(s.db, s'.db) && NoticesGrow(s.db, s'.db) && ResponsesGrow(s, s')
  }

  /** A session that this step ended is announced, once. */
  ghost predicate EndsAreAnnounced(s: State, s': State) {
    forall sid :: SessionActive(s.db, sid) && SessionEnded(s'.db, sid) ==> Endings(s'.db.outbox, sid) == 1
  }

  ghost predicate Good(s: State, s': State) {
    Inv(s') && SafeStep(s, s') && EndsAreAnnounced(s, s')
  }

  /* ---- counting endings ---- */

  lemma {:induction false} EndingsSeeOnlyNotices(a: seq<OutboxItem>, b: seq<OutboxItem>, sid: string)
    requires |a| == |b| && forall k :: 0 <= k < |a| ==> a[k].notice == b[k].notice
    ensures Endings(a, sid) == Endings(b, sid)
  {
    if a != [] {
      EndingsSeeOnlyNotices(a[..|a| - 1], b[..|b| - 1], sid);
    }
  }

  lemma EndingsOfAppend(outbox: seq<OutboxItem>, item: OutboxItem, sid: string)
    ensures Endings(outbox + [item], sid) == Endings(outbox, sid) + if AnnouncesEnd(item, sid) then 1 else 0
  {
    assert (outbox + [item])[..|outbox|] == outbox;
  }

  /** Changing the tables without adding notifications keeps the count within its bound. */
  lemma SameNoticesKeep(db: Db, db': Db)
    requires EndingsAnnouncedOnce(db) && Evolves(db, db') && |db.outbox| == |db'.outbox|
    ensures EndingsAnnouncedOnce(db')
  {
    forall sid
      ensures Endings(db'.outbox, sid) <= if SessionEnded(db', sid) then 1 else 0
    {
      EndingsSeeOnlyNotices(db.outbox, db'.outbox, sid);
    }
  }

  /* ---- steps that touch one transaction and at most one notification ---- */

  /** The bundle that the proofs of the steps establish: `Inv` and `SafeStep` after `db` and `live`
      changed and nothing was written to the outbox. */
  lemma QuietStep(s: State, s': State)
    requires Inv(s) && Consistent(s'.db) && Evolves(s.db, s'.db) && s'.db.outbox == s.db.outbox
    requires LiveTracksPending(s') && s'.responses == s.responses
    ensures Inv(s') && SafeStep(s, s')
  {
    SameNoticesKeep(s.db, s'.db);
    forall iid | iid in s'.responses
      ensures Answered(s'.db, iid)
    {
      assert Answered(s.db, iid);
    }
  }

  /** Writing one notification afterwards. */
  lemma EmitStep(s: State, t: State, event: EventType, sid: string, iid: Option<string>, summary: string, now: Time)
    requires Inv(s) && Inv(t) && SafeStep(s, t) && t.db.outbox == s.db.outbox && t.responses == s.responses
    requires if EndsSession(event) then SessionActive(s.db, sid) && SessionEnded(t.db, sid)
             else SessionActive(t.db, sid) && !SessionEnded(s.db, sid)
    ensures var s' := Emit(t, event, sid, iid, summary, now); Inv(s') && SafeStep(s, s')
    ensures var s' := Emit(t, event, sid, iid, summary, now);
      EndsSession(event) ==> Endings(s'.db.outbox, sid) == 1
  {
    var s' := Emit(t, event, sid, iid, summary, now);
    OutboxChangesKeep(t.db, s'.db);
    EmitCounts(s.db, t.db, s'.db.outbox[|t.db.outbox|], sid);
    SameRowsSameLive(t, s');
    EvolvesTransitively(s.db, t.db, s'.db);
  }

  lemma EmitCounts(before: Db, db: Db, item: OutboxItem, sid: string)
    requires EndingsAnnouncedOnce(before) && EndingsAnnouncedOnce(db) && before.outbox == db.outbox
    requires item.notice.Orchestrator? && item.notice.sessionId == sid
    requires EndsSession(item.notice.event) ==> SessionActive(before, sid) && SessionEnded(db, sid)
    ensures EndingsAnnouncedOnce(EnqueueOutbox(db, item))
    ensures EndsSession(item.notice.event) ==> Endings(db.outbox + [item], sid) == 1
  {
    forall x
      ensures Endings(db.outbox + [item], x) <= if SessionEnded(db, x) then 1 else 0
      ensures EndsSession(item.notice.event) && x == sid ==> Endings(db.outbox + [item], x) == 1
    {
      EndingsOfAppend(db.outbox, item, x);
      assert Endings(before.outbox, x) <= if SessionEnded(before, x) then 1 else 0;
      assert Endings(db.outbox, x) <= if SessionEnded(db, x) then 1 else 0;
    }
  }

  lemma SameRowsSameLive(t: State, u: State)
    requires LiveTracksPending(t) && u.live == t.live
    requires u.db.sessions == t.db.sessions && u.db.interactions == t.db.interactions
    ensures LiveTracksPending(u)
  {
    assert forall j :: IsPending(u.db, j) <==> IsPending(t.db, j);
    forall iid | iid in u.live
      ensures IsPending(u.db, iid) || IsStale(u, iid)
    {
      assert IsPending(t.db, iid) || IsStale(t, iid);
    }
  }

  lemma EndSessionSafe(s: State, sid: string, terminal: SessionStatus, event: EventType,
                       summary: string, drop: bool, now: Time)
    requires Inv(s) && !IsActive(terminal) && EndsSession(event)
    requires !drop ==> terminal == Failed
    ensures var s' := EndSession(s, sid, terminal, event, summary, drop, now);
      && Inv(s') && SafeStep(s, s')
      && (!SessionActive(s.db, sid) ==> s' == s)
      && (SessionActive(s.db, sid) ==> SessionEnded(s'.db, sid) && Endings(s'.db.outbox, sid) == 1)
      && s'.responses == s.responses
  {
    var (db, r) := ClaimSessionTerminal(s.db, sid, terminal, summary, InteractionStatus.Cancelled, now);
    ClaimKeeps(s.db, sid, terminal, summary, InteractionStatus.Cancelled, now);
    if SessionActive(s.db, sid) {
      var t := s.(db := db, live := if drop then DropLive(s.live, sid) else s.live);
      ClaimTracks(s, sid, terminal, summary, drop, now);
      QuietStep(s, t);
      EmitStep(s, t, event, sid, None, summary, now);
    } else {
      SameStateIsSafe(s);
    }
  }

  lemma SameStateIsSafe(s: State)
    requires Inv(s)
    ensures SafeStep(s, s)
  {
  }

  /** The claim settles exactly the pending rows of the session, which are the live entries that
      are dropped, or that stay behind when the session failed to start. */
  lemma ClaimTracks(s: State, sid: string, terminal: SessionStatus, summary: string, drop: bool, now: Time)
    requires Inv(s) && !IsActive(terminal) && SessionActive(s.db, sid)
    requires !drop ==> terminal == Failed
    ensures var db := ClaimSessionTerminal(s.db, sid, terminal, summary, InteractionStatus.Cancelled, now).0;
      LiveTracksPending(s.(db := db, live := if drop then DropLive(s.live, sid) else s.live))
  {
    var db := ClaimSessionTerminal(s.db, sid, terminal, summary, InteractionStatus.Cancelled, now).0;
    var t := s.(db := db, live := if drop then DropLive(s.live, sid) else s.live);
    forall iid | IsPending(t.db, iid)
      ensures iid in t.live
    {
      assert IsPending(s.db, iid) && s.db.interactions[iid].sessionId != sid;
      assert iid in s.live;
    }
    forall iid | iid in t.live
      ensures iid in t.db.interactions && Repeats(t.live[iid], t.db.interactions[iid])
      ensures IsPending(t.db, iid) || IsStale(t, iid)
    {
      assert iid in s.live;
      assert IsPending(s.db, iid) || IsStale(s, iid);
    }
  }

  /** Changes of session rows only. */
  lemma SessionRowsStep(s: State, db: Db)
    requires Inv(s) && Consistent(db) && Evolves(s.db, db)
    requires db.interactions == s.db.interactions && db.outbox == s.db.outbox
    ensures Inv(s.(db := db)) && SafeStep(s, s.(db := db))
  {
    var t := s.(db := db);
    assert forall iid :: IsPending(db, iid) <==> IsPending(s.db, iid);
    forall iid | iid in t.live
      ensures IsPending(t.db, iid) || IsStale(t, iid)
    {
      assert IsPending(s.db, iid) || IsStale(s, iid);
    }
    QuietStep(s, t);
  }

  /** Bookkeeping that the invariants do not mention. */
  lemma BookkeepingStep(s: State, t: State, flows: multiset<Flow>, interactive: set<string>)
    requires Inv(t) && SafeStep(s, t)
    ensures var u := t.(flows := flows, interactive := interactive); Inv(u) && SafeStep(s, u)
  {
    var u := t.(flows := flows, interactive := interactive);
    forall iid | iid in u.live
      ensures IsPending(u.db, iid) || IsStale(u, iid)
    {
      assert IsPending(t.db, iid) || IsStale(t, iid);
    }
    if t.responses != s.responses {
      var iid :| t.responses == s.responses + [iid] && IsPending(s.db, iid) && Answered(t.db, iid);
      assert u.responses == s.responses + [iid] && Answered(u.db, iid);
    }
  }

  /** Winning a row: it leaves `Pending` and `live` together, and nobody had responded before. */
  lemma SettleSafe(s: State, iid: string, decision: string, actor: string, status: InteractionStatus, now: Time)
    requires Inv(s)
    ensures var (t, won) := Settle(s, iid, decision, actor, status, now);
      && Inv(t) && SafeStep(s, t) && t.responses == s.responses && t.db.outbox == s.db.outbox
      && (!won ==> t == s)
      && (won ==> IsPending(s.db, iid) && Answered(t.db, iid) && iid !in s.responses)
  {
    var (t, won) := Settle(s, iid, decision, actor, status, now);
    ResolveKeeps(s.db, iid, decision, actor, now, status);
    if won {
      SettledRowLeavesLive(s, t, iid);
      QuietStep(s, t);
      assert iid in s.responses ==> Answered(s.db, iid);
    } else {
      SameStateIsSafe(s);
    }
  }

  lemma SettledRowLeavesLive(s: State, t: State, iid: string)
    requires LiveTracksPending(s) && Evolves(s.db, t.db) && t.live == s.live - {iid}
    requires !IsPending(t.db, iid)
    requires t.db.interactions.Keys == s.db.interactions.Keys
    requires forall j :: j in s.db.interactions && j != iid ==> t.db.interactions[j] == s.db.interactions[j]
    ensures LiveTracksPending(t)
  {
    forall j | IsPending(t.db, j)
      ensures j in t.live
    {
      assert IsPending(s.db, j);
    }
    forall j | j in t.live
      ensures j in t.db.interactions && Repeats(t.live[j], t.db.interactions[j])
      ensures IsPending(t.db, j) || IsStale(t, j)
    {
      assert j in s.live;
      assert IsPending(s.db, j) || IsStale(s, j);
    }
  }

  lemma RespondSafe(s: State, t: State, iid: string, sid: string, summary: string)
    requires Inv(t) && SafeStep(s, t) && t.responses == s.responses
    requires IsPending(s.db, iid) && Answered(t.db, iid) && iid !in s.responses
    ensures var u := CallResponder(t, iid, sid, summary); Inv(u) && SafeStep(s, u)
  {
    var u := CallResponder(t, iid, sid, summary);
    forall j | j in u.live
      ensures IsPending(u.db, j) || IsStale(u, j)
    {
      assert IsPending(t.db, j) || IsStale(t, j);
    }
    assert multiset(u.responses) == multiset(t.responses) + multiset{iid};
    assert u.responses == s.responses + [iid];
  }

  lemma AnswerSafe(s: State, iid: string, decision: string, actor: string, status: InteractionStatus,
                   sid: string, summary: string, now: Time)
    requires Inv(s)
    ensures var (t, won) := Settle(s, iid, decision, actor, status, now);
      won ==> Inv(CallResponder(t, iid, sid, summary)) && SafeStep(s, CallResponder(t, iid, sid, summary))
  {
    var (t, won) := Settle(s, iid, decision, actor, status, now);
    SettleSafe(s, iid, decision, actor, status, now);
    if won {
      RespondSafe(s, t, iid, sid, summary);
    }
  }

  /* ---- one lemma for each action ---- */

  lemma UnchangedIsGood(s: State)
    requires Inv(s)
    ensures Good(s, s)
  {
  }

  lemma BookkeepingIsGood(s: State, t: State, flows: multiset<Flow>, interactive: set<string>)
    requires Good(s, t)
    ensures Good(s, t.(flows := flows, interactive := interactive))
  {
    BookkeepingStep(s, t, flows, interactive);
  }

  /** Two steps with the same tables and responses before them are judged alike. */
  lemma GoodFromSameTables(s: State, t: State, u: State)
    requires Good(t, u) && s.db == t.db && s.responses == t.responses
    ensures Good(s, u)
  {
    if u.responses != t.responses {
      var iid :| u.responses == t.responses + [iid] && IsPending(t.db, iid) && Answered(u.db, iid);
      assert u.responses == s.responses + [iid];
    }
  }

  lemma EndSessionGood(s: State, sid: string, terminal: SessionStatus, event: EventType,
                       summary: string, drop: bool, now: Time)
    requires Inv(s) && !IsActive(terminal) && EndsSession(event)
    requires !drop ==> terminal == Failed
    ensures Good(s, EndSession(s, sid, terminal, event, summary, drop, now))
  {
    EndSessionSafe(s, sid, terminal, event, summary, drop, now);
  }

  /** Ending a session right after the flow that asked for it was resumed. */
  lemma EndAfterResume(s: State, flows: multiset<Flow>, interactive: set<string>, sid: string,
                       terminal: SessionStatus, event: EventType, summary: string, drop: bool, now: Time)
    requires Inv(s) && !IsActive(terminal) && EndsSession(event)
    requires !drop ==> terminal == Failed
    ensures Good(s, EndSession(s.(flows := flows, interactive := interactive), sid, terminal, event, summary, drop, now))
  {
    var t := s.(flows := flows, interactive := interactive);
    UnchangedIsGood(s);
    BookkeepingIsGood(s, s, flows, interactive);
    EndSessionGood(t, sid, terminal, event, summary, drop, now);
    GoodFromSameTables(s, t, EndSession(t, sid, terminal, event, summary, drop, now));
  }

  lemma SessionRowsGood(s: State, db: Db)
    requires Inv(s) && Consistent(db) && Evolves(s.db, db)
    requires db.interactions == s.db.interactions && db.outbox == s.db.outbox
    requires forall sid :: SessionActive(s.db, sid) ==> SessionActive(db, sid)
    ensures Good(s, s.(db := db))
  {
    SessionRowsStep(s, db);
  }

  lemma CreateGood(s: State, sid: string, row: Session)
    requires Inv(s)
    ensures Good(s, CreateManagedSession(s, sid, row)) && Good(s, CreateInteractiveSession(s, sid, row))
  {
    var (db, r) := CreateSession(s.db, sid, row.(status := Starting));
    CreateSessionKeeps(s.db, sid, row.(status := Starting));
    SessionRowsGood(s, db);
    BookkeepingIsGood(s, s.(db := db), s.flows + multiset{StartingThread(sid)}, s.interactive);
    BookkeepingIsGood(s, s.(db := db), s.flows, s.interactive + {sid});
  }

  lemma UpdateGood(s: State, sid: string, expected: set<SessionStatus>,
                   threadId: Option<Option<string>>, turnId: Option<Option<string>>, now: Time)
    requires Inv(s) && expected <= ACTIVE
    ensures Good(s, s.(db := UpdateSessionIfStatus(s.db, sid, expected, Running, threadId, turnId, now).0))
  {
    UpdateSessionIfStatusKeeps(s.db, sid, expected, threadId, turnId, now);
    SessionRowsGood(s, UpdateSessionIfStatus(s.db, sid, expected, Running, threadId, turnId, now).0);
  }

  lemma ResumeThreadGood(s: State, sid: string, threadId: string, up: bool, now: Time)
    requires Inv(s)
    ensures Good(s, ResumeThread(s, sid, threadId, up, now))
  {
    if StartingThread(sid) !in s.flows {
      UnchangedIsGood(s);
    } else {
      var flows := s.flows - multiset{StartingThread(sid)};
      var (db, ok) := UpdateSessionIfStatus(s.db, sid, {Starting}, Running, Some(Some(threadId)), None, now);
      if up && ok {
        UpdateGood(s, sid, {Starting}, Some(Some(threadId)), None, now);
        BookkeepingIsGood(s, s.(db := db), flows + multiset{StartingTurn(sid)}, s.interactive);
      } else {
        EndAfterResume(s, flows, s.interactive, sid, Failed, SessionCompleted,
                       "Codex session startup failed (RuntimeError)", false, now);
      }
    }
  }

  /** One notification that does not end the session, after a step that wrote none. */
  lemma EmitGood(s: State, t: State, event: EventType, sid: string, iid: Option<string>, summary: string, now: Time)
    requires Inv(s) && Good(s, t) && t.db.outbox == s.db.outbox && t.responses == s.responses
    requires !EndsSession(event) && SessionActive(t.db, sid) && !SessionEnded(s.db, sid)
    requires forall x :: SessionActive(s.db, x) ==> SessionActive(t.db, x)
    ensures Good(s, Emit(t, event, sid, iid, summary, now))
  {
    EmitStep(s, t, event, sid, iid, summary, now);
  }

  lemma ResumeTurnGood(s: State, sid: string, turnId: string, up: bool, now: Time)
    requires Inv(s)
    ensures Good(s, ResumeTurn(s, sid, turnId, up, now))
  {
    if StartingTurn(sid) !in s.flows {
      UnchangedIsGood(s);
    } else {
      var flows := s.flows - multiset{StartingTurn(sid)};
      var (db, ok) := UpdateSessionIfStatus(s.db, sid, ACTIVE, Running, None, Some(Some(turnId)), now);
      if up && ok {
        UpdateGood(s, sid, ACTIVE, None, Some(Some(turnId)), now);
        BookkeepingIsGood(s, s.(db := db), flows, s.interactive);
        EmitGood(s, s.(db := db, flows := flows), SessionStarted, sid, None, "session started", now);
      } else {
        EndAfterResume(s, flows, s.interactive, sid, Failed, SessionCompleted,
                       "Codex session startup failed (RuntimeError)", false, now);
      }
    }
  }

  lemma ReceiveGood(s: State, request: ServerRequest, target: Option<string>, byThread: Option<string>,
                    iid: string, summary: string, now: Time)
    requires Inv(s)
    ensures Good(s, ProcessServerRequest(s, request, target, byThread, iid, summary, now))
  {
    UnchangedIsGood(s);
    var addressee, kind := Addressee(s.db, request, target, byThread), KindOf(request.methodName);
    if addressee.Some? && kind.Some? {
      AdmitGood(s, request, addressee.value, kind.value, iid, summary, now);
    }
  }

  lemma AdmitGood(s: State, request: ServerRequest, sid: string, kind: InteractionKind,
                  iid: string, summary: string, now: Time)
    requires Inv(s)
    ensures Good(s, Admit(s, request, sid, kind, iid, summary, now))
  {
    var row := NewRow(s, request, sid, kind, summary, now);
    var (db, r) := CreateInteractionAndMarkWaiting(s.db, iid, row, WaitingStatus(kind), now);
    if r != Ok(true) {
      UnchangedIsGood(s);
    } else {
      CreateInteractionKeeps(s.db, iid, row, now);
      NewRowIsStoredAsIs(s, request, sid, kind, summary, now);
      assert db.interactions == s.db.interactions[iid := row];
      var t := s.(db := db, live := s.live[iid := Live(request, row)]);
      AdmittedGood(s, t, iid, sid, row.payloadSummary, now);
      assert Admit(s, request, sid, kind, iid, summary, now) ==
        Emit(t, InteractionRequested, sid, Some(iid), row.payloadSummary, now);
    }
  }

  lemma NewRowIsStoredAsIs(s: State, request: ServerRequest, sid: string, kind: InteractionKind, summary: string, now: Time)
    ensures var row := NewRow(s, request, sid, kind, summary, now);
      row.(payloadSummary := SafeSummary(row.payloadSummary)) == row
  {
  }

  lemma AdmittedGood(s: State, t: State, iid: string, sid: string, summary: string, now: Time)
    requires Inv(s) && Consistent(t.db) && Evolves(s.db, t.db) && t.responses == s.responses
    requires t.db.outbox == s.db.outbox && iid !in s.db.interactions
    requires iid in t.db.interactions && t.db.interactions == s.db.interactions[iid := t.db.interactions[iid]]
    requires IsPending(t.db, iid) && iid in t.live && t.live == s.live[iid := t.live[iid]]
    requires Repeats(t.live[iid], t.db.interactions[iid])
    requires SessionActive(s.db, sid) && SessionActive(t.db, sid)
    requires t.db.sessions == s.db.sessions[sid := t.db.sessions[sid]]
    ensures Good(s, Emit(t, InteractionRequested, sid, Some(iid), summary, now))
  {
    AdmittedRowIsLive(s, t, iid);
    QuietStep(s, t);
    EmitGood(s, t, InteractionRequested, sid, Some(iid), summary, now);
  }

  lemma AdmittedRowIsLive(s: State, t: State, iid: string)
    requires LiveTracksPending(s) && Evolves(s.db, t.db) && iid !in s.db.interactions
    requires iid in t.db.interactions && t.db.interactions == s.db.interactions[iid := t.db.interactions[iid]]
    requires IsPending(t.db, iid) && iid in t.live && t.live == s.live[iid := t.live[iid]]
    requires Repeats(t.live[iid], t.db.interactions[iid])
    ensures LiveTracksPending(t)
  {
    forall j | IsPending(t.db, j)
      ensures j in t.live
    {
      assert j != iid ==> IsPending(s.db, j);
    }
    forall j | j in t.live && j != iid
      ensures j in t.db.interactions && Repeats(t.live[j], t.db.interactions[j])
      ensures IsPending(t.db, j) || IsStale(t, j)
    {
      assert j in s.live;
      assert IsPending(s.db, j) || IsStale(s, j);
    }
  }

  lemma SettleKeepsActive(s: State, iid: string, decision: string, actor: string, status: InteractionStatus, now: Time)
    ensures var t := Settle(s, iid, decision, actor, status, now).0;
      && t.db.sessions.Keys == s.db.sessions.Keys
      && forall sid :: SessionActive(s.db, sid) <==> SessionActive(t.db, sid)
  {
    var row := if iid in s.db.interactions then s.db.interactions[iid].sessionId else "";
    forall db: Db
      ensures IsActive(RefreshedStatus(db, row))
    {
      RefreshedStatusIsJustified(db, row);
    }
  }

  lemma AnswerGood(s: State, iid: string, decision: string, actor: string, status: InteractionStatus,
                   sid: string, summary: string, now: Time)
    requires Inv(s)
    ensures var (t, won) := Settle(s, iid, decision, actor, status, now);
      won ==> Good(s, CallResponder(t, iid, sid, summary))
  {
    AnswerSafe(s, iid, decision, actor, status, sid, summary, now);
    SettleKeepsActive(s, iid, decision, actor, status, now);
  }

  lemma LarkGood(s: State, iid: string, actor: string, allow: Option<bool>,
                 answers: Option<map<string, string>>, now: Time)
    requires Inv(s)
    ensures Good(s, ResolveInteraction(s, iid, actor, allow, answers, now))
  {
    UnchangedIsGood(s);
    if iid in s.live {
      var live := s.live[iid];
      var r := Resolution(live.interaction.kind, live.request.params, allow, answers);
      if r.Ok? {
        AnswerGood(s, iid, r.value.1, actor, Resolved, live.interaction.sessionId, r.value.1, now);
      }
    }
  }

  lemma TerminalGood(s: State, requestId: RequestId, result: Json, found: Option<string>, now: Time)
    requires Inv(s)
    ensures Good(s, ResolveTerminalRequest(s, requestId, result, found, now))
  {
    UnchangedIsGood(s);
    if FindsLive(s, requestId, found) && found.Some? {
      var live := s.live[found.value];
      var r := TerminalDecision(live.interaction.kind, live.request.params, result);
      if r.Ok? {
        AnswerGood(s, found.value, r.value, "terminal", Resolved, live.interaction.sessionId, r.value, now);
      }
    }
  }

  lemma RespondedGood(s: State, flow: Flow, now: Time)
    requires Inv(s)
    ensures Good(s, ResumeResponded(s, flow, now))
  {
    UnchangedIsGood(s);
    if flow in s.flows && flow.Responding? {
      var flows := s.flows - multiset{flow};
      BookkeepingIsGood(s, s, flows, s.interactive);
      if SessionActive(s.db, flow.sessionId) {
        EmitGood(s, s.(flows := flows), InteractionResolved, flow.sessionId, Some(flow.interactionId), flow.summary, now);
      }
    }
  }

  lemma WithdrawGood(s: State, requestId: RequestId, found: Option<string>, now: Time)
    requires Inv(s)
    ensures Good(s, ProcessResolved(s, requestId, found, now))
  {
    if found.Some? && found.value in s.live {
      WithdrawnGood(s, found.value, now);
    }
    UnchangedIsGood(s);
  }

  lemma WithdrawnGood(s: State, iid: string, now: Time)
    requires Inv(s)
    ensures Good(s, s.(db := CancelInteractionAndRefreshSession(s.db, iid, now).0, live := s.live - {iid}))
  {
    var db := CancelInteractionAndRefreshSession(s.db, iid, now).0;
    var s' := s.(db := db, live := s.live - {iid});
    CancelKeeps(s.db, iid, now);
    CancelTouchesOne(s.db, iid, now);
    SettledRowLeavesLive(s, s', iid);
    QuietStep(s, s');
    CancelEndsNothing(s.db, iid, now);
  }

  lemma CancelTouchesOne(db: Db, iid: string, now: Time)
    ensures var db' := CancelInteractionAndRefreshSession(db, iid, now).0;
      && !IsPending(db', iid) && db'.interactions.Keys == db.interactions.Keys && db'.outbox == db.outbox
      && forall j :: j in db.interactions && j != iid ==> db'.interactions[j] == db.interactions[j]
  {
  }

  lemma CancelEndsNothing(db: Db, iid: string, now: Time)
    ensures forall sid :: SessionActive(db, sid) ==> SessionActive(CancelInteractionAndRefreshSession(db, iid, now).0, sid)
  {
    if IsPending(db, iid) {
      var row := db.interactions[iid];
      var settled := db.(interactions :=
        db.interactions[iid := row.(status := InteractionStatus.Cancelled, resolvedAt := Some(now))]);
      RefreshedStatusIsJustified(settled, row.sessionId);
    }
  }

  lemma TurnCompletedGood(s: State, threadId: string, turn: Option<string>, outcome: SessionStatus,
                          byThread: Option<string>, summary: string, now: Time)
    requires Inv(s)
    ensures Good(s, ProcessTurnCompleted(s, threadId, turn, outcome, byThread, summary, now))
  {
    var s' := ProcessTurnCompleted(s, threadId, turn, outcome, byThread, summary, now);
    if s' == s {
      UnchangedIsGood(s);
    } else if byThread.value in s.interactive {
      var sid := byThread.value;
      FinishTurnKeeps(s.db, sid, turn.value, summary, now);
      var t := s.(db := FinishInteractiveTurn(s.db, sid, turn.value, summary, now).0, live := DropLive(s.live, sid));
      FinishTracks(s, t, sid, now);
      QuietStep(s, t);
      EmitGood(s, t, if outcome.Interrupted? then TurnInterrupted else TurnCompleted, sid, None, summary, now);
    } else {
      EndSessionGood(s, byThread.value, outcome,
                     if outcome.Interrupted? then SessionInterrupted else SessionCompleted, summary, true, now);
    }
  }

  lemma FinishTracks(s: State, t: State, sid: string, now: Time)
    requires LiveTracksPending(s) && Evolves(s.db, t.db) && t.live == DropLive(s.live, sid)
    requires t.db.interactions == SettleAllOf(s.db, sid, InteractionStatus.Cancelled, now)
    ensures LiveTracksPending(t)
  {
    forall iid | IsPending(t.db, iid)
      ensures iid in t.live
    {
      assert IsPending(s.db, iid) && iid in s.live;
    }
    forall iid | iid in t.live
      ensures iid in t.db.interactions && Repeats(t.live[iid], t.db.interactions[iid])
      ensures IsPending(t.db, iid) || IsStale(t, iid)
    {
      assert iid in s.live;
      assert IsPending(s.db, iid) || IsStale(s, iid);
    }
  }

  /** A quiet step followed by a step that writes to the outbox. */
  lemma GoodAfterQuiet(s: State, t: State, u: State)
    requires Inv(s) && Good(s, t) && Good(t, u)
    requires t.db.outbox == s.db.outbox && t.responses == s.responses == u.responses
    requires forall sid :: SessionActive(s.db, sid) ==> SessionActive(t.db, sid)
    ensures Good(s, u)
  {
    EvolvesTransitively(s.db, t.db, u.db);
    forall k | |s.db.outbox| <= k < |u.db.outbox|
      ensures NewNotice(s.db, u.db, u.db.outbox[k])
    {
      assert NewNotice(t.db, u.db, u.db.outbox[k]);
    }
  }

  lemma AbandonInputGood(s: State, sid: string, now: Time)
    requires Inv(s)
    ensures Good(s, AbandonInput(s, sid, now)) && AbandonInput(s, sid, now).responses == s.responses
  {
    var summary := "user input request expired";
    UnchangedIsGood(s);
    BookkeepingIsGood(s, s, s.flows + multiset{InterruptingTurn(sid, summary)}, s.interactive);
    EndSessionSafe(s, sid, Interrupted, SessionInterrupted, summary, true, now);
  }

  lemma TimeOutGood(s: State, iid: string, sid: string, kind: InteractionKind, decision: string,
                    deniable: bool, now: Time)
    requires Inv(s)
    ensures Good(s, TimeOut(s, iid, sid, kind, decision, deniable, now))
  {
    var (t, won) := Settle(s, iid, decision, "timeout", InteractionStatus.Expired, now);
    UnchangedIsGood(s);
    SettleSafe(s, iid, decision, "timeout", InteractionStatus.Expired, now);
    SettleKeepsActive(s, iid, decision, "timeout", InteractionStatus.Expired, now);
    if won && kind.UserInput? {
      AbandonInputGood(t, sid, now);
      GoodAfterQuiet(s, t, AbandonInput(t, sid, now));
    } else if won && deniable {
      RespondSafe(s, t, iid, sid, "expired and denied");
    }
  }

  lemma ExpireGood(s: State, iid: string, params: map<string, Json>, now: Time)
    requires Inv(s)
    ensures Good(s, ExpireInteraction(s, iid, params, now))
  {
    UnchangedIsGood(s);
    if iid in s.db.interactions {
      var row := s.db.interactions[iid];
      TimeOutGood(s, iid, row.sessionId, row.kind, TimeoutDecision(row.kind), DenialResponse(row.kind, params).Ok?, now);
    }
  }

  lemma TablesOnlyGood(s: State, db: Db)
    requires Inv(s) && Consistent(db) && Evolves(s.db, db) && |db.outbox| == |s.db.outbox|
    requires db.sessions == s.db.sessions
    requires forall iid :: IsPending(db, iid) <==> IsPending(s.db, iid)
    ensures Good(s, s.(db := db))
  {
    var t := s.(db := db);
    SameNoticesKeep(s.db, db);
    forall iid | iid in t.live
      ensures iid in t.db.interactions && Repeats(t.live[iid], t.db.interactions[iid])
      ensures IsPending(t.db, iid) || IsStale(t, iid)
    {
      assert IsPending(s.db, iid) || IsStale(s, iid);
    }
    forall iid | iid in t.responses
      ensures Answered(t.db, iid)
    {
      assert Answered(s.db, iid);
    }
  }

  lemma SentGood(s: State, id: nat, now: Time)
    requires Inv(s)
    ensures Good(s, s.(db := MarkOutboxSent(s.db, id, now).0))
  {
    OutboxChangesKeep(s.db, MarkOutboxSent(s.db, id, now).0);
    TablesOnlyGood(s, MarkOutboxSent(s.db, id, now).0);
  }

  lemma FailedGood(s: State, id: nat, error: string, next: Time)
    requires Inv(s)
    ensures Good(s, s.(db := RecordOutboxFailure(s.db, id, error, next).0))
  {
    OutboxChangesKeep(s.db, RecordOutboxFailure(s.db, id, error, next).0);
    TablesOnlyGood(s, RecordOutboxFailure(s.db, id, error, next).0);
  }

  lemma AttachGood(s: State, iid: string, messageId: string)
    requires Inv(s)
    ensures Good(s, s.(db := AttachLarkMessageId(s.db, iid, messageId).0))
  {
    AttachKeeps(s.db, iid, messageId);
    TablesOnlyGood(s, AttachLarkMessageId(s.db, iid, messageId).0);
  }

  lemma ExternalGood(s: State, item: OutboxItem)
    requires Inv(s) && item.notice.External?
    ensures Good(s, s.(db := EnqueueOutbox(s.db, item)))
  {
    var t := s.(db := EnqueueOutbox(s.db, item));
    OutboxChangesKeep(s.db, t.db);
    assert forall iid :: IsPending(t.db, iid) <==> IsPending(s.db, iid);
    forall sid
      ensures Endings(t.db.outbox, sid) <= if SessionEnded(t.db, sid) then 1 else 0
    {
      EndingsOfAppend(s.db.outbox, item, sid);
    }
    forall iid | iid in t.live
      ensures IsPending(t.db, iid) || IsStale(t, iid)
    {
      assert IsPending(s.db, iid) || IsStale(s, iid);
    }
  }

  /* ---- crash and restart ---- */

  predicate InterruptsOneOf(item: OutboxItem, sids: seq<string>) {
    item.notice.Orchestrator? && item.notice.event == SessionInterrupted && item.notice.sessionId in sids
  }

  /** Announcing sessions that the reconciliation just ended: each gets its one ending. */
  lemma {:induction false} AnnounceSafe(s: State, sids: seq<string>, now: Time)
    requires Inv(s)
    requires forall i, j :: 0 <= i < j < |sids| ==> sids[i] != sids[j]
    requires forall i :: 0 <= i < |sids| ==> SessionEnded(s.db, sids[i]) && Endings(s.db.outbox, sids[i]) == 0
    ensures var s' := Announce(s, sids, now);
      && Inv(s') && Evolves(s.db, s'.db) && s'.responses == s.responses
      && s'.db.sessions == s.db.sessions && s'.db.interactions == s.db.interactions
      && forall k :: |s.db.outbox| <= k < |s'.db.outbox| ==> InterruptsOneOf(s'.db.outbox[k], sids)
    decreases sids
  {
    if sids != [] {
      var t := Emit(s, SessionInterrupted, sids[0], None, "interrupted during daemon restart", now);
      AnnounceOne(s, t.db.outbox[|s.db.outbox|], sids[0]);
      forall i | 1 <= i < |sids|
        ensures Endings(t.db.outbox, sids[i]) == 0
      {
        EndingsOfAppend(s.db.outbox, t.db.outbox[|s.db.outbox|], sids[i]);
      }
      AnnounceSafe(t, sids[1..], now);
      var s' := Announce(s, sids, now);
      EvolvesTransitively(s.db, t.db, s'.db);
      forall k | |s.db.outbox| <= k < |s'.db.outbox| ensures InterruptsOneOf(s'.db.outbox[k], sids) {
        assert k > |s.db.outbox| ==> InterruptsOneOf(s'.db.outbox[k], sids[1..]);
        assert sids == [sids[0]] + sids[1..];
      }
    }
  }

  lemma AnnounceOne(s: State, item: OutboxItem, sid: string)
    requires Inv(s) && SessionEnded(s.db, sid) && Endings(s.db.outbox, sid) == 0
    requires item.notice == Orchestrator(SessionInterrupted, sid)
    ensures var t := s.(db := EnqueueOutbox(s.db, item)); Inv(t) && Evolves(s.db, t.db)
  {
    var t := s.(db := EnqueueOutbox(s.db, item));
    OutboxChangesKeep(s.db, t.db);
    FirstEndingKeeps(s.db, item, sid);
    SameRowsSameLive(s, t);
  }

  lemma FirstEndingKeeps(db: Db, item: OutboxItem, sid: string)
    requires EndingsAnnouncedOnce(db) && SessionEnded(db, sid) && Endings(db.outbox, sid) == 0
    requires item.notice == Orchestrator(SessionInterrupted, sid)
    ensures EndingsAnnouncedOnce(EnqueueOutbox(db, item))
  {
    forall x
      ensures Endings(db.outbox + [item], x) <= if SessionEnded(db, x) then 1 else 0
    {
      EndingsOfAppend(db.outbox, item, x);
      assert Endings(db.outbox, x) <= if SessionEnded(db, x) then 1 else 0;
    }
  }

  /** Announcing adds one ending for each session named. */
  lemma {:induction false} AnnounceCounts(s: State, sids: seq<string>, now: Time, sid: string)
    requires forall i, j :: 0 <= i < j < |sids| ==> sids[i] != sids[j]
    ensures Endings(Announce(s, sids, now).db.outbox, sid) == Endings(s.db.outbox, sid) + if sid in sids then 1 else 0
    decreases sids
  {
    if sids != [] {
      var t := Emit(s, SessionInterrupted, sids[0], None, "interrupted during daemon restart", now);
      EndingsOfAppend(s.db.outbox, t.db.outbox[|s.db.outbox|], sid);
      AnnounceCounts(t, sids[1..], now, sid);
      assert sids == [sids[0]] + sids[1..];
      assert sids[0] !in sids[1..];
    }
  }

  lemma {:induction false} AnnounceAppends(s: State, sids: seq<string>, last: string, now: Time)
    ensures Announce(s, sids + [last], now)
         == Emit(Announce(s, sids, now), SessionInterrupted, last, None, "interrupted during daemon restart", now)
    decreases sids
  {
    var summary := "interrupted during daemon restart";
    if sids == [] {
      assert [last][1..] == [] && sids + [last] == [last];
    } else {
      assert (sids + [last])[0] == sids[0] && (sids + [last])[1..] == sids[1..] + [last];
      AnnounceAppends(Emit(s, SessionInterrupted, sids[0], None, summary, now), sids[1..], last, now);
    }
  }

  /** The new process, before it announces anything. */
  function Reconciled(s: State, db: Db, now: Time): State {
    s.(db := ReconcileStartup(db, now).0, live := map[], interactive := {}, flows := multiset{})
  }

  lemma ReconciledIsSafe(s: State, db: Db, now: Time)
    requires Inv(s) && Consistent(db) && Evolves(s.db, db) && db.outbox == s.db.outbox
    ensures var t := Reconciled(s, db, now); Inv(t) && Evolves(s.db, t.db)
  {
    var t := Reconciled(s, db, now);
    ReconcileKeeps(db, now);
    EvolvesTransitively(s.db, db, t.db);
    QuietStep(s, t);
  }

  lemma ReconciledEndsUnannounced(s: State, db: Db, now: Time, sid: string)
    requires Inv(s) && Evolves(s.db, db) && db.outbox == s.db.outbox && sid in ActiveIds(db)
    ensures !SessionEnded(s.db, sid) && SessionEnded(Reconciled(s, db, now).db, sid)
    ensures Endings(s.db.outbox, sid) == 0
  {
    assert SessionActive(db, sid);
    assert Endings(s.db.outbox, sid) <= if SessionEnded(s.db, sid) then 1 else 0;
  }

  /** Startup on tables that a dying process left behind. */
  lemma StartUpSafe(s: State, db: Db, order: seq<string>, announced: nat, now: Time)
    requires Inv(s) && Consistent(db) && Evolves(s.db, db) && db.outbox == s.db.outbox
    ensures Inv(StartUp(s, db, order, announced, now)) && SafeStep(s, StartUp(s, db, order, announced, now))
  {
    if Enumerates(order, ActiveIds(db)) && announced <= |order| {
      var t, sids := Reconciled(s, db, now), order[..announced];
      ReconciledIsSafe(s, db, now);
      forall i | 0 <= i < |sids|
        ensures SessionEnded(t.db, sids[i]) && Endings(t.db.outbox, sids[i]) == 0 && !SessionEnded(s.db, sids[i])
      {
        assert sids[i] in order;
        ReconciledEndsUnannounced(s, db, now, sids[i]);
      }
      AnnounceSafe(t, sids, now);
      assert forall sid :: sid in sids ==> !SessionEnded(s.db, sid) && SessionEnded(t.db, sid);
      AnnouncedIsSafe(s, t, Announce(t, sids, now), sids);
    } else {
      SameStateIsSafe(s);
    }
  }

  lemma AnnouncedIsSafe(s: State, t: State, u: State, sids: seq<string>)
    requires Evolves(s.db, t.db) && Evolves(t.db, u.db) && t.db.outbox == s.db.outbox && u.responses == s.responses
    requires forall sid :: sid in sids ==> !SessionEnded(s.db, sid) && SessionEnded(u.db, sid)
    requires forall k :: |t.db.outbox| <= k < |u.db.outbox| ==> InterruptsOneOf(u.db.outbox[k], sids)
    ensures SafeStep(s, u)
  {
    EvolvesTransitively(s.db, t.db, u.db);
    forall k | |s.db.outbox| <= k < |u.db.outbox|
      ensures NewNotice(s.db, u.db, u.db.outbox[k])
    {
      assert InterruptsOneOf(u.db.outbox[k], sids);
    }
  }

  /** A startup that completes announces, once, every session the tables still showed as active. */
  lemma CompletedStartUpAnnounces(s: State, db: Db, order: seq<string>, now: Time, sid: string)
    requires Inv(s) && Evolves(s.db, db) && db.outbox == s.db.outbox
    requires Enumerates(order, ActiveIds(db)) && SessionActive(db, sid)
    ensures Endings(StartUp(s, db, order, |order|, now).db.outbox, sid) == 1
  {
    assert sid in ActiveIds(db) && order[..|order|] == order;
    ReconciledEndsUnannounced(s, db, now, sid);
    AnnounceCounts(Reconciled(s, db, now), order, now, sid);
  }

  /* ---- every action, every run ---- */

  lemma StartupIsGood(s: State, a: Action)
    requires Inv(s) && IsStartup(a)
    ensures Good(s, StartupStep(s, a))
  {
    match a
    case CreateManaged(sid, row) => CreateGood(s, sid, row);
    case ThreadStarted(sid, threadId, up, now) => ResumeThreadGood(s, sid, threadId, up, now);
    case TurnBegun(sid, turnId, up, now) => ResumeTurnGood(s, sid, turnId, up, now);
    case StartupRaised(flow, summary, now) => StartupRaisedGood(s, flow, summary, now);
    case CreateInteractive(sid, row) => CreateGood(s, sid, row);
    case BindInteractive(sid, threadId, turn, now) =>
      UnchangedIsGood(s);
      UpdateGood(s, sid, {Starting}, Some(Some(threadId)), Some(turn), now);
  }

  lemma StartupRaisedGood(s: State, flow: Flow, summary: string, now: Time)
    requires Inv(s)
    ensures Good(s, ResumeStartupRaised(s, flow, summary, now))
  {
    UnchangedIsGood(s);
    EndAfterResume(s, s.flows - multiset{flow}, s.interactive, flow.sessionId, Failed, SessionCompleted, summary, false, now);
  }

  lemma ExchangeIsGood(s: State, a: Action)
    requires Inv(s) && IsExchange(a)
    ensures Good(s, ExchangeStep(s, a))
  {
    match a
    case ReceiveRequest(request, target, byThread, iid, summary, now) =>
      ReceiveGood(s, request, target, byThread, iid, summary, now);
    case AnswerFromLark(iid, actor, allow, answers, now) => LarkGood(s, iid, actor, allow, answers, now);
    case AnswerFromTerminal(requestId, result, found, now) => TerminalGood(s, requestId, result, found, now);
    case UpstreamResolved(requestId, found, now) => WithdrawGood(s, requestId, found, now);
    case ExpireOne(iid, now) =>
      ExpireGood(s, iid, if iid in s.live then s.live[iid].request.params else map[], now);
  }

  lemma ResumptionIsGood(s: State, a: Action)
    requires Inv(s) && IsResumption(a)
    ensures Good(s, ResumptionStep(s, a))
  {
    match a
    case ResponderReturned(flow, now) => RespondedGood(s, flow, now);
    case ResponderRaised(flow, summary, now) => ResponderRaisedGood(s, flow, summary, now);
    case InterruptAttempted(flow, now) => InterruptedGood(s, flow, now);
  }

  lemma ResponderRaisedGood(s: State, flow: Flow, summary: string, now: Time)
    requires Inv(s)
    ensures Good(s, ResumeResponderRaised(s, flow, summary, now))
  {
    UnchangedIsGood(s);
    EndAfterResume(s, s.flows - multiset{flow}, s.interactive, flow.sessionId, Interrupted, SessionInterrupted,
                   summary, true, now);
  }

  lemma InterruptedGood(s: State, flow: Flow, now: Time)
    requires Inv(s)
    ensures Good(s, ResumeInterrupted(s, flow, now))
  {
    UnchangedIsGood(s);
    if flow.InterruptingTurn? {
      EndAfterResume(s, s.flows - multiset{flow}, s.interactive, flow.sessionId, Interrupted, SessionInterrupted,
                     flow.summary, true, now);
    }
  }

  lemma TurnIsGood(s: State, a: Action)
    requires Inv(s) && IsTurn(a)
    ensures Good(s, TurnStep(s, a))
  {
    match a
    case TurnStartedNotice(threadId, turnId, byThread, now) =>
      UnchangedIsGood(s);
      if byThread.Some? {
        UpdateGood(s, byThread.value, ACTIVE, None, Some(Some(turnId)), now);
      }
    case TurnCompletedNotice(threadId, turn, outcome, byThread, summary, now) =>
      TurnCompletedGood(s, threadId, turn, outcome, byThread, summary, now);
  }

  lemma EndingIsGood(s: State, a: Action)
    requires Inv(s) && IsEnding(a)
    ensures Good(s, EndingStep(s, a))
  {
    match a
    case CancelSession(sid, now) =>
      EndSessionGood(s, sid, SessionStatus.Cancelled, SessionCompleted, "cancelled", true, now);
    case CloseInteractive(sid, now) =>
      EndAfterResume(s, s.flows, s.interactive - {sid}, sid, SessionStatus.Cancelled, SessionCompleted,
                     "interactive session closed", true, now);
    case InterruptActive(sid, summary, now) =>
      EndSessionGood(s, sid, Interrupted, SessionInterrupted, summary, true, now);
  }

  lemma DeliveryIsGood(s: State, a: Action)
    requires Inv(s) && IsDelivery(a)
    ensures Good(s, DeliveryStep(s, a))
  {
    match a
    case AttachMessage(iid, messageId) => AttachGood(s, iid, messageId);
    case NotificationSent(id, now) => SentGood(s, id, now);
    case NotificationFailed(id, error, next) => FailedGood(s, id, error, next);
    case EnqueueExternal(tag, now) => ExternalGood(s, ExternalItem(tag, now, s.notifyDelay));
  }

  lemma StepIsGood(s: State, a: Action)
    requires Inv(s)
    ensures Good(s, Step(s, a))
  {
    if IsStartup(a) {
      StartupIsGood(s, a);
    } else if IsExchange(a) {
      ExchangeIsGood(s, a);
    } else if IsResumption(a) {
      ResumptionIsGood(s, a);
    } else if IsTurn(a) {
      TurnIsGood(s, a);
    } else if IsEnding(a) {
      EndingIsGood(s, a);
    } else if IsDelivery(a) {
      DeliveryIsGood(s, a);
    } else {
      UnchangedIsGood(s);
    }
  }

  /** Every action keeps the invariant, takes a safe step and, unless the process died within it,
      announces every session it ended. */
  lemma ApplyIsSafe(s: State, a: Action)
    requires Inv(s)
    ensures Inv(Apply(s, a)) && SafeStep(s, Apply(s, a))
    ensures !DiesWithin(a) ==> EndsAreAnnounced(s, Apply(s, a))
  {
    if a.Restart? {
      CrashKeeps(s, a.during, a.partway);
      StartUpSafe(s, LeftBehind(s, a.during, a.partway), a.order, a.announced, a.now);
      CleanRestartAnnounces(s, a);
    } else {
      StepIsGood(s, a);
    }
  }

  /** The process died within another action, or again before its startup had announced everything. */
  predicate DiesWithin(a: Action) {
    a.Restart? && (a.during.Some? || a.announced < |a.order|)
  }

  lemma CleanRestartAnnounces(s: State, a: Action)
    requires Inv(s) && a.Restart?
    ensures !DiesWithin(a) ==> EndsAreAnnounced(s, Apply(s, a))
  {
    if !DiesWithin(a) && Enumerates(a.order, ActiveIds(s.db)) && a.announced == |a.order| {
      SameStateIsSafe(s);
      forall sid | SessionActive(s.db, sid) ensures Endings(Apply(s, a).db.outbox, sid) == 1 {
        CompletedStartUpAnnounces(s, s.db, a.order, a.now, sid);
      }
    }
  }

  lemma CrashKeeps(s: State, during: Option<Action>, partway: bool)
    requires Inv(s)
    ensures var db := LeftBehind(s, during, partway);
      Consistent(db) && Evolves(s.db, db) && db.outbox == s.db.outbox
  {
    if during.None? {
      SameStateIsSafe(s);
    } else if partway {
      FirstTransactionKeeps(s, during.value);
      OutboxDropKeeps(s.db, FirstTransaction(s, during.value).db, LeftBehind(s, during, partway));
    } else {
      StepIsGood(s, during.value);
      OutboxDropKeeps(s.db, Step(s, during.value).db, LeftBehind(s, during, partway));
    }
  }

  lemma FirstTransactionKeeps(s: State, a: Action)
    requires Inv(s)
    ensures var t := FirstTransaction(s, a); Consistent(t.db) && Evolves(s.db, t.db)
  {
    if !(a.ExpireOne? && a.iid in s.db.interactions && s.db.interactions[a.iid].expiresAt <= a.now) {
      StepIsGood(s, a);
    } else {
      SettleSafe(s, a.iid, TimeoutDecision(s.db.interactions[a.iid].kind), "timeout", InteractionStatus.Expired, a.now);
    }
  }

  lemma OutboxDropKeeps(before: Db, left: Db, db: Db)
    requires Consistent(left) && Evolves(before, left) && db == left.(outbox := before.outbox)
    ensures Consistent(db) && Evolves(before, db)
  {
    assert forall iid :: IsPending(db, iid) <==> IsPending(left, iid);
    forall sid | sid in db.sessions
      ensures JustifiedAt(db, sid)
    {
      AwaitsCarriesOver(left, db, sid);
    }
  }

  lemma InitIsGood(timeout: nat, delay: nat)
    ensures Inv(Init(timeout, delay))
  {
  }

  lemma {:induction false} ExecKeepsInv(s: State, actions: seq<Action>)
    requires Inv(s)
    ensures Inv(Exec(s, actions)) && Evolves(s.db, Exec(s, actions).db)
    decreases actions
  {
    if actions != [] {
      ApplyIsSafe(s, actions[0]);
      ExecKeepsInv(Apply(s, actions[0]), actions[1..]);
      EvolvesTransitively(s.db, Apply(s, actions[0]).db, Exec(s, actions).db);
    }
  }

  lemma {:induction false} ExecAppends(s: State, a: seq<Action>, b: seq<Action>)
    ensures Exec(s, a + b) == Exec(Exec(s, a), b)
    decreases a
  {
    if a == [] {
      assert a + b == b;
    } else {
      assert (a + b)[0] == a[0] && (a + b)[1..] == a[1..] + b;
      ExecAppends(Apply(s, a[0]), a[1..], b);
    }
  }

  lemma ExecOne(s: State, a: Action)
    ensures Exec(s, [a]) == Apply(s, a)
  {
    var t := Apply(s, a);
    assert [a][0] == a && [a][1..] == [];
    assert Exec(t, []) == t;
  }

  /* ---- main results ---- */

  /** Over every run, crashes included, a session is announced as over at most once, and never
      while it is still active. */
  lemma SessionEndsAnnouncedAtMostOnce(timeout: nat, delay: nat, actions: seq<Action>, sid: string)
    ensures var s := Exec(Init(timeout, delay), actions);
      && Endings(s.db.outbox, sid) <= 1
      && (Endings(s.db.outbox, sid) == 1 ==> SessionEnded(s.db, sid))
  {
    InitIsGood(timeout, delay);
    ExecKeepsInv(Init(timeout, delay), actions);
    var s := Exec(Init(timeout, delay), actions);
    assert Endings(s.db.outbox, sid) <= if SessionEnded(s.db, sid) then 1 else 0;
  }

  /** Every step of every run: notifications about a session are written only before it has ended, the
      announcement of its end only by the step that ended it, a response only by the step that took the row
      out of `Pending`; and a step that ends a session announces it, a completed startup included, unless
      the process died within the step. */
  lemma EveryStepIsSafe(timeout: nat, delay: nat, actions: seq<Action>, next: Action)
    ensures var s, s' := Exec(Init(timeout, delay), actions), Exec(Init(timeout, delay), actions + [next]);
      SafeStep(s, s') && (!DiesWithin(next) ==> EndsAreAnnounced(s, s'))
  {
    InitIsGood(timeout, delay);
    ExecKeepsInv(Init(timeout, delay), actions);
    var s := Exec(Init(timeout, delay), actions);
    ExecAppends(Init(timeout, delay), actions, [next]);
    ExecOne(s, next);
    ApplyIsSafe(s, next);
  }

  /** Once a session has ended, whatever happens next leaves its row as it is and writes no
      further notification about it. */
  lemma EndedSessionsStaySilent(timeout: nat, delay: nat, before: seq<Action>, after: seq<Action>, sid: string)
    requires SessionEnded(Exec(Init(timeout, delay), before).db, sid)
    ensures var s, s' := Exec(Init(timeout, delay), before), Exec(Init(timeout, delay), before + after);
      && sid in s'.db.sessions && s'.db.sessions[sid] == s.db.sessions[sid]
      && |s.db.outbox| <= |s'.db.outbox|
      && forall k :: |s.db.outbox| <= k < |s'.db.outbox| && s'.db.outbox[k].notice.Orchestrator? ==>
        s'.db.outbox[k].notice.sessionId != sid
  {
    InitIsGood(timeout, delay);
    ExecKeepsInv(Init(timeout, delay), before);
    ExecAppends(Init(timeout, delay), before, after);
    SilentFromHere(Exec(Init(timeout, delay), before), after, sid);
  }

  lemma {:induction false} SilentFromHere(s: State, actions: seq<Action>, sid: string)
    requires Inv(s) && SessionEnded(s.db, sid)
    ensures var s' := Exec(s, actions);
      && sid in s'.db.sessions && s'.db.sessions[sid] == s.db.sessions[sid]
      && |s.db.outbox| <= |s'.db.outbox|
      && forall k :: |s.db.outbox| <= k < |s'.db.outbox| && s'.db.outbox[k].notice.Orchestrator? ==>
        s'.db.outbox[k].notice.sessionId != sid
    decreases actions
  {
    if actions != [] {
      var t := Apply(s, actions[0]);
      ApplyIsSafe(s, actions[0]);
      SilentFromHere(t, actions[1..], sid);
      var s' := Exec(s, actions);
      ExecKeepsInv(t, actions[1..]);
      forall k | |s.db.outbox| <= k < |s'.db.outbox| && s'.db.outbox[k].notice.Orchestrator?
        ensures s'.db.outbox[k].notice.sessionId != sid
      {
        if k < |t.db.outbox| {
          assert NewNotice(s.db, t.db, t.db.outbox[k]);
        }
      }
    }
  }

  /** First response wins: over every run the responder is called at most once for an
      interaction, and then the interaction is resolved or expired. */
  lemma FirstResponseWins(timeout: nat, delay: nat, actions: seq<Action>, iid: string)
    ensures var s := Exec(Init(timeout, delay), actions);
      && multiset(s.responses)[iid] <= 1
      && (iid in s.responses ==> Answered(s.db, iid))
  {
    InitIsGood(timeout, delay);
    ExecKeepsInv(Init(timeout, delay), actions);
  }

  /** A row that is no longer pending is frozen: status, decision, actor and all. */
  lemma SettledRowsAreFrozen(timeout: nat, delay: nat, before: seq<Action>, after: seq<Action>, iid: string)
    ensures var s, s' := Exec(Init(timeout, delay), before), Exec(Init(timeout, delay), before + after);
      iid in s.db.interactions && !IsPending(s.db, iid) ==>
        iid in s'.db.interactions && s'.db.interactions[iid] == s.db.interactions[iid]
  {
    var s := Exec(Init(timeout, delay), before);
    InitIsGood(timeout, delay);
    ExecKeepsInv(Init(timeout, delay), before);
    ExecAppends(Init(timeout, delay), before, after);
    ExecKeepsInv(s, after);
  }

  /** In every reachable state: an ended session has nothing pending, a waiting session waits for
      something pending of the right kind, and pending request ids are unique. */
  lemma ReachableTablesAreConsistent(timeout: nat, delay: nat, actions: seq<Action>)
    ensures Consistent(Exec(Init(timeout, delay), actions).db)
  {
    InitIsGood(timeout, delay);
    ExecKeepsInv(Init(timeout, delay), actions);
  }

  /** In every reachable state the pending rows are live, and a live entry repeats its row, which
      is pending or was left behind by a session that failed to start. */
  lemma LiveEntriesArePendingRows(timeout: nat, delay: nat, actions: seq<Action>)
    ensures LiveTracksPending(Exec(Init(timeout, delay), actions))
  {
    InitIsGood(timeout, delay);
    ExecKeepsInv(Init(timeout, delay), actions);
  }

  /** What the row of an answered interaction says. */
  predicate RecordsAnswer(row: Interaction, kind: InteractionKind, decision: string, actor: string,
                          status: InteractionStatus, now: Time) {
    && row.status == status && row.actorId == Some(actor) && row.resolvedAt == Some(now)
    && NormalizeDecision(kind, decision).Ok? && row.decision == Some(NormalizeDecision(kind, decision).value)
  }

  /** A Lark answer wins exactly when the interaction is pending and a response can be built from it; then the
      responder is called with what the user said and the row records who answered, when and what, a yes as a yes and
      a no as a no. Otherwise nothing changes. */
  lemma LarkAnswerWins(s: State, iid: string, actor: string, allow: Option<bool>,
                                          answers: Option<map<string, string>>, now: Time)
    requires Inv(s)
    ensures var t := ResolveInteraction(s, iid, actor, allow, answers, now);
      if IsPending(s.db, iid) && iid in s.live
        && Resolution(s.live[iid].interaction.kind, s.live[iid].request.params, allow, answers).Ok?
      then
        var kind := s.db.interactions[iid].kind;
        var resolved := Resolution(kind, s.live[iid].request.params, allow, answers);
        && resolved.Ok? && t.responses == s.responses + [iid] && iid !in t.live && iid in t.db.interactions
        && RecordsAnswer(t.db.interactions[iid], kind, resolved.value.1, actor, Resolved, now)
        && Conveys(kind, s.live[iid].request.params, allow, answers, resolved.value.0)
        && t.flows == s.flows + multiset{Responding(iid, s.db.interactions[iid].sessionId, resolved.value.1)}
        && (kind == UserInput <==> t.db.interactions[iid].decision == Some(Submitted))
        && (kind != UserInput ==> (MeansYes(t.db.interactions[iid].decision.value) <==> allow == Some(true)))
      else t == s
  {
    if iid in s.live {
      var entry := s.live[iid];
      assert Repeats(entry, s.db.interactions[iid]);
      DecisionsAreStorable(entry.interaction.kind, entry.request.params, allow, answers, JNull);
      if Resolution(entry.interaction.kind, entry.request.params, allow, answers).Ok? {
        ResolutionMeansWhatWasSaid(entry.interaction.kind, entry.request.params, allow, answers);
      }
    }
  }

  /** The same for the terminal, whose result is passed on as it is. */
  lemma TerminalAnswerWins(s: State, requestId: RequestId, result: Json, iid: string, now: Time)
    requires Inv(s) && FindsLive(s, requestId, Some(iid))
    ensures var t := ResolveTerminalRequest(s, requestId, result, Some(iid), now);
      var kind := s.live[iid].interaction.kind;
      var decision := TerminalDecision(kind, s.live[iid].request.params, result);
      if IsPending(s.db, iid) && decision.Ok?
      then
        && t.responses == s.responses + [iid] && iid !in t.live && iid in t.db.interactions
        && RecordsAnswer(t.db.interactions[iid], kind, decision.value, "terminal", Resolved, now)
        && t.flows == s.flows + multiset{Responding(iid, s.live[iid].interaction.sessionId, decision.value)}
      else t == s
  {
    var entry := s.live[iid];
    assert Repeats(entry, s.db.interactions[iid]);
    DecisionsAreStorable(entry.interaction.kind, entry.request.params, None, None, result);
  }

  /** A request is answered with an error exactly when it changes nothing: no row, no entry, no notification. */
  lemma RefusedRequestsChangeNothing(s: State, request: ServerRequest, target: Option<string>,
                                     byThread: Option<string>, iid: string, summary: string, now: Time)
    ensures Refusal(s, request, target, byThread, iid, summary, now).Some? <==>
      ProcessServerRequest(s, request, target, byThread, iid, summary, now) == s
  {
    var kind, addressee := KindOf(request.methodName), Addressee(s.db, request, target, byThread);
    if kind.Some? && addressee.Some? && SessionActive(s.db, addressee.value) {
      AdmitsUnlessDuplicate(s, request, addressee.value, kind.value, iid, summary, now);
    }
  }

  lemma AdmitsUnlessDuplicate(s: State, request: ServerRequest, sid: string, kind: InteractionKind,
                              iid: string, summary: string, now: Time)
    requires SessionActive(s.db, sid)
    ensures ViolatesUniqueness(s.db, iid, NewRow(s, request, sid, kind, summary, now)) <==>
      Admit(s, request, sid, kind, iid, summary, now) == s
  {
    var row := NewRow(s, request, sid, kind, summary, now);
    if !ViolatesUniqueness(s.db, iid, row) {
      var t := Admit(s, request, sid, kind, iid, summary, now);
      assert |t.db.outbox| == |s.db.outbox| + 1;
    }
  }

  /** A request whose id is already pending is refused and changes nothing; once that row is
      settled the id is free again. */
  lemma DuplicateRequestIsRefused(s: State, request: ServerRequest, sid: string, kind: InteractionKind,
                                  iid: string, summary: string, now: Time)
    requires Inv(s) && SessionActive(s.db, sid) && iid !in s.db.interactions
    ensures var s' := Admit(s, request, sid, kind, iid, summary, now);
      if exists j :: j in s.live && IsPending(s.db, j) && s.live[j].request.id == request.id
      then s' == s
      else
        && IsPending(s'.db, iid) && iid in s'.live && s'.live[iid].request == request
        && s'.db.interactions[iid].sessionId == sid && s'.db.interactions[iid].expiresAt == now + s.timeout
        && |s'.db.outbox| == |s.db.outbox| + 1
        && s'.db.outbox[|s.db.outbox|].notice == Orchestrator(InteractionRequested, sid)
        && s'.db.outbox[|s.db.outbox|].interactionId == Some(iid)
        && s'.db.outbox[|s.db.outbox|].nextAttemptAt == now + s.notifyDelay
  {
    var row := NewRow(s, request, sid, kind, summary, now);
    forall j | j in s.live && IsPending(s.db, j)
      ensures s.live[j].request.id == request.id <==> s.db.interactions[j].requestId == row.requestId
    {
      CanonicalIsInjective(s.live[j].request.id, request.id);
    }
    if j :| j in s.live && IsPending(s.db, j) && s.live[j].request.id == request.id {
      assert ViolatesUniqueness(s.db, iid, row);
    }
  }
}
