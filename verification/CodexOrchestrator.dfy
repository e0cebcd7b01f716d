/** The orchestrator as an object that updates its own maps and the store's tables. Each method is
    the code between two awaits; its contract is the corresponding step of the state machine. */
module Orchestrators {
  import opened CodexModel
  import opened RequestIds
  import opened InteractionCodec
  import opened CodexStore
  import opened Orchestration
  import opened OrchestrationSafety
  import opened ServerDeath

  class CodexOrchestrator {
    const store: SQLiteCodexStore
    const timeout: nat
    const notifyDelay: nat
    var live: map<string, Live>
    var interactive: set<string>
    ghost var flows: multiset<Flow>
    ghost var responses: seq<string>

    ghost function View(): State
      reads this, store
    {
      State(store.Rows(), live, interactive, flows, responses, timeout, notifyDelay)
    }

    constructor (store: SQLiteCodexStore, timeout: nat, notifyDelay: nat)
      ensures this.store == store && this.timeout == timeout && this.notifyDelay == notifyDelay
      ensures View() == Init(timeout, notifyDelay).(db := store.Rows())
    {
      this.store, this.timeout, this.notifyDelay := store, timeout, notifyDelay;
      live, interactive, flows, responses := map[], {}, multiset{}, [];
    }

    method Notify(event: EventType, sid: string, iid: Option<string>, summary: string, now: Time)
      modifies store
      ensures View() == Emit(old(View()), event, sid, iid, summary, now)
    {
      var name := if sid in store.sessions then store.sessions[sid].name else sid;
      var _ := store.Enqueue(OutboxItem(Orchestrator(event, sid), Some(name), iid, SafeSummary(summary), 0,
                                        now + notifyDelay, None, None, now));
    }

    method DropLiveForSession(sid: string)
      modifies this`live
      ensures live == DropLive(old(live), sid)
    {
      var doomed := set iid | iid in live && live[iid].interaction.sessionId == sid;
      while doomed != {}
        invariant doomed <= live.Keys <= old(live).Keys
        invariant forall iid :: iid in live ==> live[iid] == old(live)[iid]
        invariant forall iid :: iid in live && live[iid].interaction.sessionId == sid <==> iid in doomed
        invariant forall iid :: iid in old(live) && old(live)[iid].interaction.sessionId != sid ==> iid in live
      {
        var iid :| iid in doomed;
        live := live - {iid};
        doomed := doomed - {iid};
      }
    }

    /** Claim, drop the live entries where the caller does, announce. */
    method End(sid: string, terminal: SessionStatus, event: EventType, summary: string, drop: bool, now: Time)
      returns (won: bool)
      requires !IsActive(terminal)
      modifies this`live, store
      ensures View() == EndSession(old(View()), sid, terminal, event, summary, drop, now)
      ensures won == SessionActive(old(store.Rows()), sid)
    {
      var affected := store.ClaimTerminal(sid, terminal, summary, InteractionStatus.Cancelled, now);
      won := affected.Ok? && affected.value.Some?;
      if won {
        if drop {
          DropLiveForSession(sid);
        }
        Notify(event, sid, None, summary, now);
      }
    }

    /** A new process takes over the tables: whatever was active is interrupted and announced. */
    method Start(now: Time) returns (order: seq<string>)
      requires live == map[] && interactive == {} && flows == multiset{}
      modifies store
      ensures Enumerates(order, ActiveIds(old(store.Rows())))
      ensures View() == StartUp(old(View()), old(store.Rows()), order, |order|, now)
    {
      ghost var s := View();
      var ids := store.Reconcile(now);
      var todo := ids;
      order := [];
      assert View() == Reconciled(s, s.db, now);
      while todo != {}
        invariant View() == Announce(Reconciled(s, s.db, now), order, now)
        invariant Taken(order, todo, ids)
      {
        var sid :| sid in todo;
        TakeOne(order, todo, ids, sid);
        AnnounceAppends(Reconciled(s, s.db, now), order, sid, now);
        Notify(SessionInterrupted, sid, None, "interrupted during daemon restart", now);
        order, todo := order + [sid], todo - {sid};
      }
      assert order[..|order|] == order;
    }

    /** `row` is the session as it was listed. */
    method InterruptListed(sid: string, row: Session, summary: string, now: Time)
      requires Inv(View()) && sid in store.sessions && store.sessions[sid] == row
      modifies this`live, store
      ensures View() == InterruptSession(old(View()), sid, summary, now) && Inv(View())
      ensures forall x :: x in old(store.sessions) && x != sid ==>
        x in store.sessions && store.sessions[x] == old(store.sessions)[x]
    {
      InterruptOne(View(), sid, summary, now);
      if IsActive(row.status) {
        var _ := End(sid, Interrupted, SessionInterrupted, summary, true, now);
      }
    }

    /** The app-server closed or a consumer failed: every active session is interrupted. */
    method ServerGone(summary: string, now: Time) returns (order: seq<string>)
      requires Inv(View())
      modifies this`live, store
      ensures View() == InterruptAll(old(View()), order, summary, now) && Inv(View())
      ensures Enumerates(order, old(store.sessions).Keys)
      ensures (forall sid :: !SessionActive(store.Rows(), sid)) && (forall iid :: !IsPending(store.Rows(), iid))
      ensures forall sid :: SessionActive(old(store.Rows()), sid) ==> WasInterrupted(store.Rows(), sid)
    {
      ghost var s := View();
      var listed := store.sessions;
      var todo := listed.Keys;
      order := [];
      while todo != {}
        invariant View() == InterruptAll(s, order, summary, now) && Inv(View())
        invariant Taken(order, todo, listed.Keys)
        invariant forall sid :: sid in todo ==> sid in store.sessions && store.sessions[sid] == listed[sid]
      {
        var sid :| sid in todo;
        TakeOne(order, todo, listed.Keys, sid);
        InterruptAllAppends(s, order, sid, summary, now);
        InterruptListed(sid, listed[sid], summary, now);
        order, todo := order + [sid], todo - {sid};
      }
      ServerDeathEndsEverything(s, order, summary, now);
    }

    method StartSession(sid: string, row: Session)
      modifies this, store
      ensures View() == CreateManagedSession(old(View()), sid, row)
    {
      var r := store.Create(sid, row.(status := Starting));
      if r.Ok? {
        flows := flows + multiset{StartingThread(sid)};
      }
    }

    method ThreadReady(sid: string, threadId: string, serverUp: bool, now: Time)
      requires StartingThread(sid) in flows
      modifies this, store
      ensures View() == ResumeThread(old(View()), sid, threadId, serverUp, now)
    {
      flows := flows - multiset{StartingThread(sid)};
      var ok := false;
      if serverUp {
        ok := store.UpdateIfStatus(sid, {Starting}, Running, Some(Some(threadId)), None, now);
      }
      if ok {
        flows := flows + multiset{StartingTurn(sid)};
      } else {
        var _ := End(sid, Failed, SessionCompleted, "Codex session startup failed (RuntimeError)", false, now);
      }
    }

    method TurnReady(sid: string, turnId: string, serverUp: bool, now: Time)
      requires StartingTurn(sid) in flows
      modifies this, store
      ensures View() == ResumeTurn(old(View()), sid, turnId, serverUp, now)
    {
      flows := flows - multiset{StartingTurn(sid)};
      var ok := false;
      if serverUp {
        ok := store.UpdateIfStatus(sid, ACTIVE, Running, None, Some(Some(turnId)), now);
      }
      if ok {
        Notify(SessionStarted, sid, None, "session started", now);
      } else {
        var _ := End(sid, Failed, SessionCompleted, "Codex session startup failed (RuntimeError)", false, now);
      }
    }

    /** Returns the code of the error the request is answered with, if it is not accepted. */
    method ReceiveServerRequest(request: ServerRequest, target: Option<string>, byThread: Option<string>,
                                iid: string, summary: string, now: Time) returns (refusal: Option<int>)
      modifies this, store
      ensures View() == ProcessServerRequest(old(View()), request, target, byThread, iid, summary, now)
      ensures refusal == Refusal(old(View()), request, target, byThread, iid, summary, now)
      ensures refusal.Some? <==> View() == old(View())
    {
      RefusedRequestsChangeNothing(View(), request, target, byThread, iid, summary, now);
      var kind := KindOf(request.methodName);
      if kind.None? {
        return Some(METHOD_NOT_FOUND);
      }
      var addressee := Addressee(store.Rows(), request, target, byThread);
      if addressee.None? || !SessionActive(store.Rows(), addressee.value) {
        return Some(INVALID_PARAMS);
      }
      var sid := addressee.value;
      var turnId := TextParam(request.params, "turnId");
      if sid in interactive && turnId.Some? && turnId != store.sessions[sid].turnId {
        return Some(INVALID_PARAMS);
      }
      AdmitsUnlessDuplicate(View(), request, sid, kind.value, iid, summary, now);
      var accepted := AdmitRequest(request, sid, kind.value, iid, summary, now);
      refusal := if accepted then None else Some(INVALID_REQUEST);
    }

    method AdmitRequest(request: ServerRequest, sid: string, kind: InteractionKind,
                        iid: string, summary: string, now: Time) returns (accepted: bool)
      modifies this, store
      ensures View() == Admit(old(View()), request, sid, kind, iid, summary, now)
      ensures !accepted <==> View() == old(View())
    {
      var row := Interaction(sid, Canonical(request.id), kind, Pending, None,
                             SafeSummary(summary), now, None, now + timeout, None, None);
      assert row == NewRow(View(), request, sid, kind, summary, now);
      var admitted := store.AdmitInteraction(iid, row, WaitingStatus(kind), now);
      accepted := admitted == Ok(true);
      if accepted {
        live := live[iid := Live(request, row)];
        Notify(InteractionRequested, sid, Some(iid), row.payloadSummary, now);
      }
    }

    method AnswerLark(iid: string, actor: string, allow: Option<bool>,
                      answers: Option<map<string, string>>, now: Time) returns (payload: Option<Json>)
      modifies this, store
      ensures View() == ResolveInteraction(old(View()), iid, actor, allow, answers, now)
      ensures payload.Some? ==>
        && responses == old(responses) + [iid] && IsPending(old(store.Rows()), iid) && iid in old(live)
        && Conveys(old(live)[iid].interaction.kind, old(live)[iid].request.params, allow, answers, payload.value)
      ensures payload.None? ==> View() == old(View())
    {
      if iid !in live {
        return None;
      }
      var entry := live[iid];
      var resolved := Resolution(entry.interaction.kind, entry.request.params, allow, answers);
      if resolved.Raised? {
        return None;
      }
      var won := store.Resolve(iid, resolved.value.1, actor, now, Resolved);
      if won != Ok(true) {
        return None;
      }
      live := live - {iid};
      responses := responses + [iid];
      flows := flows + multiset{Responding(iid, entry.interaction.sessionId, resolved.value.1)};
      ResolutionMeansWhatWasSaid(entry.interaction.kind, entry.request.params, allow, answers);
      payload := Some(resolved.value.0);
    }

    method AnswerTerminal(requestId: RequestId, result: Json, found: Option<string>, now: Time) returns (won: bool)
      requires FindsLive(View(), requestId, found)
      modifies this, store
      ensures View() == ResolveTerminalRequest(old(View()), requestId, result, found, now)
      ensures won <==> |responses| > |old(responses)|
    {
      if found.None? {
        return false;
      }
      var entry := live[found.value];
      var decision := TerminalDecision(entry.interaction.kind, entry.request.params, result);
      if decision.Raised? {
        return false;
      }
      var settled := store.Resolve(found.value, decision.value, "terminal", now, Resolved);
      won := settled == Ok(true);
      if won {
        live := live - {found.value};
        responses := responses + [found.value];
        flows := flows + multiset{Responding(found.value, entry.interaction.sessionId, decision.value)};
      }
    }

    method ResponderDone(flow: Flow, now: Time)
      requires flow in flows && flow.Responding?
      modifies this, store
      ensures View() == ResumeResponded(old(View()), flow, now)
    {
      flows := flows - multiset{flow};
      if SessionActive(store.Rows(), flow.sessionId) {
        Notify(InteractionResolved, flow.sessionId, Some(flow.interactionId), flow.summary, now);
      }
    }

    method ResponderFailed(flow: Flow, summary: string, now: Time)
      requires flow in flows && flow.Responding?
      modifies this, store
      ensures View() == ResumeResponderRaised(old(View()), flow, summary, now)
    {
      flows := flows - multiset{flow};
      var _ := End(flow.sessionId, Interrupted, SessionInterrupted, summary, true, now);
    }

    method RequestResolved(requestId: RequestId, found: Option<string>, now: Time)
      requires FindsLive(View(), requestId, found)
      modifies this, store
      ensures View() == ProcessResolved(old(View()), requestId, found, now)
    {
      if found.Some? {
        var _ := store.Cancel(found.value, now);
        live := live - {found.value};
      }
    }

    method TurnCompletes(threadId: string, turn: Option<string>, outcome: SessionStatus,
                         byThread: Option<string>, summary: string, now: Time)
      requires SelectsByThread(store.Rows(), threadId, byThread)
      modifies this, store
      ensures View() == ProcessTurnCompleted(old(View()), threadId, turn, outcome, byThread, summary, now)
    {
      if byThread.None? || !SessionActive(store.Rows(), byThread.value) || outcome !in {Succeeded, Failed, Interrupted} {
        return;
      }
      var sid := byThread.value;
      if sid in interactive {
        if turn.None? || turn.value == "" {
          return;
        }
        var affected := store.FinishTurn(sid, turn.value, summary, now);
        if affected.Raised? || affected.value.None? {
          return;
        }
        DropLiveForSession(sid);
        Notify(if outcome.Interrupted? then TurnInterrupted else TurnCompleted, sid, None, summary, now);
      } else {
        var _ := End(sid, outcome, if outcome.Interrupted? then SessionInterrupted else SessionCompleted, summary, true, now);
      }
    }

    method TurnStarts(threadId: string, turnId: string, byThread: Option<string>, now: Time)
      requires SelectsByThread(store.Rows(), threadId, byThread)
      modifies store
      ensures View() == ProcessTurnStarted(old(View()), threadId, turnId, byThread, now)
    {
      if byThread.Some? && SessionActive(store.Rows(), byThread.value) {
        var _ := store.UpdateIfStatus(byThread.value, ACTIVE, Running, None, Some(Some(turnId)), now);
      }
    }

    method Cancel(sid: string, now: Time) returns (won: bool)
      modifies this`live, store
      ensures View() == EndSession(old(View()), sid, SessionStatus.Cancelled, SessionCompleted, "cancelled", true, now)
      ensures won == SessionActive(old(store.Rows()), sid)
    {
      won := End(sid, SessionStatus.Cancelled, SessionCompleted, "cancelled", true, now);
    }

    method CloseInteractive(sid: string, now: Time) returns (won: bool)
      modifies this, store
      ensures View() == CloseInteractiveSession(old(View()), sid, now)
      ensures won == SessionActive(old(store.Rows()), sid)
    {
      interactive := interactive - {sid};
      won := End(sid, SessionStatus.Cancelled, SessionCompleted, "interactive session closed", true, now);
    }

    method AbandonQuestion(sid: string, now: Time) returns (awaited: Option<Flow>)
      modifies this, store
      ensures View() == AbandonInput(old(View()), sid, now)
      ensures awaited.Some? ==> awaited.value in flows && awaited.value.InterruptingTurn?
    {
      awaited := None;
      if sid in store.sessions && NonEmpty(store.sessions[sid].threadId) && NonEmpty(store.sessions[sid].turnId) {
        awaited := Some(InterruptingTurn(sid, "user input request expired"));
        flows := flows + multiset{awaited.value};
      } else {
        var _ := End(sid, Interrupted, SessionInterrupted, "user input request expired", true, now);
      }
    }

    /** Settle an overdue row; what the sweep is left awaiting, if anything. */
    method TimeOutEntry(iid: string, sid: string, kind: InteractionKind, decision: string, deniable: bool, now: Time)
      returns (awaited: Option<Flow>, settled: bool)
      modifies this, store
      ensures View() == TimeOut(old(View()), iid, sid, kind, decision, deniable, now)
      ensures awaited.Some? ==> awaited.value in flows && (awaited.value.Responding? || awaited.value.InterruptingTurn?)
      ensures settled <==> Settle(old(View()), iid, decision, "timeout", InteractionStatus.Expired, now).1
      ensures !settled ==> awaited.None?
    {
      awaited := None;
      var won := store.Resolve(iid, decision, "timeout", now, InteractionStatus.Expired);
      settled := won == Ok(true);
      if !settled {
        return;
      }
      live := live - {iid};
      if kind.UserInput? {
        awaited := AbandonQuestion(sid, now);
      } else if deniable {
        awaited := Some(Responding(iid, sid, "expired and denied"));
        responses := responses + [iid];
        flows := flows + multiset{awaited.value};
      }
    }

    /** Resume what one turn of the sweep awaited; `ok` says whether the awaited call returned. */
    method ResumeSweep(flow: Flow, ok: bool, error: string, now: Time)
      requires flow in flows && (flow.Responding? || flow.InterruptingTurn?)
      modifies this, store
      ensures View() == if flow.InterruptingTurn? then ResumeInterrupted(old(View()), flow, now)
                        else if ok then ResumeResponded(old(View()), flow, now)
                        else ResumeResponderRaised(old(View()), flow, error, now)
    {
      if flow.InterruptingTurn? {
        flows := flows - multiset{flow};
        var _ := End(flow.sessionId, Interrupted, SessionInterrupted, flow.summary, true, now);
      } else if ok {
        ResponderDone(flow, now);
      } else {
        ResponderFailed(flow, error, now);
      }
    }

    method SweepTimeOut(iid: string, sid: string, kind: InteractionKind, deniable: bool, now: Time)
      returns (awaited: Option<Flow>, settled: bool)
      requires Inv(View()) && iid in store.interactions && store.interactions[iid].kind == kind
      modifies this, store
      ensures Inv(View())
      ensures Evolves(old(store.Rows()), store.Rows()) && OnlyWithdraws(old(store.Rows()), store.Rows(), {iid})
      ensures settled <==> IsPending(old(store.Rows()), iid)
      ensures if settled then Answered(store.Rows(), iid) else store.Rows() == old(store.Rows()) && awaited.None?
      ensures awaited.Some? ==> awaited.value in flows && (awaited.value.Responding? || awaited.value.InterruptingTurn?)
    {
      ghost var s := View();
      var decision := TimeoutDecision(kind);
      awaited, settled := TimeOutEntry(iid, sid, kind, decision, deniable, now);
      TimeOutGood(s, iid, sid, kind, decision, deniable, now);
      TimeOutOnlyWithdraws(s, iid, sid, kind, decision, deniable, now);
      TimeOutSettles(s, iid, sid, kind, deniable, now);
    }

    method SweepAwait(flow: Flow, ok: bool, now: Time)
      requires Inv(View()) && flow in flows && (flow.Responding? || flow.InterruptingTurn?)
      modifies this, store
      ensures Inv(View())
      ensures Evolves(old(store.Rows()), store.Rows()) && OnlyWithdraws(old(store.Rows()), store.Rows(), {})
    {
      ghost var t := View();
      ResumeSweep(flow, ok, "responder failed", now);
      ResumeGood(t, flow, "responder failed", now);
      ResumeOnlyWithdraws(t, flow, "responder failed", now);
    }

    /** One turn of the expiry sweep on an entry of the list it took, awaited call included; `ok`
        says whether that call returned, `sent` what the app-server was told. */
    method SweepEntry(iid: string, entry: Live, ok: bool, now: Time)
      returns (settled: bool, raised: bool, sent: Option<Json>)
      requires Inv(View())
      requires iid in store.interactions && Repeats(entry, store.interactions[iid])
      modifies this, store
      ensures Inv(View()) && SweepStep(old(store.Rows()), store.Rows(), iid, settled, now)
      ensures sent.Some? ==>
        && settled && entry.interaction.kind != UserInput
        && Says(entry.interaction.kind, entry.request.params, false, sent.value)
    {
      settled, raised, sent := false, false, None;
      if entry.interaction.expiresAt > now {
        return;
      }
      var kind, denial := entry.interaction.kind, DenialResponse(entry.interaction.kind, entry.request.params);
      DenialsSayNo(kind, entry.request.params);
      var awaited;
      awaited, settled := SweepTimeOut(iid, entry.interaction.sessionId, kind, denial.Ok?, now);
      ghost var db := store.Rows();
      if settled && !kind.UserInput? {
        raised := denial.Raised?;
        sent := if denial.Ok? then Some(denial.value) else None;
      }
      if awaited.Some? {
        SweepAwait(awaited.value, ok, now);
        raised := !ok;
      }
      SweepStepCompletes(old(store.Rows()), db, store.Rows(), iid, settled, now);
    }

    /** The next entry of the list; `first` are the tables as the sweep found them. */
    method SweepNext(ghost first: Db, entries: map<string, Live>, todo: set<string>, expired: set<string>,
                     iid: string, ok: bool, now: Time) returns (expired': set<string>, raised: bool)
      requires Inv(View()) && SweptSoFar(first, store.Rows(), todo, expired, now)
      requires EntriesRepeat(entries, store.Rows()) && iid in todo && iid in entries
      modifies this, store
      ensures Inv(View()) && SweptSoFar(first, store.Rows(), todo - {iid}, expired', now)
      ensures EntriesRepeat(entries, store.Rows())
    {
      ghost var db := store.Rows();
      var settled, sent;
      settled, raised, sent := SweepEntry(iid, entries[iid], ok, now);
      SweepAdvances(first, db, store.Rows(), iid, todo, expired, settled, now);
      EntriesStillRepeat(entries, db, store.Rows());
      expired' := if settled then expired + {iid} else expired;
    }

    /** The loop over the list; `left` is what it did not come to because a call raised. */
    method SweepList(ghost first: Db, entries: map<string, Live>, now: Time, succeeds: string -> bool)
      returns (expired: set<string>, left: set<string>, raised: bool)
      requires Inv(View()) && SweptSoFar(first, store.Rows(), entries.Keys, {}, now)
      requires EntriesRepeat(entries, store.Rows())
      modifies this, store
      ensures Inv(View()) && SweptSoFar(first, store.Rows(), left, expired, now)
      ensures !raised ==> left == {}
    {
      expired, left, raised := {}, entries.Keys, false;
      while left != {}
        invariant Inv(View()) && SweptSoFar(first, store.Rows(), left, expired, now)
        invariant left <= entries.Keys && EntriesRepeat(entries, store.Rows())
      {
        var iid :| iid in left;
        expired, raised := SweepNext(first, entries, left, expired, iid, succeeds(iid), now);
        left := left - {iid};
        if raised {
          return;
        }
      }
    }

    /** The whole sweep when nothing else runs in between: `succeeds` says for which interactions
        the awaited call returns. If it comes to its end, nothing overdue is pending any more. */
    method ExpireDueInteractions(now: Time, succeeds: string -> bool) returns (expired: set<string>, raised: bool)
      requires Inv(View())
      modifies this, store
      ensures Inv(View()) && Evolves(old(store.Rows()), store.Rows())
      ensures !raised ==> forall iid :: IsPending(store.Rows(), iid) ==> store.interactions[iid].expiresAt > now
      ensures forall iid :: iid in expired ==>
        && IsPending(old(store.Rows()), iid) && old(store.interactions)[iid].expiresAt <= now
        && Answered(store.Rows(), iid)
      ensures forall iid :: IsPending(old(store.Rows()), iid) && iid !in expired ==>
        iid in store.interactions && store.interactions[iid].status in {Pending, InteractionStatus.Cancelled}
    {
      SweepBegins(View(), now);
      var left;
      expired, left, raised := SweepList(store.Rows(), live, now, succeeds);
    }
  }

  /* ---- loops over a list of ids ---- */

  /** `order` lists, each once, the members of `all` that are no longer to do. */
  ghost predicate Taken(order: seq<string>, todo: set<string>, all: set<string>) {
    && todo <= all && (forall sid :: sid in order <==> sid in all && sid !in todo)
    && (forall i, j :: 0 <= i < j < |order| ==> order[i] != order[j])
  }

  lemma TakeOne(order: seq<string>, todo: set<string>, all: set<string>, sid: string)
    requires Taken(order, todo, all) && sid in todo
    ensures Taken(order + [sid], todo - {sid}, all)
  {
    assert sid !in order;
  }

  /* ---- the sweep ---- */

  /** What was reported was due and is settled, every other row is at most withdrawn, and everything due that
      is still pending lies ahead. */
  ghost predicate SweptSoFar(first: Db, db: Db, todo: set<string>, expired: set<string>, now: Time) {
    && Evolves(first, db)
    && (forall iid :: IsPending(db, iid) && db.interactions[iid].expiresAt <= now ==> iid in todo)
    && (forall iid :: iid in expired ==>
      IsPending(first, iid) && first.interactions[iid].expiresAt <= now && Answered(db, iid))
    && OnlyWithdraws(first, db, expired)
  }

  /** The entries the sweep listed repeat their rows for as long as it runs. */
  ghost predicate EntriesRepeat(entries: map<string, Live>, db: Db) {
    forall iid :: iid in entries ==> iid in db.interactions && Repeats(entries[iid], db.interactions[iid])
  }

  lemma EntriesStillRepeat(entries: map<string, Live>, db: Db, db': Db)
    requires EntriesRepeat(entries, db) && Evolves(db, db')
    ensures EntriesRepeat(entries, db')
  {
  }

  lemma SweepBegins(s: State, now: Time)
    requires Inv(s)
    ensures SweptSoFar(s.db, s.db, s.live.Keys, {}, now) && EntriesRepeat(s.live, s.db)
  {
  }

  ghost predicate OnlyWithdraws(db: Db, db': Db, except: set<string>) {
    && db'.interactions.Keys == db.interactions.Keys
    && forall iid :: IsPending(db, iid) && iid !in except ==>
      db'.interactions[iid].status in {Pending, InteractionStatus.Cancelled}
  }

  lemma EndOnlyWithdraws(s: State, sid: string, terminal: SessionStatus, event: EventType,
                         summary: string, drop: bool, now: Time)
    ensures OnlyWithdraws(s.db, EndSession(s, sid, terminal, event, summary, drop, now).db, {})
  {
  }

  lemma SettleOnlyWithdraws(s: State, iid: string, decision: string, now: Time)
    ensures OnlyWithdraws(s.db, Settle(s, iid, decision, "timeout", InteractionStatus.Expired, now).0.db, {iid})
  {
    var t := Settle(s, iid, decision, "timeout", InteractionStatus.Expired, now).0;
    assert forall j :: j in s.db.interactions && j != iid ==> t.db.interactions[j] == s.db.interactions[j];
  }

  lemma AbandonOnlyWithdraws(s: State, sid: string, now: Time)
    ensures OnlyWithdraws(s.db, AbandonInput(s, sid, now).db, {})
  {
    EndOnlyWithdraws(s, sid, Interrupted, SessionInterrupted, "user input request expired", true, now);
  }

  lemma TimeOutOnlyWithdraws(s: State, iid: string, sid: string, kind: InteractionKind, decision: string,
                             deniable: bool, now: Time)
    requires Inv(s)
    ensures OnlyWithdraws(s.db, TimeOut(s, iid, sid, kind, decision, deniable, now).db, {iid})
  {
    var (t, won) := Settle(s, iid, decision, "timeout", InteractionStatus.Expired, now);
    SettleOnlyWithdraws(s, iid, decision, now);
    if won && kind.UserInput? {
      var u := AbandonInput(t, sid, now);
      SettleSafe(s, iid, decision, "timeout", InteractionStatus.Expired, now);
      AbandonInputGood(t, sid, now);
      AbandonOnlyWithdraws(t, sid, now);
      WithdrawsFurther(s.db, t.db, u.db, iid, {iid});
      assert {iid} + {iid} == {iid};
    }
  }

  lemma ResumeOnlyWithdraws(s: State, flow: Flow, summary: string, now: Time)
    ensures OnlyWithdraws(s.db, ResumeInterrupted(s, flow, now).db, {})
    ensures OnlyWithdraws(s.db, ResumeResponded(s, flow, now).db, {})
    ensures OnlyWithdraws(s.db, ResumeResponderRaised(s, flow, summary, now).db, {})
  {
    var t := s.(flows := s.flows - multiset{flow});
    EndOnlyWithdraws(t, flow.sessionId, Interrupted, SessionInterrupted, summary, true, now);
    if flow.InterruptingTurn? {
      EndOnlyWithdraws(t, flow.sessionId, Interrupted, SessionInterrupted, flow.summary, true, now);
    }
  }

  /** What one turn of the sweep does to the tables. */
  ghost predicate SweepStep(db: Db, db': Db, iid: string, settled: bool, now: Time) {
    && Evolves(db, db') && OnlyWithdraws(db, db', {iid})
    && (settled <==> IsPending(db, iid) && db.interactions[iid].expiresAt <= now)
    && (if settled then Answered(db', iid) else db' == db)
  }

  lemma TimeOutSettles(s: State, iid: string, sid: string, kind: InteractionKind, deniable: bool, now: Time)
    requires Inv(s) && iid in s.db.interactions && s.db.interactions[iid].kind == kind
    ensures var decision := TimeoutDecision(kind);
      var t := TimeOut(s, iid, sid, kind, decision, deniable, now);
      var won := Settle(s, iid, decision, "timeout", InteractionStatus.Expired, now).1;
      (won <==> IsPending(s.db, iid)) && (if won then Answered(t.db, iid) else t == s)
  {
    var decision := TimeoutDecision(kind);
    DecisionsAreStorable(kind, map[], None, None, JNull);
    var (t, won) := Settle(s, iid, decision, "timeout", InteractionStatus.Expired, now);
    SettleSafe(s, iid, decision, "timeout", InteractionStatus.Expired, now);
    AbandonInputGood(t, sid, now);
  }

  lemma SweepStepCompletes(s: Db, t: Db, u: Db, iid: string, settled: bool, now: Time)
    requires Evolves(s, t) && Evolves(t, u)
    requires OnlyWithdraws(s, t, {iid}) && OnlyWithdraws(t, u, {}) && iid in s.interactions
    requires settled <==> IsPending(s, iid) && s.interactions[iid].expiresAt <= now
    requires if settled then Answered(t, iid) else t == s && u == t
    ensures SweepStep(s, u, iid, settled, now)
  {
    EvolvesTransitively(s, t, u);
    forall j | IsPending(s, j) && j != iid
      ensures u.interactions[j].status in {Pending, InteractionStatus.Cancelled}
    {
      assert t.interactions[j].status in {Pending, InteractionStatus.Cancelled};
      assert j in t.interactions;
    }
  }

  lemma SweepAdvances(first: Db, db: Db, db': Db, iid: string, todo: set<string>, expired: set<string>,
                      settled: bool, now: Time)
    requires SweptSoFar(first, db, todo, expired, now) && SweepStep(db, db', iid, settled, now)
    ensures SweptSoFar(first, db', todo - {iid}, if settled then expired + {iid} else expired, now)
  {
    EvolvesTransitively(first, db, db');
    if settled {
      assert IsPending(first, iid) && first.interactions[iid].expiresAt == db.interactions[iid].expiresAt;
      forall j | IsPending(db', j) ensures IsPending(db, j) && j != iid {
        assert j in db.interactions;
      }
      WithdrawsFurther(first, db, db', iid, expired);
    }
  }

  lemma WithdrawsFurther(first: Db, db: Db, db': Db, iid: string, expired: set<string>)
    requires OnlyWithdraws(first, db, expired) && Evolves(db, db')
    requires OnlyWithdraws(db, db', {iid}) || OnlyWithdraws(db, db', {})
    ensures OnlyWithdraws(first, db', expired + {iid})
  {
    forall j | IsPending(first, j) && j !in expired + {iid}
      ensures db'.interactions[j].status in {Pending, InteractionStatus.Cancelled}
    {
      assert db.interactions[j].status in {Pending, InteractionStatus.Cancelled};
    }
  }

  lemma ResumeGood(s: State, flow: Flow, summary: string, now: Time)
    requires Inv(s)
    ensures Good(s, ResumeInterrupted(s, flow, now)) && Good(s, ResumeResponded(s, flow, now))
      && Good(s, ResumeResponderRaised(s, flow, summary, now))
  {
    RespondedGood(s, flow, now);
    ResponderRaisedGood(s, flow, summary, now);
    InterruptedGood(s, flow, now);
  }
}
