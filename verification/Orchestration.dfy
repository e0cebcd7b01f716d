/** The orchestrator as a state machine.

    An action is one stretch of orchestrator code that runs without giving up control, from one
    real `await` to the next. What an awaited call will resume is a `Flow`; any other action may
    run before it does. Outcomes of awaited calls, ids, clock readings and texts are parameters
    of the actions. An action that does not apply leaves the state as it is, so every list of
    actions is a run. */
module Orchestration {
  import opened CodexModel
  import opened RequestIds
  import opened InteractionCodec
  import opened CodexStore

  datatype ServerRequest = ServerRequest(id: RequestId, methodName: string, params: map<string, Json>)

  /** An accepted request that has not been answered, as the process remembers it. */
  datatype Live = Live(request: ServerRequest, interaction: Interaction)

  /** A suspended continuation. */
  datatype Flow =
    | StartingThread(sessionId: string)
    | StartingTurn(sessionId: string)
    | Responding(interactionId: string, sessionId: string, summary: string)
    | InterruptingTurn(sessionId: string, summary: string)

  /** `responses` lists the interactions for which the responder was called, in order. */
  datatype State = State(
    db: Db,
    live: map<string, Live>,
    interactive: set<string>,
    flows: multiset<Flow>,
    responses: seq<string>,
    timeout: nat,
    notifyDelay: nat)

  function Init(timeout: nat, notifyDelay: nat): State {
    State(Db(map[], map[], []), map[], {}, multiset{}, [], timeout, notifyDelay)
  }

  datatype Action =
    | CreateManaged(sid: string, row: Session)
    | ThreadStarted(sid: string, threadId: string, serverUp: bool, now: Time)
    | TurnBegun(sid: string, turnId: string, serverUp: bool, now: Time)
    | StartupRaised(flow: Flow, summary: string, now: Time)
    | CreateInteractive(sid: string, row: Session)
    | BindInteractive(sid: string, threadId: string, turn: Option<string>, now: Time)
    | ReceiveRequest(request: ServerRequest, target: Option<string>, byThread: Option<string>,
                     iid: string, summary: string, now: Time)
    | AnswerFromLark(iid: string, actor: string, allow: Option<bool>,
                     answers: Option<map<string, string>>, now: Time)
    | AnswerFromTerminal(requestId: RequestId, result: Json, found: Option<string>, now: Time)
    | ResponderReturned(flow: Flow, now: Time)
    | ResponderRaised(flow: Flow, summary: string, now: Time)
    | UpstreamResolved(requestId: RequestId, found: Option<string>, now: Time)
    | TurnStartedNotice(threadId: string, turnId: string, byThread: Option<string>, now: Time)
    | TurnCompletedNotice(threadId: string, turn: Option<string>, outcome: SessionStatus,
                          byThread: Option<string>, summary: string, now: Time)
    | ExpireOne(iid: string, now: Time)
    | InterruptAttempted(flow: Flow, now: Time)
    | CancelSession(sid: string, now: Time)
    | CloseInteractive(sid: string, now: Time)
    | InterruptActive(sid: string, summary: string, now: Time)
    | AttachMessage(iid: string, messageId: string)
    | NotificationSent(id: nat, now: Time)
    | NotificationFailed(id: nat, error: string, nextAttemptAt: Time)
    | EnqueueExternal(tag: string, now: Time)
    | Restart(during: Option<Action>, partway: bool, order: seq<string>, announced: nat, now: Time)

  /* ---- steps ---- */

  function Emit(s: State, event: EventType, sid: string, iid: Option<string>, summary: string, now: Time): State {
    var name := if sid in s.db.sessions then s.db.sessions[sid].name else sid;
    s.(db := EnqueueOutbox(s.db,
      OutboxItem(Orchestrator(event, sid), Some(name), iid, SafeSummary(summary), 0,
                 now + s.notifyDelay, None, None, now)))
  }

  /** A notification from elsewhere in the daemon. */
  function ExternalItem(tag: string, now: Time, delay: nat): OutboxItem {
    OutboxItem(External(tag), None, None, tag, 0, now + delay, None, None, now)
  }

  function DropLive(live: map<string, Live>, sid: string): map<string, Live> {
    map iid | iid in live && live[iid].interaction.sessionId != sid :: live[iid]
  }

  /** Claim the session for a final status and, if this call won, announce it. */
  function EndSession(s: State, sid: string, terminal: SessionStatus, event: EventType,
                      summary: string, drop: bool, now: Time): State
  {
    var (db, r) := ClaimSessionTerminal(s.db, sid, terminal, summary, InteractionStatus.Cancelled, now);
    if r.Raised? || r.value.None? then s
    else Emit(s.(db := db, live := if drop then DropLive(s.live, sid) else s.live), event, sid, None, summary, now)
  }

  function InterruptSession(s: State, sid: string, summary: string, now: Time): State {
    EndSession(s, sid, Interrupted, SessionInterrupted, summary, true, now)
  }

  /** Startup failed: the live entries of the session stay behind. */
  function FailStartup(s: State, sid: string, summary: string, now: Time): State {
    EndSession(s, sid, Failed, SessionCompleted, summary, false, now)
  }

  function CreateManagedSession(s: State, sid: string, row: Session): State {
    var (db, r) := CreateSession(s.db, sid, row.(status := Starting));
    if r.Raised? then s else s.(db := db, flows := s.flows + multiset{StartingThread(sid)})
  }

  function ResumeThread(s: State, sid: string, threadId: string, serverUp: bool, now: Time): State {
    if StartingThread(sid) !in s.flows then s
    else
      var t := s.(flows := s.flows - multiset{StartingThread(sid)});
      var (db, ok) := UpdateSessionIfStatus(s.db, sid, {Starting}, Running, Some(Some(threadId)), None, now);
      if serverUp && ok then t.(db := db, flows := t.flows + multiset{StartingTurn(sid)})
      else FailStartup(t, sid, "Codex session startup failed (RuntimeError)", now)
  }

  function ResumeTurn(s: State, sid: string, turnId: string, serverUp: bool, now: Time): State {
    if StartingTurn(sid) !in s.flows then s
    else
      var t := s.(flows := s.flows - multiset{StartingTurn(sid)});
      var (db, ok) := UpdateSessionIfStatus(s.db, sid, ACTIVE, Running, None, Some(Some(turnId)), now);
      if serverUp && ok then Emit(t.(db := db), SessionStarted, sid, None, "session started", now)
      else FailStartup(t, sid, "Codex session startup failed (RuntimeError)", now)
  }

  function ResumeStartupRaised(s: State, flow: Flow, summary: string, now: Time): State {
    if flow !in s.flows || !(flow.StartingThread? || flow.StartingTurn?) then s
    else FailStartup(s.(flows := s.flows - multiset{flow}), flow.sessionId, summary, now)
  }

  function CreateInteractiveSession(s: State, sid: string, row: Session): State {
    var (db, r) := CreateSession(s.db, sid, row.(status := Starting));
    if r.Raised? then s else s.(db := db, interactive := s.interactive + {sid})
  }

  function BindThread(s: State, sid: string, threadId: string, turn: Option<string>, now: Time): State {
    if threadId == "" || turn == Some("") then s
    else s.(db := UpdateSessionIfStatus(s.db, sid, {Starting}, Running, Some(Some(threadId)), Some(turn), now).0)
  }

  function KindOf(methodName: string): Option<InteractionKind> {
    if methodName == "item/commandExecution/requestApproval" then Some(ExecApproval)
    else if methodName == "item/fileChange/requestApproval" then Some(FileChangeApproval)
    else if methodName == "item/permissions/requestApproval" then Some(PermissionRequest)
    else if methodName == "item/tool/requestUserInput" then Some(UserInput)
    else None
  }

  /** `SELECT ... WHERE thread_id = ?` returns one of the matching rows, if there are any. */
  predicate SelectsByThread(db: Db, threadId: string, row: Option<string>) {
    match row
    case Some(sid) => sid in db.sessions && db.sessions[sid].threadId == Some(threadId)
    case None => forall sid :: sid in db.sessions ==> db.sessions[sid].threadId != Some(threadId)
  }

  function TextParam(params: map<string, Json>, key: string): Option<string> {
    if key in params && params[key].JString? then Some(params[key].s) else None
  }

  /** The session a request is addressed to. */
  function Addressee(db: Db, request: ServerRequest, target: Option<string>, byThread: Option<string>): Option<string> {
    var threadId := TextParam(request.params, "threadId");
    var named := threadId.Some? && threadId.value != "";
    match target
    case Some(sid) =>
      if sid in db.sessions && !(named && db.sessions[sid].threadId != threadId) then Some(sid) else None
    case None =>
      if named && SelectsByThread(db, threadId.value, byThread) then byThread else None
  }

  predicate BelongsToOtherTurn(s: State, sid: string, params: map<string, Json>)
    requires sid in s.db.sessions
  {
    && sid in s.interactive
    && TextParam(params, "turnId").Some?
    && TextParam(params, "turnId") != s.db.sessions[sid].turnId
  }

  function WaitingStatus(kind: InteractionKind): SessionStatus {
    if kind.UserInput? then WaitingForInput else WaitingForApproval
  }

  function ProcessServerRequest(s: State, request: ServerRequest, target: Option<string>, byThread: Option<string>,
                                iid: string, summary: string, now: Time): State
  {
    var kind := KindOf(request.methodName);
    var addressee := Addressee(s.db, request, target, byThread);
    if kind.None? || addressee.None? || !SessionActive(s.db, addressee.value)
      || BelongsToOtherTurn(s, addressee.value, request.params)
    then s
    else Admit(s, request, addressee.value, kind.value, iid, summary, now)
  }

  const METHOD_NOT_FOUND := -32601
  const INVALID_PARAMS := -32602
  const INVALID_REQUEST := -32600

  /** The JSON-RPC error code a request is answered with when it is not accepted. */
  function Refusal(s: State, request: ServerRequest, target: Option<string>, byThread: Option<string>,
                   iid: string, summary: string, now: Time): Option<int>
  {
    var kind := KindOf(request.methodName);
    var addressee := Addressee(s.db, request, target, byThread);
    if kind.None? then Some(METHOD_NOT_FOUND)
    else if addressee.None? || !SessionActive(s.db, addressee.value)
      || BelongsToOtherTurn(s, addressee.value, request.params)
    then Some(INVALID_PARAMS)
    else if ViolatesUniqueness(s.db, iid, NewRow(s, request, addressee.value, kind.value, summary, now))
    then Some(INVALID_REQUEST)
    else None
  }

  function NewRow(s: State, request: ServerRequest, sid: string, kind: InteractionKind, summary: string, now: Time)
    : Interaction
  {
    Interaction(sid, Canonical(request.id), kind, Pending, None,
                SafeSummary(summary), now, None, now + s.timeout, None, None)
  }

  /** Record the request as pending, remember it and announce it; a refused row changes nothing. */
  function Admit(s: State, request: ServerRequest, sid: string, kind: InteractionKind,
                 iid: string, summary: string, now: Time): State
  {
    var row := NewRow(s, request, sid, kind, summary, now);
    var (db, r) := CreateInteractionAndMarkWaiting(s.db, iid, row, WaitingStatus(kind), now);
    if r != Ok(true) then s
    else Emit(s.(db := db, live := s.live[iid := Live(request, row)]),
              InteractionRequested, sid, Some(iid), row.payloadSummary, now)
  }

  /** Record the outcome; only the call that found the row pending goes on to the responder. */
  function Settle(s: State, iid: string, decision: string, actor: string, status: InteractionStatus, now: Time)
    : (State, bool)
  {
    var (db, r) := ResolveInteractionAndRefreshSession(s.db, iid, decision, actor, now, status);
    if r == Ok(true) then (s.(db := db, live := s.live - {iid}), true) else (s, false)
  }

  function CallResponder(s: State, iid: string, sid: string, summary: string): State {
    s.(responses := s.responses + [iid], flows := s.flows + multiset{Responding(iid, sid, summary)})
  }

  function ResolveInteraction(s: State, iid: string, actor: string, allow: Option<bool>,
                              answers: Option<map<string, string>>, now: Time): State
  {
    if iid !in s.live then s
    else
      var live := s.live[iid];
      match Resolution(live.interaction.kind, live.request.params, allow, answers)
      case Raised => s
      case Ok((payload, decision)) =>
        var (t, won) := Settle(s, iid, decision, actor, Resolved, now);
        if won then CallResponder(t, iid, live.interaction.sessionId, decision) else s
  }

  /** Some live entry with this request id, if there are any. */
  predicate FindsLive(s: State, requestId: RequestId, found: Option<string>) {
    match found
    case Some(iid) => iid in s.live && s.live[iid].interaction.requestId == Canonical(requestId)
    case None => forall iid :: iid in s.live ==> s.live[iid].interaction.requestId != Canonical(requestId)
  }

  function ResolveTerminalRequest(s: State, requestId: RequestId, result: Json, found: Option<string>, now: Time): State {
    if !FindsLive(s, requestId, found) || found.None? then s
    else
      var live := s.live[found.value];
      match TerminalDecision(live.interaction.kind, live.request.params, result)
      case Raised => s
      case Ok(decision) =>
        var (t, won) := Settle(s, found.value, decision, "terminal", Resolved, now);
        if won then CallResponder(t, found.value, live.interaction.sessionId, decision) else s
  }

  function ResumeResponded(s: State, flow: Flow, now: Time): State {
    if flow !in s.flows || !flow.Responding? then s
    else
      var t := s.(flows := s.flows - multiset{flow});
      if SessionActive(t.db, flow.sessionId)
      then Emit(t, InteractionResolved, flow.sessionId, Some(flow.interactionId), flow.summary, now)
      else t
  }

  function ResumeResponderRaised(s: State, flow: Flow, summary: string, now: Time): State {
    if flow !in s.flows || !flow.Responding? then s
    else InterruptSession(s.(flows := s.flows - multiset{flow}), flow.sessionId, summary, now)
  }

  function ProcessResolved(s: State, requestId: RequestId, found: Option<string>, now: Time): State {
    if !FindsLive(s, requestId, found) || found.None? then s
    else s.(db := CancelInteractionAndRefreshSession(s.db, found.value, now).0, live := s.live - {found.value})
  }

  function ProcessTurnStarted(s: State, threadId: string, turnId: string, byThread: Option<string>, now: Time): State {
    if !SelectsByThread(s.db, threadId, byThread) || byThread.None? || !SessionActive(s.db, byThread.value) then s
    else s.(db := UpdateSessionIfStatus(s.db, byThread.value, ACTIVE, Running, None, Some(Some(turnId)), now).0)
  }

  function ProcessTurnCompleted(s: State, threadId: string, turn: Option<string>, outcome: SessionStatus,
                                byThread: Option<string>, summary: string, now: Time): State
  {
    if !SelectsByThread(s.db, threadId, byThread) || byThread.None? || !SessionActive(s.db, byThread.value)
      || outcome !in {Succeeded, Failed, Interrupted}
    then s
    else
      var sid := byThread.value;
      if sid in s.interactive then
        if turn.None? || turn.value == "" then s
        else
          var (db, r) := FinishInteractiveTurn(s.db, sid, turn.value, summary, now);
          if r.Raised? || r.value.None? then s
          else Emit(s.(db := db, live := DropLive(s.live, sid)),
                    if outcome.Interrupted? then TurnInterrupted else TurnCompleted, sid, None, summary, now)
      else
        EndSession(s, sid, outcome, if outcome.Interrupted? then SessionInterrupted else SessionCompleted,
                   summary, true, now)
  }

  function TimeoutDecision(kind: InteractionKind): string {
    if kind.UserInput? then "submitted" else DenialDecision(kind).value
  }

  /** One turn of the expiry sweep, up to its `await`. The entry comes from the list the sweep took
      when it began; since a live entry repeats its row, the row stands for it here. A denial
      that cannot be built raises out of the sweep after the row was settled. */
  function ExpireInteraction(s: State, iid: string, params: map<string, Json>, now: Time): State {
    if iid !in s.db.interactions || s.db.interactions[iid].expiresAt > now then s
    else
      var row := s.db.interactions[iid];
      TimeOut(s, iid, row.sessionId, row.kind, TimeoutDecision(row.kind), DenialResponse(row.kind, params).Ok?, now)
  }

  function TimeOut(s: State, iid: string, sid: string, kind: InteractionKind, decision: string,
                   deniable: bool, now: Time): State
  {
    var (t, won) := Settle(s, iid, decision, "timeout", InteractionStatus.Expired, now);
    if !won then s
    else if kind.UserInput? then AbandonInput(t, sid, now)
    else if deniable then CallResponder(t, iid, sid, "expired and denied")
    else t
  }

  /** An unanswered question ends the session, after an attempt to interrupt the running turn. */
  function AbandonInput(s: State, sid: string, now: Time): State {
    if sid in s.db.sessions && NonEmpty(s.db.sessions[sid].threadId) && NonEmpty(s.db.sessions[sid].turnId)
    then s.(flows := s.flows + multiset{InterruptingTurn(sid, "user input request expired")})
    else InterruptSession(s, sid, "user input request expired", now)
  }

  predicate NonEmpty(text: Option<string>) {
    text.Some? && text.value != ""
  }

  function ResumeInterrupted(s: State, flow: Flow, now: Time): State {
    if flow !in s.flows || !flow.InterruptingTurn? then s
    else InterruptSession(s.(flows := s.flows - multiset{flow}), flow.sessionId, flow.summary, now)
  }

  function CloseInteractiveSession(s: State, sid: string, now: Time): State {
    EndSession(s.(interactive := s.interactive - {sid}), sid, SessionStatus.Cancelled, SessionCompleted,
               "interactive session closed", true, now)
  }

  /** Announce, one after the other, the sessions that startup found active. */
  function Announce(s: State, sids: seq<string>, now: Time): State
    decreases sids
  {
    if sids == [] then s
    else Announce(Emit(s, SessionInterrupted, sids[0], None, "interrupted during daemon restart", now), sids[1..], now)
  }

  predicate Enumerates(order: seq<string>, ids: set<string>) {
    && (forall i, j :: 0 <= i < j < |order| ==> order[i] != order[j])
    && ids == set sid | sid in order
  }

  /** The process dies and a new one starts on the same tables. If it died within `during`, the
      transactions of that action are committed, only the first of them if it died `partway`, but
      neither its announcement nor its response was made; if it dies again while announcing, only
      the first `announced` sessions were. */
  function StartUp(s: State, db: Db, order: seq<string>, announced: nat, now: Time): State {
    if !Enumerates(order, ActiveIds(db)) || announced > |order| then s
    else Announce(s.(db := ReconcileStartup(db, now).0, live := map[], interactive := {}, flows := multiset{}),
                  order[..announced], now)
  }

  predicate IsStartup(a: Action) {
    || a.CreateManaged? || a.ThreadStarted? || a.TurnBegun? || a.StartupRaised?
    || a.CreateInteractive? || a.BindInteractive?
  }

  function StartupStep(s: State, a: Action): State
    requires IsStartup(a)
  {
    match a
    case CreateManaged(sid, row) => CreateManagedSession(s, sid, row)
    case ThreadStarted(sid, threadId, up, now) => ResumeThread(s, sid, threadId, up, now)
    case TurnBegun(sid, turnId, up, now) => ResumeTurn(s, sid, turnId, up, now)
    case StartupRaised(flow, summary, now) => ResumeStartupRaised(s, flow, summary, now)
    case CreateInteractive(sid, row) => CreateInteractiveSession(s, sid, row)
    case BindInteractive(sid, threadId, turn, now) => BindThread(s, sid, threadId, turn, now)
  }

  predicate IsExchange(a: Action) {
    a.ReceiveRequest? || a.AnswerFromLark? || a.AnswerFromTerminal? || a.UpstreamResolved? || a.ExpireOne?
  }

  /** A request arrives, is answered, withdrawn or expires. */
  function ExchangeStep(s: State, a: Action): State
    requires IsExchange(a)
  {
    match a
    case ReceiveRequest(request, target, byThread, iid, summary, now) =>
      ProcessServerRequest(s, request, target, byThread, iid, summary, now)
    case AnswerFromLark(iid, actor, allow, answers, now) => ResolveInteraction(s, iid, actor, allow, answers, now)
    case AnswerFromTerminal(requestId, result, found, now) => ResolveTerminalRequest(s, requestId, result, found, now)
    case UpstreamResolved(requestId, found, now) => ProcessResolved(s, requestId, found, now)
    case ExpireOne(iid, now) => ExpireInteraction(s, iid, if iid in s.live then s.live[iid].request.params else map[], now)
  }

  predicate IsResumption(a: Action) {
    a.ResponderReturned? || a.ResponderRaised? || a.InterruptAttempted?
  }

  function ResumptionStep(s: State, a: Action): State
    requires IsResumption(a)
  {
    match a
    case ResponderReturned(flow, now) => ResumeResponded(s, flow, now)
    case ResponderRaised(flow, summary, now) => ResumeResponderRaised(s, flow, summary, now)
    case InterruptAttempted(flow, now) => ResumeInterrupted(s, flow, now)
  }

  predicate IsTurn(a: Action) {
    a.TurnStartedNotice? || a.TurnCompletedNotice?
  }

  function TurnStep(s: State, a: Action): State
    requires IsTurn(a)
  {
    match a
    case TurnStartedNotice(threadId, turnId, byThread, now) => ProcessTurnStarted(s, threadId, turnId, byThread, now)
    case TurnCompletedNotice(threadId, turn, outcome, byThread, summary, now) =>
      ProcessTurnCompleted(s, threadId, turn, outcome, byThread, summary, now)
  }

  predicate IsEnding(a: Action) {
    a.CancelSession? || a.CloseInteractive? || a.InterruptActive?
  }

  function EndingStep(s: State, a: Action): State
    requires IsEnding(a)
  {
    match a
    case CancelSession(sid, now) => EndSession(s, sid, SessionStatus.Cancelled, SessionCompleted, "cancelled", true, now)
    case CloseInteractive(sid, now) => CloseInteractiveSession(s, sid, now)
    case InterruptActive(sid, summary, now) => InterruptSession(s, sid, summary, now)
  }

  predicate IsDelivery(a: Action) {
    a.AttachMessage? || a.NotificationSent? || a.NotificationFailed? || a.EnqueueExternal?
  }

  function DeliveryStep(s: State, a: Action): State
    requires IsDelivery(a)
  {
    match a
    case AttachMessage(iid, messageId) => s.(db := AttachLarkMessageId(s.db, iid, messageId).0)
    case NotificationSent(id, now) => s.(db := MarkOutboxSent(s.db, id, now).0)
    case NotificationFailed(id, error, next) => s.(db := RecordOutboxFailure(s.db, id, error, next).0)
    case EnqueueExternal(tag, now) => s.(db := EnqueueOutbox(s.db, ExternalItem(tag, now, s.notifyDelay)))
  }

  /** What a process does in one go, from one await to the next. */
  function Step(s: State, a: Action): State {
    if IsStartup(a) then StartupStep(s, a)
    else if IsExchange(a) then ExchangeStep(s, a)
    else if IsResumption(a) then ResumptionStep(s, a)
    else if IsTurn(a) then TurnStep(s, a)
    else if IsEnding(a) then EndingStep(s, a)
    else if IsDelivery(a) then DeliveryStep(s, a)
    else s
  }

  /** The state after the first transaction of an action. One action has two that take effect: an
      expired question is settled, and then its session is claimed. */
  function FirstTransaction(s: State, a: Action): State {
    if a.ExpireOne? && a.iid in s.db.interactions && s.db.interactions[a.iid].expiresAt <= a.now
    then Settle(s, a.iid, TimeoutDecision(s.db.interactions[a.iid].kind), "timeout", InteractionStatus.Expired, a.now).0
    else Step(s, a)
  }

  /** The tables a dying process leaves behind. */
  function LeftBehind(s: State, during: Option<Action>, partway: bool): Db {
    if during.None? then s.db
    else if partway then FirstTransaction(s, during.value).db.(outbox := s.db.outbox)
    else Step(s, during.value).db.(outbox := s.db.outbox)
  }

  function Apply(s: State, a: Action): State {
    if a.Restart? then StartUp(s, LeftBehind(s, a.during, a.partway), a.order, a.announced, a.now) else Step(s, a)
  }

  function Exec(s: State, actions: seq<Action>): State
    decreases actions
  {
    if actions == [] then s else Exec(Apply(s, actions[0]), actions[1..])
  }
}
