/** The session, interaction and outbox tables, and the transactions on them.

    Each transaction is a function from the tables before to the tables after and the value
    returned; `SQLiteCodexStore` runs the same transactions in place on its own tables. */
module CodexStore {
  import opened CodexModel
  import opened InteractionCodec

  datatype Db = Db(
    sessions: map<string, Session>,
    interactions: map<string, Interaction>,
    outbox: seq<OutboxItem>)

  predicate SessionActive(db: Db, sid: string) {
    sid in db.sessions && IsActive(db.sessions[sid].status)
  }

  predicate SessionEnded(db: Db, sid: string) {
    sid in db.sessions && !IsActive(db.sessions[sid].status)
  }

  predicate IsPending(db: Db, iid: string) {
    iid in db.interactions && db.interactions[iid].status.Pending?
  }

  predicate PendingIn(db: Db, iid: string, sid: string) {
    IsPending(db, iid) && db.interactions[iid].sessionId == sid
  }

  function PendingIds(db: Db, sid: string): set<string> {
    set iid | iid in db.interactions && PendingIn(db, iid, sid)
  }

  /* ---- transactions ---- */

  function CreateSession(db: Db, sid: string, row: Session): (Db, Result<()>) {
    if sid in db.sessions then (db, Raised)
    else (db.(sessions := db.sessions[sid := row.(summary := SafeSummary(row.summary))]), Ok(()))
  }

  /** In `threadId` and `turnId` the outer option says whether the column is assigned at all. */
  function UpdateSessionIfStatus(db: Db, sid: string, expected: set<SessionStatus>, status: SessionStatus,
                                 threadId: Option<Option<string>>, turnId: Option<Option<string>>, at: Time)
    : (Db, bool)
  {
    if sid !in db.sessions || db.sessions[sid].status !in expected then (db, false)
    else
      var row := db.sessions[sid];
      var row1 := if threadId.Some? then row.(threadId := threadId.value) else row;
      var row2 := if turnId.Some? then row1.(turnId := turnId.value) else row1;
      (db.(sessions := db.sessions[sid := row2.(status := status, updatedAt := at)]), true)
  }

  const ACTIVE: set<SessionStatus> := {Starting, Running, WaitingForApproval, WaitingForInput}

  predicate HasResolutionMetadata(row: Interaction) {
    row.resolvedAt.Some? || row.actorId.Some? || row.decision.Some?
  }

  /** The primary key and the partial unique index on the request ids of pending rows. */
  predicate ViolatesUniqueness(db: Db, iid: string, row: Interaction) {
    || iid in db.interactions
    || (row.status.Pending? &&
        exists j :: j in db.interactions && IsPending(db, j) && db.interactions[j].requestId == row.requestId)
  }

  function CreateInteractionAndMarkWaiting(db: Db, iid: string, row: Interaction,
                                           waiting: SessionStatus, at: Time): (Db, Result<bool>)
  {
    if waiting !in {WaitingForApproval, WaitingForInput} then (db, Raised)
    else if row.status.Pending? && HasResolutionMetadata(row) then (db, Raised)
    else if !SessionActive(db, row.sessionId) || ViolatesUniqueness(db, iid, row) then (db, Ok(false))
    else
      var session := db.sessions[row.sessionId].(status := waiting, updatedAt := at);
      (db.(sessions := db.sessions[row.sessionId := session],
           interactions := db.interactions[iid := row.(payloadSummary := SafeSummary(row.payloadSummary))]),
       Ok(true))
  }

  /** The status a session falls back to, given what is still pending. */
  function RefreshedStatus(db: Db, sid: string): SessionStatus {
    var kinds := set iid | iid in PendingIds(db, sid) :: db.interactions[iid].kind;
    if UserInput in kinds then WaitingForInput
    else if kinds != {} then WaitingForApproval
    else Running
  }

  function RefreshSession(db: Db, sid: string, at: Time): Db {
    if SessionActive(db, sid) then
      db.(sessions := db.sessions[sid := db.sessions[sid].(status := RefreshedStatus(db, sid), updatedAt := at)])
    else db
  }

  function ResolveInteractionAndRefreshSession(db: Db, iid: string, decision: string, actorId: string,
                                               at: Time, status: InteractionStatus): (Db, Result<bool>)
  {
    if status != Resolved && status != Expired then (db, Raised)
    else if iid !in db.interactions then (db, Ok(false))
    else
      var row := db.interactions[iid];
      match NormalizeDecision(row.kind, decision)
      case Raised => (db, Raised)
      case Ok(normalized) =>
        if !row.status.Pending? then (db, Ok(false))
        else
          var row' := row.(status := status, decision := Some(normalized),
                           actorId := Some(actorId), resolvedAt := Some(at));
          (RefreshSession(db.(interactions := db.interactions[iid := row']), row.sessionId, at), Ok(true))
  }

  function CancelInteractionAndRefreshSession(db: Db, iid: string, at: Time): (Db, bool) {
    if !IsPending(db, iid) then (db, false)
    else
      var row := db.interactions[iid];
      var row' := row.(status := InteractionStatus.Cancelled, resolvedAt := Some(at));
      (RefreshSession(db.(interactions := db.interactions[iid := row']), row.sessionId, at), true)
  }

  /** `UPDATE ... WHERE session_id = ? AND status = 'pending'`. */
  function SettleAllOf(db: Db, sid: string, status: InteractionStatus, at: Time): map<string, Interaction> {
    map iid | iid in db.interactions ::
      if PendingIn(db, iid, sid) then db.interactions[iid].(status := status, resolvedAt := Some(at))
      else db.interactions[iid]
  }

  function ClaimSessionTerminal(db: Db, sid: string, terminal: SessionStatus, summary: string,
                                settled: InteractionStatus, at: Time): (Db, Result<Option<set<string>>>)
  {
    if IsActive(terminal) || settled !in {InteractionStatus.Expired, InteractionStatus.Cancelled} then (db, Raised)
    else if !SessionActive(db, sid) then (db, Ok(None))
    else
      var session := db.sessions[sid].(status := terminal, summary := SafeSummary(summary), updatedAt := at);
      (db.(sessions := db.sessions[sid := session], interactions := SettleAllOf(db, sid, settled, at)),
       Ok(Some(PendingIds(db, sid))))
  }

  function FinishInteractiveTurn(db: Db, sid: string, turnId: string, summary: string, at: Time)
    : (Db, Result<Option<set<string>>>)
  {
    if turnId == "" then (db, Raised)
    else if !SessionActive(db, sid) || db.sessions[sid].turnId != Some(turnId) then (db, Ok(None))
    else
      var session := db.sessions[sid].(status := Running, turnId := None,
                                       summary := SafeSummary(summary), updatedAt := at);
      (db.(sessions := db.sessions[sid := session],
           interactions := SettleAllOf(db, sid, InteractionStatus.Cancelled, at)),
       Ok(Some(PendingIds(db, sid))))
  }

  function ActiveIds(db: Db): set<string> {
    set sid | sid in db.sessions && SessionActive(db, sid)
  }

  /** Startup: whatever the previous process left active is interrupted, whatever it left
      pending is expired. */
  function ReconcileStartup(db: Db, now: Time): (Db, set<string>) {
    (db.(sessions := map sid | sid in db.sessions ::
           if SessionActive(db, sid) then db.sessions[sid].(status := Interrupted, updatedAt := now)
           else db.sessions[sid],
         interactions := map iid | iid in db.interactions ::
           if IsPending(db, iid)
           then db.interactions[iid].(status := InteractionStatus.Expired, resolvedAt := Some(now))
           else db.interactions[iid]),
     ActiveIds(db))
  }

  function AttachLarkMessageId(db: Db, iid: string, messageId: string): (Db, bool) {
    if IsPending(db, iid) && db.interactions[iid].larkMessageId.None? then
      (db.(interactions := db.interactions[iid := db.interactions[iid].(larkMessageId := Some(messageId))]), true)
    else (db, false)
  }

  function EnqueueOutbox(db: Db, item: OutboxItem): Db {
    db.(outbox := db.outbox + [item])
  }

  /** Outbox row ids are positions: rows are only ever appended. */
  function MarkOutboxSent(db: Db, id: nat, at: Time): (Db, bool) {
    if id < |db.outbox| && db.outbox[id].sentAt.None? then
      (db.(outbox := db.outbox[id := db.outbox[id].(sentAt := Some(at), lastError := None)]), true)
    else (db, false)
  }

  function RecordOutboxFailure(db: Db, id: nat, error: string, nextAttemptAt: Time): (Db, bool) {
    if id < |db.outbox| && db.outbox[id].sentAt.None? then
      var row := db.outbox[id];
      (db.(outbox := db.outbox[id := row.(attemptCount := row.attemptCount + 1,
                                          nextAttemptAt := nextAttemptAt,
                                          lastError := Some(SafeSummary(error)))]), true)
    else (db, false)
  }

  /* ---- what holds of the tables ---- */

  ghost predicate ForeignKeys(db: Db) {
    forall iid :: iid in db.interactions ==> db.interactions[iid].sessionId in db.sessions
  }

  ghost predicate PendingRequestsUnique(db: Db) {
    forall i, j :: IsPending(db, i) && IsPending(db, j) && i != j ==>
      db.interactions[i].requestId != db.interactions[j].requestId
  }

  ghost predicate EndedSessionsAreQuiet(db: Db) {
    forall iid :: IsPending(db, iid) ==> !SessionEnded(db, db.interactions[iid].sessionId)
  }

  ghost predicate AwaitsKind(db: Db, sid: string, input: bool) {
    exists iid :: PendingIn(db, iid, sid) && db.interactions[iid].kind.UserInput? == input
  }

  /** A session waits only for something that is pending. */
  ghost predicate JustifiedAt(db: Db, sid: string) {
    sid in db.sessions ==>
      && (db.sessions[sid].status.WaitingForInput? ==> AwaitsKind(db, sid, true))
      && (db.sessions[sid].status.WaitingForApproval? ==> AwaitsKind(db, sid, false))
  }

  ghost predicate WaitingIsJustified(db: Db) {
    forall sid :: sid in db.sessions ==> JustifiedAt(db, sid)
  }

  ghost predicate Consistent(db: Db) {
    ForeignKeys(db) && PendingRequestsUnique(db) && EndedSessionsAreQuiet(db) && WaitingIsJustified(db)
  }

  predicate SameRequest(a: Interaction, b: Interaction) {
    && a.sessionId == b.sessionId && a.requestId == b.requestId && a.kind == b.kind
    && a.payloadSummary == b.payloadSummary && a.requestedAt == b.requestedAt && a.expiresAt == b.expiresAt
  }

  /** What one or more transactions may do: rows are never removed, a row that has reached its
      final status is frozen, and a notification keeps its identity and stays sent. */
  ghost predicate SessionsEvolve(db: Db, db': Db) {
    forall sid :: sid in db.sessions ==>
      && sid in db'.sessions
      && (SessionEnded(db, sid) ==> db'.sessions[sid] == db.sessions[sid])
  }

  ghost predicate InteractionsEvolve(db: Db, db': Db) {
    forall iid :: iid in db.interactions ==>
      && iid in db'.interactions
      && SameRequest(db.interactions[iid], db'.interactions[iid])
      && (!IsPending(db, iid) ==> db'.interactions[iid] == db.interactions[iid])
  }

  ghost predicate OutboxEvolves(db: Db, db': Db) {
    && |db.outbox| <= |db'.outbox|
    && forall k :: 0 <= k < |db.outbox| ==>
      && db'.outbox[k].notice == db.outbox[k].notice
      && (db.outbox[k].sentAt.Some? ==> db'.outbox[k] == db.outbox[k])
      && db.outbox[k].attemptCount <= db'.outbox[k].attemptCount
  }

  ghost predicate Evolves(db: Db, db': Db) {
    SessionsEvolve(db, db') && InteractionsEvolve(db, db') && OutboxEvolves(db, db')
  }

  lemma EvolvesTransitively(a: Db, b: Db, c: Db)
    requires Evolves(a, b) && Evolves(b, c)
    ensures Evolves(a, c)
  {
    forall iid | iid in a.interactions
      ensures iid in c.interactions && SameRequest(a.interactions[iid], c.interactions[iid])
      ensures !IsPending(a, iid) ==> c.interactions[iid] == a.interactions[iid]
    {
      assert iid in b.interactions;
    }
    forall sid | sid in a.sessions
      ensures sid in c.sessions && (SessionEnded(a, sid) ==> c.sessions[sid] == a.sessions[sid])
    {
      assert sid in b.sessions;
    }
  }

  /* ---- every transaction keeps the tables consistent ---- */

  lemma CreateSessionKeeps(db: Db, sid: string, row: Session)
    requires Consistent(db) && row.status.Starting?
    ensures var (db', r) := CreateSession(db, sid, row);
      && Consistent(db') && Evolves(db, db') && (r.Ok? <==> sid !in db.sessions) && (r.Raised? ==> db' == db)
      && db'.sessions.Keys == db.sessions.Keys + {sid} && db'.interactions == db.interactions && db'.outbox == db.outbox
      && forall x :: x in db.sessions ==> db'.sessions[x] == db.sessions[x]
  {
    var db' := CreateSession(db, sid, row).0;
    SamePendingKeepsConsistent(db, db');
  }

  /** A change to session rows only, which never revives an ended session, ends one or puts one
      into a waiting status. */
  lemma SamePendingKeepsConsistent(db: Db, db': Db)
    requires Consistent(db) && db'.interactions == db.interactions
    requires forall sid :: sid in db.sessions ==> sid in db'.sessions
    requires forall sid :: sid in db'.sessions ==>
      || (sid in db.sessions && db'.sessions[sid].status == db.sessions[sid].status)
      || db'.sessions[sid].status.Running?
      || (sid !in db.sessions && db'.sessions[sid].status.Starting?)
    ensures Consistent(db')
  {
    forall sid | sid in db'.sessions
      ensures JustifiedAt(db', sid)
    {
      AwaitsCarriesOver(db, db', sid);
    }
    forall iid | IsPending(db', iid)
      ensures !SessionEnded(db', db'.interactions[iid].sessionId)
    {
      assert IsPending(db, iid);
    }
    assert forall iid :: IsPending(db', iid) ==> IsPending(db, iid);
  }

  lemma AwaitsCarriesOver(db: Db, db': Db, sid: string)
    requires forall iid :: PendingIn(db, iid, sid) ==>
      PendingIn(db', iid, sid) && db'.interactions[iid].kind == db.interactions[iid].kind
    ensures forall input :: AwaitsKind(db, sid, input) ==> AwaitsKind(db', sid, input)
  {
  }

  lemma UpdateSessionIfStatusKeeps(db: Db, sid: string, expected: set<SessionStatus>,
                                   threadId: Option<Option<string>>, turnId: Option<Option<string>>, at: Time)
    requires Consistent(db) && expected <= ACTIVE
    ensures var (db', ok) := UpdateSessionIfStatus(db, sid, expected, Running, threadId, turnId, at);
      Consistent(db') && Evolves(db, db') && (!ok ==> db' == db)
  {
    SamePendingKeepsConsistent(db, UpdateSessionIfStatus(db, sid, expected, Running, threadId, turnId, at).0);
  }

  lemma CreateInteractionKeeps(db: Db, iid: string, row: Interaction, at: Time)
    requires Consistent(db) && row.status.Pending?
    ensures var waiting := if row.kind.UserInput? then WaitingForInput else WaitingForApproval;
      var (db', r) := CreateInteractionAndMarkWaiting(db, iid, row, waiting, at);
      Consistent(db') && Evolves(db, db') && (r != Ok(true) ==> db' == db)
  {
    var waiting := if row.kind.UserInput? then WaitingForInput else WaitingForApproval;
    var (db', r) := CreateInteractionAndMarkWaiting(db, iid, row, waiting, at);
    if r == Ok(true) {
      AdmittedIsConsistent(db, db', iid, row.sessionId);
    }
  }

  /** Adding a pending row whose request id is free, and the waiting status that it justifies. */
  lemma AdmittedIsConsistent(db: Db, db': Db, iid: string, sid: string)
    requires Consistent(db) && iid !in db.interactions && iid in db'.interactions
    requires PendingIn(db', iid, sid) && SessionActive(db, sid) && SessionActive(db', sid)
    requires db'.sessions == db.sessions[sid := db'.sessions[sid]]
    requires db'.interactions == db.interactions[iid := db'.interactions[iid]]
    requires db'.sessions[sid].status ==
      if db'.interactions[iid].kind.UserInput? then WaitingForInput else WaitingForApproval
    requires forall j :: IsPending(db, j) ==> db.interactions[j].requestId != db'.interactions[iid].requestId
    ensures Consistent(db')
  {
    assert forall j :: IsPending(db', j) && j != iid ==> IsPending(db, j);
    forall s | s in db'.sessions
      ensures JustifiedAt(db', s)
    {
      AwaitsCarriesOver(db, db', s);
    }
  }

  lemma RefreshedStatusIsJustified(db: Db, sid: string)
    ensures IsActive(RefreshedStatus(db, sid)) && !RefreshedStatus(db, sid).Starting?
    ensures RefreshedStatus(db, sid).WaitingForInput? <==> AwaitsKind(db, sid, true)
    ensures RefreshedStatus(db, sid).WaitingForApproval? <==>
      AwaitsKind(db, sid, false) && !AwaitsKind(db, sid, true)
  {
    var kinds := set iid | iid in PendingIds(db, sid) :: db.interactions[iid].kind;
    assert forall iid :: PendingIn(db, iid, sid) <==> iid in PendingIds(db, sid);
    if kinds != {} && UserInput !in kinds {
      var kind :| kind in kinds;
      var iid :| iid in PendingIds(db, sid) && db.interactions[iid].kind == kind;
      assert PendingIn(db, iid, sid) && !db.interactions[iid].kind.UserInput?;
    }
    forall iid | PendingIn(db, iid, sid)
      ensures db.interactions[iid].kind in kinds
    {
      assert iid in PendingIds(db, sid);
    }
  }

  /** Refreshing repairs the one session whose waiting status may have lost its reason. */
  lemma RefreshKeeps(db: Db, sid: string, at: Time)
    requires ForeignKeys(db) && PendingRequestsUnique(db) && EndedSessionsAreQuiet(db)
    requires forall s :: s != sid ==> JustifiedAt(db, s)
    ensures Consistent(RefreshSession(db, sid, at)) && Evolves(db, RefreshSession(db, sid, at))
  {
    var db' := RefreshSession(db, sid, at);
    RefreshedStatusIsJustified(db, sid);
    assert forall j :: IsPending(db', j) <==> IsPending(db, j);
    forall s | s in db'.sessions
      ensures JustifiedAt(db', s)
    {
      AwaitsCarriesOver(db, db', s);
      assert s != sid ==> JustifiedAt(db, s);
    }
    forall iid | IsPending(db', iid)
      ensures !SessionEnded(db', db'.interactions[iid].sessionId)
    {
      assert IsPending(db, iid);
    }
  }

  /** Settling one pending row and refreshing its session, the step that resolving, expiring and
      withdrawing share. */
  lemma SettleAndRefreshKeeps(db: Db, iid: string, row: Interaction, at: Time)
    requires Consistent(db) && IsPending(db, iid) && !row.status.Pending?
    requires SameRequest(db.interactions[iid], row)
    ensures var db' := RefreshSession(db.(interactions := db.interactions[iid := row]), row.sessionId, at);
      Consistent(db') && Evolves(db, db')
  {
    var mid := db.(interactions := db.interactions[iid := row]);
    assert forall j :: IsPending(mid, j) ==> IsPending(db, j);
    forall s | s != row.sessionId
      ensures JustifiedAt(mid, s)
    {
      AwaitsCarriesOver(db, mid, s);
    }
    assert Evolves(db, mid);
    RefreshKeeps(mid, row.sessionId, at);
    EvolvesTransitively(db, mid, RefreshSession(mid, row.sessionId, at));
  }

  lemma ResolveKeeps(db: Db, iid: string, decision: string, actorId: string, at: Time, status: InteractionStatus)
    requires Consistent(db)
    ensures var (db', r) := ResolveInteractionAndRefreshSession(db, iid, decision, actorId, at, status);
      Consistent(db') && Evolves(db, db') && (r != Ok(true) ==> db' == db)
  {
    var (db', r) := ResolveInteractionAndRefreshSession(db, iid, decision, actorId, at, status);
    if r == Ok(true) {
      var row := db.interactions[iid];
      SettleAndRefreshKeeps(db, iid, row.(status := status, resolvedAt := Some(at), actorId := Some(actorId),
        decision := Some(NormalizeDecision(row.kind, decision).value)), at);
    }
  }

  lemma CancelKeeps(db: Db, iid: string, at: Time)
    requires Consistent(db)
    ensures var (db', ok) := CancelInteractionAndRefreshSession(db, iid, at);
      Consistent(db') && Evolves(db, db') && (!ok ==> db' == db)
  {
    if IsPending(db, iid) {
      var row := db.interactions[iid];
      SettleAndRefreshKeeps(db, iid,
        row.(status := InteractionStatus.Cancelled, resolvedAt := Some(at)), at);
    }
  }

  /** Settling everything a session has pending, in the same transaction that ends the session
      or returns it to `Running`. */
  lemma SettleAllKeeps(db: Db, db': Db, sid: string, status: InteractionStatus, at: Time)
    requires Consistent(db) && SessionActive(db, sid) && !status.Pending?
    requires db'.interactions == SettleAllOf(db, sid, status, at) && db'.outbox == db.outbox
    requires sid in db'.sessions && db'.sessions == db.sessions[sid := db'.sessions[sid]]
    requires db'.sessions[sid].status.Running? || SessionEnded(db', sid)
    ensures Consistent(db') && Evolves(db, db')
    ensures PendingIds(db', sid) == {}
  {
    SettleAllEvolves(db, db', sid, status, at);
    assert forall j :: IsPending(db', j) <==> IsPending(db, j) && db.interactions[j].sessionId != sid;
    forall s | s in db'.sessions && s != sid
      ensures JustifiedAt(db', s)
    {
      assert JustifiedAt(db, s);
      AwaitsCarriesOver(db, db', s);
    }
  }

  lemma SettleAllEvolves(db: Db, db': Db, sid: string, status: InteractionStatus, at: Time)
    requires SessionActive(db, sid)
    requires db'.interactions == SettleAllOf(db, sid, status, at) && db'.outbox == db.outbox
    requires sid in db'.sessions && db'.sessions == db.sessions[sid := db'.sessions[sid]]
    ensures Evolves(db, db')
  {
  }

  lemma ClaimKeeps(db: Db, sid: string, terminal: SessionStatus, summary: string,
                   settled: InteractionStatus, at: Time)
    requires Consistent(db)
    ensures var (db', r) := ClaimSessionTerminal(db, sid, terminal, summary, settled, at);
      && Consistent(db') && Evolves(db, db')
      && (r.Raised? || r.value.None? ==> db' == db)
      && (r.Ok? && r.value.Some? ==>
        && SessionEnded(db', sid) && db'.sessions[sid].status == terminal && PendingIds(db', sid) == {}
        && r.value.value == PendingIds(db, sid)
        && forall iid :: iid in r.value.value ==> iid in db'.interactions && db'.interactions[iid].status == settled)
      && (r.Ok? ==> (r.value.Some? <==> SessionActive(db, sid)))
  {
    var (db', r) := ClaimSessionTerminal(db, sid, terminal, summary, settled, at);
    if r.Ok? && r.value.Some? {
      SettleAllKeeps(db, db', sid, settled, at);
    }
  }

  lemma FinishTurnKeeps(db: Db, sid: string, turnId: string, summary: string, at: Time)
    requires Consistent(db)
    ensures var (db', r) := FinishInteractiveTurn(db, sid, turnId, summary, at);
      && Consistent(db') && Evolves(db, db')
      && (r.Raised? || r.value.None? ==> db' == db)
      && (r.Ok? && r.value.Some? ==>
        && SessionActive(db', sid) && db'.sessions[sid].status == Running && db'.sessions[sid].turnId.None?
        && SessionActive(db, sid) && db.sessions[sid].turnId == Some(turnId) && PendingIds(db', sid) == {})
  {
    var (db', r) := FinishInteractiveTurn(db, sid, turnId, summary, at);
    if r.Ok? && r.value.Some? {
      SettleAllKeeps(db, db', sid, InteractionStatus.Cancelled, at);
    }
  }

  lemma ReconcileKeeps(db: Db, now: Time)
    requires Consistent(db)
    ensures var db' := ReconcileStartup(db, now).0;
      && Consistent(db') && Evolves(db, db')
      && (forall iid :: !IsPending(db', iid))
      && (forall sid :: !SessionActive(db', sid))
      && (forall sid :: SessionActive(db, sid) ==> db'.sessions[sid].status == Interrupted)
      && (forall iid :: IsPending(db, iid) ==> db'.interactions[iid].status == Expired)
  {
    ReconcileRows(db, now);
    ReconcileEvolves(db, now);
  }

  lemma ReconcileRows(db: Db, now: Time)
    ensures var db' := ReconcileStartup(db, now).0;
      && (forall iid :: !IsPending(db', iid))
      && (forall sid :: !SessionActive(db', sid))
      && (forall sid :: SessionActive(db, sid) ==> db'.sessions[sid].status == Interrupted)
      && (forall iid :: IsPending(db, iid) ==> db'.interactions[iid].status == Expired)
  {
  }

  lemma ReconcileEvolves(db: Db, now: Time)
    ensures Evolves(db, ReconcileStartup(db, now).0)
  {
  }

  lemma AttachKeeps(db: Db, iid: string, messageId: string)
    requires Consistent(db)
    ensures var (db', ok) := AttachLarkMessageId(db, iid, messageId);
      && Consistent(db') && Evolves(db, db') && (!ok ==> db' == db)
      && (forall j :: IsPending(db', j) <==> IsPending(db, j))
      && (ok <==> IsPending(db, iid) && db.interactions[iid].larkMessageId.None?)
      && (ok ==> db' == db.(interactions :=
        db.interactions[iid := db.interactions[iid].(larkMessageId := Some(messageId))]))
  {
    var db' := AttachLarkMessageId(db, iid, messageId).0;
    assert forall j :: IsPending(db', j) <==> IsPending(db, j);
    forall sid | sid in db'.sessions
      ensures JustifiedAt(db', sid)
    {
      AwaitsCarriesOver(db, db', sid);
    }
  }

  lemma OutboxChangesKeep(db: Db, db': Db)
    requires Consistent(db) && OutboxEvolves(db, db')
    requires db'.sessions == db.sessions && db'.interactions == db.interactions
    ensures Consistent(db') && Evolves(db, db')
  {
    assert forall iid :: IsPending(db', iid) <==> IsPending(db, iid);
    forall sid | sid in db'.sessions
      ensures JustifiedAt(db', sid)
    {
      AwaitsCarriesOver(db, db', sid);
    }
  }

  /** The three writes to the outbox touch no other table, change at most the row they name, and never one
      that was sent. */
  lemma OutboxWritesKeep(db: Db, item: OutboxItem, id: nat, error: string, at: Time)
    requires Consistent(db)
    ensures KeepsTables(db, EnqueueOutbox(db, item))
    ensures KeepsTables(db, MarkOutboxSent(db, id, at).0) && KeepsTables(db, RecordOutboxFailure(db, id, error, at).0)
    ensures MarkOutboxSent(db, id, at).1 == RecordOutboxFailure(db, id, error, at).1 == IsUnsent(db, id)
    ensures !IsUnsent(db, id) ==> MarkOutboxSent(db, id, at).0 == RecordOutboxFailure(db, id, error, at).0 == db
    ensures !IsUnsent(MarkOutboxSent(db, id, at).0, id)
    ensures EnqueueOutbox(db, item).outbox == db.outbox + [item]
    ensures IsUnsent(db, id) ==>
      && MarkOutboxSent(db, id, at).0.outbox == db.outbox[id := db.outbox[id].(sentAt := Some(at), lastError := None)]
      && RecordOutboxFailure(db, id, error, at).0.outbox == db.outbox[id := db.outbox[id].(
        attemptCount := db.outbox[id].attemptCount + 1, nextAttemptAt := at, lastError := Some(SafeSummary(error)))]
  {
    OutboxChangesKeep(db, EnqueueOutbox(db, item));
    OutboxChangesKeep(db, MarkOutboxSent(db, id, at).0);
    OutboxChangesKeep(db, RecordOutboxFailure(db, id, error, at).0);
  }

  predicate IsUnsent(db: Db, id: nat) {
    id < |db.outbox| && db.outbox[id].sentAt.None?
  }

  ghost predicate KeepsTables(db: Db, db': Db) {
    Consistent(db') && Evolves(db, db') && db'.sessions == db.sessions && db'.interactions == db.interactions
  }

  /* ---- the store itself ---- */

  /** The tables as the process holds them. Every method is one committed transaction; a refused
      or raising one leaves the tables as they were. */
  class SQLiteCodexStore {
    var sessions: map<string, Session>
    var interactions: map<string, Interaction>
    var outbox: seq<OutboxItem>

    function Rows(): Db
      reads this
    {
      Db(sessions, interactions, outbox)
    }

    constructor ()
      ensures Rows() == Db(map[], map[], [])
    {
      sessions, interactions, outbox := map[], map[], [];
    }

    method Create(sid: string, row: Session) returns (r: Result<()>)
      modifies this
      ensures (Rows(), r) == CreateSession(old(Rows()), sid, row)
    {
      if sid in sessions {
        return Raised;
      }
      sessions := sessions[sid := row.(summary := SafeSummary(row.summary))];
      r := Ok(());
    }

    method UpdateIfStatus(sid: string, expected: set<SessionStatus>, status: SessionStatus,
                          threadId: Option<Option<string>>, turnId: Option<Option<string>>, at: Time)
      returns (ok: bool)
      modifies this
      ensures (Rows(), ok) == UpdateSessionIfStatus(old(Rows()), sid, expected, status, threadId, turnId, at)
    {
      if sid !in sessions || sessions[sid].status !in expected {
        return false;
      }
      var row := sessions[sid].(status := status, updatedAt := at);
      if threadId.Some? {
        row := row.(threadId := threadId.value);
      }
      if turnId.Some? {
        row := row.(turnId := turnId.value);
      }
      sessions := sessions[sid := row];
      ok := true;
    }

    method AdmitInteraction(iid: string, row: Interaction, waiting: SessionStatus, at: Time) returns (r: Result<bool>)
      modifies this
      ensures (Rows(), r) == CreateInteractionAndMarkWaiting(old(Rows()), iid, row, waiting, at)
    {
      if waiting !in {WaitingForApproval, WaitingForInput} || (row.status.Pending? && HasResolutionMetadata(row)) {
        return Raised;
      }
      if !SessionActive(Rows(), row.sessionId) {
        return Ok(false);
      }
      var saved := sessions;
      sessions := sessions[row.sessionId := sessions[row.sessionId].(status := waiting, updatedAt := at)];
      if ViolatesUniqueness(Rows(), iid, row) {
        sessions := saved;
        return Ok(false);
      }
      interactions := interactions[iid := row.(payloadSummary := SafeSummary(row.payloadSummary))];
      r := Ok(true);
    }

    /** The tail that resolving and withdrawing share: what is still pending decides the status. */
    method Refresh(sid: string, at: Time)
      modifies this`sessions
      ensures Rows() == RefreshSession(old(Rows()), sid, at)
    {
      var kinds := set iid | iid in PendingIds(Rows(), sid) :: interactions[iid].kind;
      var next := Running;
      if UserInput in kinds {
        next := WaitingForInput;
      } else if kinds != {} {
        next := WaitingForApproval;
      }
      if SessionActive(Rows(), sid) {
        sessions := sessions[sid := sessions[sid].(status := next, updatedAt := at)];
      }
    }

    method Resolve(iid: string, decision: string, actorId: string, at: Time, status: InteractionStatus)
      returns (r: Result<bool>)
      modifies this
      ensures (Rows(), r) == ResolveInteractionAndRefreshSession(old(Rows()), iid, decision, actorId, at, status)
    {
      if status != Resolved && status != Expired {
        return Raised;
      }
      if iid !in interactions {
        return Ok(false);
      }
      var row := interactions[iid];
      var normalized := NormalizeDecision(row.kind, decision);
      if normalized.Raised? {
        return Raised;
      }
      if !row.status.Pending? {
        return Ok(false);
      }
      interactions := interactions[iid := row.(status := status, decision := Some(normalized.value),
                                               actorId := Some(actorId), resolvedAt := Some(at))];
      Refresh(row.sessionId, at);
      r := Ok(true);
    }

    method Cancel(iid: string, at: Time) returns (ok: bool)
      modifies this
      ensures (Rows(), ok) == CancelInteractionAndRefreshSession(old(Rows()), iid, at)
    {
      if iid !in interactions || !interactions[iid].status.Pending? {
        return false;
      }
      var row := interactions[iid];
      interactions := interactions[iid := row.(status := InteractionStatus.Cancelled, resolvedAt := Some(at))];
      Refresh(row.sessionId, at);
      ok := true;
    }

    method ClaimTerminal(sid: string, terminal: SessionStatus, summary: string, settled: InteractionStatus, at: Time)
      returns (r: Result<Option<set<string>>>)
      modifies this
      ensures (Rows(), r) == ClaimSessionTerminal(old(Rows()), sid, terminal, summary, settled, at)
    {
      if IsActive(terminal) || settled !in {InteractionStatus.Expired, InteractionStatus.Cancelled} {
        return Raised;
      }
      if !SessionActive(Rows(), sid) {
        return Ok(None);
      }
      var settledRows, ids := SettleAllOf(Rows(), sid, settled, at), PendingIds(Rows(), sid);
      sessions := sessions[sid := sessions[sid].(status := terminal, summary := SafeSummary(summary), updatedAt := at)];
      interactions := settledRows;
      r := Ok(Some(ids));
    }

    method FinishTurn(sid: string, turnId: string, summary: string, at: Time) returns (r: Result<Option<set<string>>>)
      modifies this
      ensures (Rows(), r) == FinishInteractiveTurn(old(Rows()), sid, turnId, summary, at)
    {
      if turnId == "" {
        return Raised;
      }
      if !SessionActive(Rows(), sid) || sessions[sid].turnId != Some(turnId) {
        return Ok(None);
      }
      var settledRows, ids := SettleAllOf(Rows(), sid, InteractionStatus.Cancelled, at), PendingIds(Rows(), sid);
      sessions := sessions[sid := sessions[sid].(status := Running, turnId := None,
                                                 summary := SafeSummary(summary), updatedAt := at)];
      interactions := settledRows;
      r := Ok(Some(ids));
    }

    method InterruptActiveSessions(now: Time) returns (ids: set<string>)
      modifies this`sessions
      ensures ids == ActiveIds(old(Rows())) && sessions.Keys == old(sessions).Keys
      ensures forall sid :: sid in ids ==> sessions[sid] == old(sessions)[sid].(status := Interrupted, updatedAt := now)
      ensures forall sid :: sid in sessions && sid !in ids ==> sessions[sid] == old(sessions)[sid]
    {
      ids := set sid | sid in sessions && IsActive(sessions[sid].status);
      sessions := map sid | sid in sessions ::
        if sid in ids then sessions[sid].(status := Interrupted, updatedAt := now) else sessions[sid];
    }

    method ExpirePendingInteractions(now: Time)
      modifies this`interactions
      ensures interactions.Keys == old(interactions).Keys
      ensures forall iid :: IsPending(old(Rows()), iid) ==>
        interactions[iid] == old(interactions)[iid].(status := Expired, resolvedAt := Some(now))
      ensures forall iid :: iid in interactions && !IsPending(old(Rows()), iid) ==>
        interactions[iid] == old(interactions)[iid]
    {
      var doomed := set iid | iid in interactions && interactions[iid].status.Pending?;
      interactions := map iid | iid in interactions ::
        if iid in doomed then interactions[iid].(status := Expired, resolvedAt := Some(now)) else interactions[iid];
    }

    /** The tables the previous process left behind are brought to rest: nothing is active and nothing
        pending any more. Returns the sessions that were interrupted. */
    method Reconcile(now: Time) returns (ids: set<string>)
      modifies this`sessions, this`interactions
      ensures (forall sid :: !SessionActive(Rows(), sid)) && (forall iid :: !IsPending(Rows(), iid))
      ensures forall sid :: sid in ids <==> SessionActive(old(Rows()), sid)
      ensures forall sid :: sid in ids ==> sid in sessions && sessions[sid].status == Interrupted
      ensures Rows() == ReconcileStartup(old(Rows()), now).0
    {
      ids := InterruptActiveSessions(now);
      ExpirePendingInteractions(now);
      assert sessions == ReconcileStartup(old(Rows()), now).0.sessions;
      assert interactions == ReconcileStartup(old(Rows()), now).0.interactions;
    }

    method Enqueue(item: OutboxItem) returns (id: nat)
      modifies this`outbox
      ensures Rows() == EnqueueOutbox(old(Rows()), item) && id == old(|outbox|)
    {
      id := |outbox|;
      outbox := outbox + [item];
    }
  }
}
