/** The delivery loop of the daemon (`_outbox_worker`): list what is due, send, retry with backoff.

    A send is awaited, so rows may be enqueued and time may pass around it. A run is any list of
    actions; an action that does not apply leaves the state as it is. Times, the poll interval and
    the delays are whole microseconds, and the clock never goes back. */
module OutboxWorkers {
  import opened CodexModel
  import opened CodexStore
  import opened Timestamps
  import opened OutboxQueue

  /* ---- backoff ---- */

  const MAX_DELAY := 300_000_000
  const BATCH := 50

  function Pow2(n: nat): nat {
    if n == 0 then 1 else 2 * Pow2(n - 1)
  }

  function Min(a: int, b: int): int {
    if a <= b then a else b
  }

  /** The wait after the n-th failure. */
  function Delay(poll: nat, n: nat): int {
    Min(MAX_DELAY, poll * Pow2(Min(n, 10)))
  }

  /** The waits after the first n failures together. */
  function Waited(poll: nat, n: nat): int {
    if n == 0 then 0 else Waited(poll, n - 1) + Delay(poll, n)
  }

  lemma {:induction false} PowersGrow(i: nat, j: nat)
    requires i <= j
    ensures 1 <= Pow2(i) <= Pow2(j)
    decreases j
  {
    if i < j {
      PowersGrow(i, j - 1);
    } else if i > 0 {
      PowersGrow(i - 1, i - 1);
    }
  }

  /** Delays never shrink, never exceed five minutes, and are constant from the tenth failure on. */
  lemma DelaysGrowAndAreCapped(poll: nat, i: nat, j: nat)
    requires i <= j
    ensures 0 <= Delay(poll, i) <= Delay(poll, j) <= MAX_DELAY
    ensures i >= 10 ==> Delay(poll, i) == Delay(poll, j)
    ensures poll > 0 ==> Delay(poll, i) > 0
  {
    PowersGrow(Min(i, 10), Min(j, 10));
    ProductsGrow(poll, Pow2(Min(i, 10)), Pow2(Min(j, 10)));
  }

  lemma ProductsGrow(poll: nat, a: nat, b: nat)
    requires 1 <= a <= b
    ensures poll <= poll * a <= poll * b
  {
  }

  /** The delay is twice the poll interval after the first failure and doubles with every further one up to the tenth,
      as long as it is below five minutes. */
  lemma DelaysDouble(poll: nat, n: nat)
    requires n >= 1
    ensures Delay(poll, 1) == Min(300_000_000, 2 * poll)
    ensures n < 10 ==> Delay(poll, n + 1) == Min(300_000_000, 2 * Delay(poll, n))
    ensures n >= 10 ==> Delay(poll, n) == Min(300_000_000, 1024 * poll)
  {
    assert Pow2(1) == 2;
    assert Pow2(10) == 1024 by { assert Pow2(5) == 32; }
    if n < 10 {
      assert Pow2(n + 1) == 2 * Pow2(n);
      DoublesProduct(poll, Pow2(n));
    }
  }

  lemma DoublesProduct(poll: nat, k: nat)
    ensures poll * (2 * k) == 2 * (poll * k)
  {
  }

  /* ---- the worker and its surroundings ---- */

  datatype Event = Began(id: nat, at: Time) | Sent(id: nat) | SendFailed(id: nat)

  /** What the worker keeps of a listed row until it has dealt with it. */
  datatype Listed = Listed(id: nat, attemptCount: nat)

  /** `firstDue` is the time each row was first due, `log` what happened to the rows. */
  datatype State = State(
    db: Db, clock: Time, listed: seq<Listed>, sending: bool, firstDue: seq<Time>, log: seq<Event>)

  datatype Action =
    | Advance(elapsed: nat)
    | Enqueue(item: OutboxItem)
    | Elsewhere(tables: Db)
    | ListRows
    | Begin
    | Deliver(messageId: string)
    | Fail(error: string)
    | Restart

  function Pass(s: State, elapsed: nat): State {
    if Representable(s.clock + elapsed + MAX_DELAY) then s.(clock := s.clock + elapsed) else s
  }

  function AddRow(s: State, item: OutboxItem): State {
    if item.attemptCount == 0 && item.sentAt.None? && Representable(item.nextAttemptAt)
    then s.(db := EnqueueOutbox(s.db, item), firstDue := s.firstDue + [item.nextAttemptAt])
    else s
  }

  function Snapshot(outbox: seq<OutboxItem>, ids: seq<nat>): (r: seq<Listed>)
    ensures |r| == |ids|
    ensures forall k :: 0 <= k < |ids| ==>
      r[k].id == ids[k] && (ids[k] < |outbox| ==> r[k].attemptCount == outbox[ids[k]].attemptCount)
  {
    if ids == [] then []
    else
      [Listed(ids[0], if ids[0] < |outbox| then outbox[ids[0]].attemptCount else 0)] + Snapshot(outbox, ids[1..])
  }

  function StartRound(s: State): State {
    if s.listed != [] then s
    else s.(listed := Snapshot(s.db.outbox, ListDue(s.db.outbox, s.clock, BATCH)))
  }

  function StartSend(s: State): State {
    if s.listed == [] || s.sending then s
    else s.(sending := true, log := s.log + [Began(s.listed[0].id, s.clock)])
  }

  function AfterSend(s: State, messageId: string): State {
    if s.listed == [] || !s.sending then s
    else
      var id := s.listed[0].id;
      var interaction := if id < |s.db.outbox| then s.db.outbox[id].interactionId else None;
      var attached := if interaction.Some? && interaction.value != ""
                      then AttachLarkMessageId(s.db, interaction.value, messageId).0 else s.db;
      s.(db := MarkOutboxSent(attached, id, s.clock).0, listed := s.listed[1..], sending := false,
         log := s.log + [Sent(id)])
  }

  function AfterFailure(poll: nat, s: State, error: string): State {
    if s.listed == [] || !s.sending then s
    else
      var item := s.listed[0];
      var next := s.clock + Delay(poll, item.attemptCount + 1);
      s.(db := RecordOutboxFailure(s.db, item.id, error, next).0, listed := s.listed[1..], sending := false,
         log := s.log + [SendFailed(item.id)])
  }

  function Apply(poll: nat, s: State, a: Action): State {
    match a
    case Advance(elapsed) => Pass(s, elapsed)
    case Enqueue(item) => AddRow(s, item)
    case Elsewhere(tables) => if tables.outbox == s.db.outbox then s.(db := tables) else s
    case ListRows => StartRound(s)
    case Begin => StartSend(s)
    case Deliver(messageId) => AfterSend(s, messageId)
    case Fail(error) => AfterFailure(poll, s, error)
    case Restart => s.(listed := [], sending := false)
  }

  function Exec(poll: nat, s: State, actions: seq<Action>): State
    decreases actions
  {
    if actions == [] then s else Exec(poll, Apply(poll, s, actions[0]), actions[1..])
  }

  /* ---- what every reachable state satisfies ---- */

  function Failures(log: seq<Event>, id: nat): nat {
    if log == [] then 0
    else Failures(log[..|log| - 1], id) + if log[|log| - 1] == SendFailed(id) then 1 else 0
  }

  ghost predicate RowOk(poll: nat, s: State, id: nat)
    requires id < |s.db.outbox| && id < |s.firstDue|
  {
    var row := s.db.outbox[id];
    && row.attemptCount == Failures(s.log, id)
    && (row.sentAt.Some? <==> Sent(id) in s.log)
    && row.nextAttemptAt >= s.firstDue[id] + Waited(poll, row.attemptCount)
    && Representable(row.nextAttemptAt)
  }

  ghost predicate RowsOk(poll: nat, s: State) {
    |s.firstDue| == |s.db.outbox| && forall id :: 0 <= id < |s.db.outbox| ==> RowOk(poll, s, id)
  }

  ghost predicate StillDue(s: State, item: Listed) {
    IsDue(s.db.outbox, item.id, s.clock) && s.db.outbox[item.id].attemptCount == item.attemptCount
  }

  ghost predicate ListedOk(s: State) {
    && (forall k :: 0 <= k < |s.listed| ==> StillDue(s, s.listed[k]))
    && (forall j, k :: 0 <= j < k < |s.listed| ==> s.listed[j].id != s.listed[k].id)
  }

  /** An event in its past: nothing follows a successful send, and no attempt comes early. */
  ghost predicate EventOk(poll: nat, firstDue: seq<Time>, past: seq<Event>, e: Event) {
    && e.id < |firstDue| && Sent(e.id) !in past
    && (e.Began? ==> e.at >= firstDue[e.id] + Waited(poll, Failures(past, e.id)))
  }

  ghost predicate LogOk(poll: nat, s: State) {
    forall k :: 0 <= k < |s.log| ==> EventOk(poll, s.firstDue, s.log[..k], s.log[k])
  }

  ghost predicate ClockOk(s: State) {
    0 <= s.clock && Representable(s.clock + MAX_DELAY)
  }

  ghost predicate Inv(poll: nat, s: State) {
    ClockOk(s) && RowsOk(poll, s) && ListedOk(s) && LogOk(poll, s)
  }

  /* ---- every step keeps it ---- */

  lemma LogGrows(poll: nat, s: State, e: Event)
    requires LogOk(poll, s) && EventOk(poll, s.firstDue, s.log, e)
    ensures LogOk(poll, s.(log := s.log + [e]))
    ensures forall id: nat :: Failures(s.log + [e], id) == Failures(s.log, id) + if e == SendFailed(id) then 1 else 0
    ensures forall id: nat :: Sent(id) in s.log + [e] <==> Sent(id) in s.log || e == Sent(id)
  {
    var log := s.log + [e];
    assert log[..|s.log|] == s.log;
    forall k | 0 <= k < |log| ensures EventOk(poll, s.firstDue, log[..k], log[k]) {
      if k < |s.log| {
        assert log[..k] == s.log[..k];
      }
    }
  }

  lemma RowsInRange(poll: nat, s: State)
    requires RowsOk(poll, s)
    ensures InRange(s.db.outbox)
  {
    forall k | 0 <= k < |s.db.outbox| ensures Representable(s.db.outbox[k].nextAttemptAt) {
      assert RowOk(poll, s, k);
    }
  }

  lemma StartRoundKeeps(poll: nat, s: State)
    requires Inv(poll, s)
    ensures Inv(poll, StartRound(s))
  {
    if s.listed == [] {
      var ids := ListDue(s.db.outbox, s.clock, BATCH);
      RowsInRange(poll, s);
      DueQueryIsExact(s.db.outbox, s.clock, BATCH);
      ListingIsDue(s, ids);
      var r := StartRound(s);
      forall id | 0 <= id < |r.db.outbox| ensures RowOk(poll, r, id) {
        assert RowOk(poll, s, id);
      }
    }
  }

  lemma ListingIsDue(s: State, ids: seq<nat>)
    requires Answers(s.db.outbox, s.clock, BATCH, ids)
    ensures ListedOk(s.(listed := Snapshot(s.db.outbox, ids)))
  {
    var r := s.(listed := Snapshot(s.db.outbox, ids));
    forall k | 0 <= k < |r.listed| ensures StillDue(r, r.listed[k]) {
      assert IsDue(s.db.outbox, ids[k], s.clock);
    }
    forall j, k | 0 <= j < k < |r.listed| ensures r.listed[j].id != r.listed[k].id {
      assert Earlier(s.db.outbox, ids[j], ids[k]);
    }
  }

  lemma StartSendKeeps(poll: nat, s: State)
    requires Inv(poll, s)
    ensures Inv(poll, StartSend(s))
  {
    if s.listed != [] && !s.sending {
      var item := s.listed[0];
      assert StillDue(s, item);
      assert RowOk(poll, s, item.id);
      var e := Began(item.id, s.clock);
      LogGrows(poll, s, e);
      var r := StartSend(s);
      forall id | 0 <= id < |r.db.outbox| ensures RowOk(poll, r, id) {
        assert RowOk(poll, s, id);
      }
      assert forall k :: 0 <= k < |r.listed| ==> StillDue(s, r.listed[k]);
    }
  }

  /** The worker has dealt with its first listed row: the others are untouched. */
  lemma RestStaysListed(s: State, r: State)
    requires ListedOk(s) && s.listed != [] && r.listed == s.listed[1..] && r.clock == s.clock
    requires |r.db.outbox| == |s.db.outbox|
    requires forall id :: 0 <= id < |s.db.outbox| && id != s.listed[0].id ==> r.db.outbox[id] == s.db.outbox[id]
    ensures ListedOk(r)
  {
    forall k | 0 <= k < |r.listed| ensures StillDue(r, r.listed[k]) {
      assert r.listed[k] == s.listed[k + 1];
      assert StillDue(s, s.listed[k + 1]);
      assert s.listed[0].id != s.listed[k + 1].id;
    }
  }

  lemma AfterSendKeeps(poll: nat, s: State, messageId: string)
    requires Inv(poll, s)
    ensures Inv(poll, AfterSend(s, messageId))
  {
    if s.listed != [] && s.sending {
      var id := s.listed[0].id;
      assert StillDue(s, s.listed[0]);
      assert RowOk(poll, s, id);
      LogGrows(poll, s, Sent(id));
      var r := AfterSend(s, messageId);
      var row := s.db.outbox[id];
      assert r.db.outbox == s.db.outbox[id := row.(sentAt := Some(s.clock), lastError := None)];
      RestStaysListed(s, r);
      forall k | 0 <= k < |r.db.outbox| ensures RowOk(poll, r, k) {
        assert RowOk(poll, s, k);
      }
    }
  }

  lemma NextAttemptIsInRange(poll: nat, s: State, n: nat)
    requires ClockOk(s)
    ensures s.clock <= s.clock + Delay(poll, n) && Representable(s.clock + Delay(poll, n))
  {
    DelaysGrowAndAreCapped(poll, n, n);
  }

  lemma AfterFailureKeeps(poll: nat, s: State, error: string)
    requires Inv(poll, s)
    ensures Inv(poll, AfterFailure(poll, s, error))
  {
    if s.listed != [] && s.sending {
      var item := s.listed[0];
      assert StillDue(s, item);
      assert RowOk(poll, s, item.id);
      LogGrows(poll, s, SendFailed(item.id));
      var r := AfterFailure(poll, s, error);
      var next := s.clock + Delay(poll, item.attemptCount + 1);
      NextAttemptIsInRange(poll, s, item.attemptCount + 1);
      assert r.db.outbox == s.db.outbox[item.id := s.db.outbox[item.id].(
        attemptCount := item.attemptCount + 1, nextAttemptAt := next, lastError := Some(SafeSummary(error)))];
      RestStaysListed(s, r);
      forall k | 0 <= k < |r.db.outbox| ensures RowOk(poll, r, k) {
        assert RowOk(poll, s, k);
      }
    }
  }

  lemma LoggedRowsExist(poll: nat, s: State)
    requires LogOk(poll, s)
    ensures forall e :: e in s.log ==> e.id < |s.firstDue|
  {
    forall k | 0 <= k < |s.log| ensures s.log[k].id < |s.firstDue| {
      assert EventOk(poll, s.firstDue, s.log[..k], s.log[k]);
    }
  }

  lemma AddRowKeeps(poll: nat, s: State, item: OutboxItem)
    requires Inv(poll, s)
    ensures Inv(poll, AddRow(s, item))
  {
    var r := AddRow(s, item);
    if r != s {
      LoggedRowsExist(poll, s);
      NothingAhead(s.log, |s.db.outbox|);
      forall k | 0 <= k < |r.db.outbox| ensures RowOk(poll, r, k) {
        if k < |s.db.outbox| {
          assert RowOk(poll, s, k);
        }
      }
      assert forall k :: 0 <= k < |r.listed| ==> StillDue(s, r.listed[k]);
      forall k | 0 <= k < |r.log| ensures EventOk(poll, r.firstDue, r.log[..k], r.log[k]) {
        assert EventOk(poll, s.firstDue, s.log[..k], s.log[k]);
      }
    }
  }

  /** A row that does not exist yet has no history. */
  lemma {:induction false} NothingAhead(log: seq<Event>, id: nat)
    requires forall e :: e in log ==> e.id != id
    ensures Failures(log, id) == 0 && Sent(id) !in log
    decreases log
  {
    if log != [] {
      NothingAhead(log[..|log| - 1], id);
      assert log[|log| - 1] in log;
    }
  }

  /** The steps that change no outbox row and log nothing. */
  lemma QuietStepKeeps(poll: nat, s: State, r: State)
    requires Inv(poll, s) && ClockOk(r) && s.clock <= r.clock
    requires r.db.outbox == s.db.outbox && r.log == s.log && r.firstDue == s.firstDue
    requires r.listed == s.listed || r.listed == []
    ensures Inv(poll, r)
  {
    forall k | 0 <= k < |r.db.outbox| ensures RowOk(poll, r, k) {
      assert RowOk(poll, s, k);
    }
    assert forall k :: 0 <= k < |r.listed| ==> StillDue(s, r.listed[k]);
  }

  lemma ApplyKeeps(poll: nat, s: State, a: Action)
    requires Inv(poll, s)
    ensures Inv(poll, Apply(poll, s, a))
  {
    match a
    case Advance(elapsed) => QuietStepKeeps(poll, s, Apply(poll, s, a));
    case Enqueue(item) => AddRowKeeps(poll, s, item);
    case Elsewhere(tables) => QuietStepKeeps(poll, s, Apply(poll, s, a));
    case ListRows => StartRoundKeeps(poll, s);
    case Begin => StartSendKeeps(poll, s);
    case Deliver(messageId) => AfterSendKeeps(poll, s, messageId);
    case Fail(error) => AfterFailureKeeps(poll, s, error);
    case Restart => QuietStepKeeps(poll, s, Apply(poll, s, a));
  }

  lemma {:induction false} ExecKeeps(poll: nat, s: State, actions: seq<Action>)
    requires Inv(poll, s)
    ensures Inv(poll, Exec(poll, s, actions))
    decreases actions
  {
    if actions != [] {
      ApplyKeeps(poll, s, actions[0]);
      ExecKeeps(poll, Apply(poll, s, actions[0]), actions[1..]);
    }
  }

  lemma {:induction false} ExecAppends(poll: nat, s: State, a: seq<Action>, b: seq<Action>)
    ensures Exec(poll, s, a + b) == Exec(poll, Exec(poll, s, a), b)
    decreases a
  {
    if a == [] {
      assert a + b == b;
    } else {
      assert (a + b)[0] == a[0] && (a + b)[1..] == a[1..] + b;
      ExecAppends(poll, Apply(poll, s, a[0]), a[1..], b);
    }
  }

  /* ---- main results ---- */

  /** A daemon started at time `now` with an empty outbox. */
  ghost predicate IsStart(s: State) {
    ClockOk(s) && s.db.outbox == [] && s.listed == [] && s.firstDue == [] && s.log == []
  }

  /** Over every run: an attempt on a row starts no earlier than the row's first due time plus the delays
      of all its failures so far, and no row is attempted again once it was sent. */
  lemma RetriesBackOff(poll: nat, s: State, actions: seq<Action>, k: nat)
    requires IsStart(s) && k < |Exec(poll, s, actions).log|
    ensures var t := Exec(poll, s, actions);
      && t.log[k].id < |t.firstDue|
      && Sent(t.log[k].id) !in t.log[..k]
      && (t.log[k].Began? ==>
        t.log[k].at >= t.firstDue[t.log[k].id] + Waited(poll, Failures(t.log[..k], t.log[k].id)))
  {
    ExecKeeps(poll, s, actions);
  }

  /** Over every run: `attempt_count` counts the failures, the next attempt lies at least all their delays
      after the first due time, and a row is sent exactly when a send succeeded; then no query lists it. */
  lemma RowsRecordTheirHistory(poll: nat, s: State, actions: seq<Action>, id: nat, now: Time)
    requires IsStart(s) && id < |Exec(poll, s, actions).db.outbox| && Representable(now)
    ensures var t := Exec(poll, s, actions);
      var row := t.db.outbox[id];
      && |t.firstDue| == |t.db.outbox|
      && row.attemptCount == Failures(t.log, id)
      && row.nextAttemptAt >= t.firstDue[id] + Waited(poll, row.attemptCount)
      && (row.sentAt.Some? <==> Sent(id) in t.log)
      && (row.sentAt.Some? ==> id !in ListDue(t.db.outbox, now, BATCH))
  {
    ExecKeeps(poll, s, actions);
    var t := Exec(poll, s, actions);
    assert RowOk(poll, t, id);
    RowsInRange(poll, t);
    DueQueryIsExact(t.db.outbox, now, BATCH);
  }

  function ListedIds(listed: seq<Listed>): (ids: seq<nat>)
    ensures |ids| == |listed| && forall k :: 0 <= k < |ids| ==> ids[k] == listed[k].id
  {
    if listed == [] then [] else [listed[0].id] + ListedIds(listed[1..])
  }

  /** Over every run: a round takes up the rows due by the clock, at most fifty of them, earliest first. */
  lemma RoundListsDueRows(poll: nat, start: State, actions: seq<Action>)
    requires IsStart(start) && Exec(poll, start, actions).listed == []
    ensures var s, t := Exec(poll, start, actions), Exec(poll, start, actions + [ListRows]);
      t == s.(listed := t.listed) && OutboxQueue.Answers(s.db.outbox, s.clock, 50, ListedIds(t.listed))
  {
    var s := Exec(poll, start, actions);
    ExecKeeps(poll, start, actions);
    StartRoundLists(poll, s);
    OneMoreStep(poll, start, actions, ListRows);
  }

  lemma StartRoundLists(poll: nat, s: State)
    requires Inv(poll, s) && s.listed == []
    ensures var t := StartRound(s);
      t == s.(listed := t.listed) && OutboxQueue.Answers(s.db.outbox, s.clock, 50, ListedIds(t.listed))
  {
    RowsInRange(poll, s);
    DueQueryIsExact(s.db.outbox, s.clock, BATCH);
    SnapshotKeepsIds(s.db.outbox, ListDue(s.db.outbox, s.clock, BATCH));
  }

  lemma SnapshotKeepsIds(outbox: seq<OutboxItem>, ids: seq<nat>)
    ensures ListedIds(Snapshot(outbox, ids)) == ids
  {
  }

  /** Over every run: when a send fails, the row is put off to exactly the clock plus the delay of its failure, the failure
      is counted, and nothing else of the row changes but the error noted. */
  lemma FailedSendIsPutOff(poll: nat, start: State, actions: seq<Action>, error: string)
    requires IsStart(start) && Exec(poll, start, actions).sending && Exec(poll, start, actions).listed != []
    ensures var s, t := Exec(poll, start, actions), Exec(poll, start, actions + [Fail(error)]);
      var id := s.listed[0].id;
      && id < |s.db.outbox|
      && t.db.outbox == s.db.outbox[id := s.db.outbox[id].(
        attemptCount := Failures(s.log, id) + 1, nextAttemptAt := s.clock + Delay(poll, Failures(s.log, id) + 1),
        lastError := Some(SafeSummary(error)))]
      && t.clock == s.clock && t.log == s.log + [SendFailed(id)] && t.listed == s.listed[1..] && !t.sending
  {
    var s := Exec(poll, start, actions);
    ExecKeeps(poll, start, actions);
    var id := s.listed[0].id;
    assert StillDue(s, s.listed[0]);
    assert RowOk(poll, s, id);
    OneMoreStep(poll, start, actions, Fail(error));
  }

  /** Over every run: when a send returns, the row is marked sent at that time. */
  lemma ReturnedSendIsRecorded(poll: nat, start: State, actions: seq<Action>, messageId: string)
    requires IsStart(start) && Exec(poll, start, actions).sending && Exec(poll, start, actions).listed != []
    ensures var s, t := Exec(poll, start, actions), Exec(poll, start, actions + [Deliver(messageId)]);
      var id := s.listed[0].id;
      && id < |s.db.outbox|
      && t.db.outbox == s.db.outbox[id := s.db.outbox[id].(sentAt := Some(s.clock), lastError := None)]
      && t.log == s.log + [Sent(id)] && t.listed == s.listed[1..] && !t.sending && t.db.sessions == s.db.sessions
      && Attaches(s.db, t.db, s.db.outbox[id].interactionId, messageId)
  {
    var s := Exec(poll, start, actions);
    ExecKeeps(poll, start, actions);
    assert StillDue(s, s.listed[0]);
    OneMoreStep(poll, start, actions, Deliver(messageId));
  }

  /** The pending interaction a row is about gets the id of the message that announced it, if it has none yet. */
  predicate Attaches(db: Db, db': Db, interactionId: Option<string>, messageId: string) {
    if interactionId.Some? && interactionId.value != "" && IsPending(db, interactionId.value)
      && db.interactions[interactionId.value].larkMessageId.None?
    then db'.interactions == db.interactions[interactionId.value :=
      db.interactions[interactionId.value].(larkMessageId := Some(messageId))]
    else db'.interactions == db.interactions
  }

  /** A row that was added is the last one, first due when it says. */
  lemma EnqueuedRowIsAdded(poll: nat, s: State, item: OutboxItem)
    requires item.attemptCount == 0 && item.sentAt.None? && Representable(item.nextAttemptAt)
    ensures var t := Apply(poll, s, Enqueue(item));
      t == s.(db := s.db.(outbox := s.db.outbox + [item]), firstDue := s.firstDue + [item.nextAttemptAt])
  {
  }

  lemma OneMoreStep(poll: nat, start: State, actions: seq<Action>, a: Action)
    ensures Exec(poll, start, actions + [a]) == Apply(poll, Exec(poll, start, actions), a)
  {
    ExecAppends(poll, start, actions, [a]);
    var s := Exec(poll, start, actions);
    assert [a][1..] == [];
    assert Exec(poll, s, [a]) == Exec(poll, Apply(poll, s, a), []);
  }

  lemma SentRowStays(poll: nat, s: State, a: Action, id: nat)
    requires Inv(poll, s) && id < |s.db.outbox| && s.db.outbox[id].sentAt.Some?
    ensures var r := Apply(poll, s, a);
      id < |r.db.outbox| && r.db.outbox[id] == s.db.outbox[id]
  {
    if s.listed != [] {
      assert StillDue(s, s.listed[0]);
    }
  }

  lemma {:induction false} SentRowStaysFromHere(poll: nat, s: State, actions: seq<Action>, id: nat)
    requires Inv(poll, s) && id < |s.db.outbox| && s.db.outbox[id].sentAt.Some?
    ensures var r := Exec(poll, s, actions);
      id < |r.db.outbox| && r.db.outbox[id] == s.db.outbox[id]
    decreases actions
  {
    if actions != [] {
      SentRowStays(poll, s, actions[0], id);
      ApplyKeeps(poll, s, actions[0]);
      SentRowStaysFromHere(poll, Apply(poll, s, actions[0]), actions[1..], id);
    }
  }

  /** Over every run: a row that was sent never changes again. */
  lemma SentRowsAreFinal(poll: nat, start: State, before: seq<Action>, after: seq<Action>, id: nat)
    requires IsStart(start)
    ensures var s, r := Exec(poll, start, before), Exec(poll, start, before + after);
      id < |s.db.outbox| && s.db.outbox[id].sentAt.Some? ==>
        id < |r.db.outbox| && r.db.outbox[id] == s.db.outbox[id]
  {
    var s := Exec(poll, start, before);
    ExecKeeps(poll, start, before);
    ExecAppends(poll, start, before, after);
    if id < |s.db.outbox| && s.db.outbox[id].sentAt.Some? {
      SentRowStaysFromHere(poll, s, after, id);
    }
  }

  /* ---- the worker itself ---- */

  /** How the send of one item went, and how long it took. */
  datatype Outcome = Delivered(elapsed: nat, messageId: string) | Raised(elapsed: nat, error: string)

  function ItemActions(o: Outcome): seq<Action> {
    [Begin, Advance(o.elapsed), if o.Delivered? then Deliver(o.messageId) else Fail(o.error)]
  }

  /** A round over the first `n` listed items. */
  function RoundActions(outcomes: nat -> Outcome, n: nat): seq<Action> {
    if n == 0 then [ListRows] else RoundActions(outcomes, n - 1) + ItemActions(outcomes(n - 1))
  }

  function ItemDone(poll: nat, s: State, o: Outcome): State {
    var t := Pass(StartSend(s), o.elapsed);
    if o.Delivered? then AfterSend(t, o.messageId) else AfterFailure(poll, t, o.error)
  }

  lemma ItemActionsDo(poll: nat, s: State, o: Outcome)
    ensures Exec(poll, s, ItemActions(o)) == ItemDone(poll, s, o)
  {
    var actions := ItemActions(o);
    var s1 := StartSend(s);
    var s2 := Pass(s1, o.elapsed);
    assert actions[1..][1..] == [actions[2]] && actions[1..][0] == Advance(o.elapsed);
    assert Exec(poll, s, actions) == Exec(poll, s1, actions[1..]);
    assert Exec(poll, s1, actions[1..]) == Exec(poll, s2, [actions[2]]);
    assert Exec(poll, s2, [actions[2]]) == Exec(poll, Apply(poll, s2, actions[2]), []);
  }

  lemma RoundBegins(poll: nat, s: State, outcomes: nat -> Outcome)
    requires Inv(poll, s)
    ensures Exec(poll, s, RoundActions(outcomes, 0)) == StartRound(s) && Inv(poll, StartRound(s))
  {
    assert Exec(poll, s, [ListRows]) == Exec(poll, StartRound(s), []);
    StartRoundKeeps(poll, s);
  }

  lemma RoundContinues(poll: nat, start: State, outcomes: nat -> Outcome, n: nat, s: State)
    requires s == Exec(poll, start, RoundActions(outcomes, n)) && Inv(poll, s)
    ensures var t := ItemDone(poll, s, outcomes(n));
      t == Exec(poll, start, RoundActions(outcomes, n + 1)) && Inv(poll, t)
  {
    ItemActionsDo(poll, s, outcomes(n));
    ExecAppends(poll, start, RoundActions(outcomes, n), ItemActions(outcomes(n)));
    ExecKeeps(poll, s, ItemActions(outcomes(n)));
  }

  lemma ListedRowExists(poll: nat, s: State)
    requires Inv(poll, s) && s.listed != []
    ensures s.listed[0].id < |s.db.outbox|
  {
    assert StillDue(s, s.listed[0]);
  }

  class OutboxWorker {
    const poll: nat
    var db: Db
    var clock: Time
    ghost var firstDue: seq<Time>
    ghost var log: seq<Event>

    ghost function View(listed: seq<Listed>): State
      reads this
    {
      State(db, clock, listed, false, firstDue, log)
    }

    /** The send came back: attach the message id to the interaction and mark the row sent. */
    method MarkSent(ghost listed: seq<Listed>, item: Listed, messageId: string)
      requires listed != [] && item == listed[0] && item.id < |db.outbox|
      modifies this`db, this`log
      ensures View(listed[1..]) == AfterSend(old(View(listed)).(sending := true), messageId)
    {
      var interaction := db.outbox[item.id].interactionId;
      if interaction.Some? && interaction.value != "" {
        db := AttachLarkMessageId(db, interaction.value, messageId).0;
      }
      db := MarkOutboxSent(db, item.id, clock).0;
      log := log + [Sent(item.id)];
    }

    /** The attempt raised: count it and put the row off. */
    method PutOff(ghost listed: seq<Listed>, item: Listed, error: string)
      requires listed != [] && item == listed[0]
      modifies this`db, this`log
      ensures View(listed[1..]) == AfterFailure(poll, old(View(listed)).(sending := true), error)
    {
      var delay := Delay(poll, item.attemptCount + 1);
      db := RecordOutboxFailure(db, item.id, error, clock + delay).0;
      log := log + [SendFailed(item.id)];
    }

    /** One listed item: send it, then mark it sent or put it off. */
    method Attempt(ghost listed: seq<Listed>, item: Listed, outcome: Outcome)
      requires listed != [] && item == listed[0] && item.id < |db.outbox|
      modifies this
      ensures View(listed[1..]) == ItemDone(poll, old(View(listed)), outcome)
    {
      log := log + [Began(item.id, clock)];
      if Representable(clock + outcome.elapsed + MAX_DELAY) {
        clock := clock + outcome.elapsed;
      }
      assert View(listed).(sending := true) == Pass(StartSend(old(View(listed))), outcome.elapsed);
      match outcome
      case Delivered(_, messageId) => MarkSent(listed, item, messageId);
      case Raised(_, error) => PutOff(listed, item, error);
    }

    /** One round of the loop does what its actions do, and attempts every listed item. */
    method Round(outcomes: nat -> Outcome) returns (attempted: nat)
      requires Inv(poll, View([]))
      modifies this
      ensures View([]) == Exec(poll, old(View([])), RoundActions(outcomes, attempted)) && Inv(poll, View([]))
      ensures attempted == |ListDue(old(db).outbox, old(clock), BATCH)|
    {
      ghost var start := View([]);
      var listed := Snapshot(db.outbox, ListDue(db.outbox, clock, BATCH));
      attempted := 0;
      RoundBegins(poll, start, outcomes);
      while attempted < |listed|
        invariant attempted <= |listed|
        invariant View(listed[attempted..]) == Exec(poll, start, RoundActions(outcomes, attempted))
        invariant Inv(poll, View(listed[attempted..]))
      {
        ghost var s, rest := View(listed[attempted..]), listed[attempted..];
        ListedRowExists(poll, s);
        RoundContinues(poll, start, outcomes, attempted, s);
        Attempt(rest, listed[attempted], outcomes(attempted));
        assert rest[1..] == listed[attempted + 1..];
        assert View(rest[1..]) == Exec(poll, start, RoundActions(outcomes, attempted + 1));
        attempted := attempted + 1;
      }
      assert listed[attempted..] == [];
    }
  }
}
