/** What the orchestrator does when the app-server is gone, or a consumer of its messages has failed. */
module ServerDeath {
  import opened CodexModel
  import opened CodexStore
  import opened Orchestration
  import opened OrchestrationSafety

  /** Each session listed is interrupted in turn. Nothing is awaited in between. */
  function InterruptAll(s: State, order: seq<string>, summary: string, now: Time): State
    decreases order
  {
    if order == [] then s else InterruptAll(InterruptSession(s, order[0], summary, now), order[1..], summary, now)
  }

  lemma {:induction false} InterruptAllAppends(s: State, order: seq<string>, last: string, summary: string, now: Time)
    ensures InterruptAll(s, order + [last], summary, now)
         == InterruptSession(InterruptAll(s, order, summary, now), last, summary, now)
    decreases order
  {
    if order == [] {
      assert [last][1..] == [] && order + [last] == [last];
    } else {
      assert (order + [last])[0] == order[0] && (order + [last])[1..] == order[1..] + [last];
      InterruptAllAppends(InterruptSession(s, order[0], summary, now), order[1..], last, summary, now);
    }
  }

  function Interrupts(order: seq<string>, summary: string, now: Time): seq<Action> {
    if order == [] then [] else [InterruptActive(order[0], summary, now)] + Interrupts(order[1..], summary, now)
  }

  /** The loop is a run of the state machine. */
  lemma {:induction false} InterruptAllIsARun(s: State, order: seq<string>, summary: string, now: Time)
    ensures Exec(s, Interrupts(order, summary, now)) == InterruptAll(s, order, summary, now)
    decreases order
  {
    if order != [] {
      var first, rest := InterruptActive(order[0], summary, now), Interrupts(order[1..], summary, now);
      assert ([first] + rest)[0] == first && ([first] + rest)[1..] == rest;
      assert Apply(s, first) == InterruptSession(s, order[0], summary, now);
      InterruptAllIsARun(Apply(s, first), order[1..], summary, now);
    }
  }

  /** The session was interrupted, and that was announced once. */
  predicate WasInterrupted(db: Db, sid: string) {
    sid in db.sessions && db.sessions[sid].status == Interrupted && Endings(db.outbox, sid) == 1
  }

  lemma {:induction false} EndingsGrow(a: seq<OutboxItem>, b: seq<OutboxItem>, sid: string)
    requires |a| <= |b| && forall k :: 0 <= k < |a| ==> a[k].notice == b[k].notice
    ensures Endings(a, sid) <= Endings(b, sid)
    decreases |b|
  {
    if |a| < |b| {
      EndingsGrow(a, b[..|b| - 1], sid);
    } else {
      EndingsSeeOnlyNotices(a, b, sid);
    }
  }

  lemma InterruptedStays(db: Db, db': Db, sid: string)
    requires WasInterrupted(db, sid) && EndingsAnnouncedOnce(db') && Evolves(db, db')
    ensures WasInterrupted(db', sid)
  {
    EndingsGrow(db.outbox, db'.outbox, sid);
    assert Endings(db'.outbox, sid) <= if SessionEnded(db', sid) then 1 else 0;
  }

  lemma InterruptOne(s: State, sid: string, summary: string, now: Time)
    requires Inv(s)
    ensures var t := InterruptSession(s, sid, summary, now);
      && Inv(t) && Evolves(s.db, t.db) && t.db.sessions.Keys == s.db.sessions.Keys
      && (forall x :: x in s.db.sessions && x != sid ==> t.db.sessions[x] == s.db.sessions[x])
      && (if SessionActive(s.db, sid) then WasInterrupted(t.db, sid) else t == s)
  {
    EndSessionSafe(s, sid, Interrupted, SessionInterrupted, summary, true, now);
  }

  lemma {:induction false} InterruptAllKeeps(s: State, order: seq<string>, summary: string, now: Time)
    requires Inv(s)
    ensures var t := InterruptAll(s, order, summary, now);
      Inv(t) && Evolves(s.db, t.db) && t.db.sessions.Keys == s.db.sessions.Keys
    decreases order
  {
    if order == [] {
      SameStateIsSafe(s);
    } else {
      var u := InterruptSession(s, order[0], summary, now);
      InterruptOne(s, order[0], summary, now);
      InterruptAllKeeps(u, order[1..], summary, now);
      EvolvesTransitively(s.db, u.db, InterruptAll(s, order, summary, now).db);
    }
  }

  lemma {:induction false} InterruptAllEnds(s: State, order: seq<string>, summary: string, now: Time, sid: string)
    requires Inv(s) && sid in s.db.sessions
    ensures var t := InterruptAll(s, order, summary, now);
      && sid in t.db.sessions
      && (if sid in order && SessionActive(s.db, sid) then WasInterrupted(t.db, sid)
          else t.db.sessions[sid] == s.db.sessions[sid])
    decreases order
  {
    if order != [] {
      var u := InterruptSession(s, order[0], summary, now);
      InterruptOne(s, order[0], summary, now);
      InterruptAllKeeps(u, order[1..], summary, now);
      InterruptAllEnds(u, order[1..], summary, now, sid);
      assert order == [order[0]] + order[1..];
      if sid == order[0] && SessionActive(s.db, sid) {
        InterruptedStays(u.db, InterruptAll(s, order, summary, now).db, sid);
      }
    }
  }

  /** Afterwards no session is active and nothing is pending; each session that was active is interrupted and
      announced once, and every other session row is as it was. */
  lemma ServerDeathEndsEverything(s: State, order: seq<string>, summary: string, now: Time)
    requires Inv(s) && Enumerates(order, s.db.sessions.Keys)
    ensures var t := InterruptAll(s, order, summary, now);
      && Inv(t) && Evolves(s.db, t.db) && t.db.sessions.Keys == s.db.sessions.Keys
      && (forall sid :: !SessionActive(t.db, sid)) && (forall iid :: !IsPending(t.db, iid))
      && (forall sid :: sid in s.db.sessions ==>
        if SessionActive(s.db, sid) then WasInterrupted(t.db, sid) else t.db.sessions[sid] == s.db.sessions[sid])
  {
    var t := InterruptAll(s, order, summary, now);
    InterruptAllKeeps(s, order, summary, now);
    forall sid | sid in s.db.sessions
      ensures !SessionActive(t.db, sid)
      ensures if SessionActive(s.db, sid) then WasInterrupted(t.db, sid) else t.db.sessions[sid] == s.db.sessions[sid]
    {
      assert sid in order;
      InterruptAllEnds(s, order, summary, now, sid);
    }
    assert forall iid :: iid in t.db.interactions ==> SessionEnded(t.db, t.db.interactions[iid].sessionId);
  }
}
