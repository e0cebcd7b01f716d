/** Per-session serialization with reference-counted locks (`AgentSessionService.run_serialized`).

    The guard around the lock table is never held across an await, so each guarded section is one
    action. A run is any list of actions of any number of tasks; an action that does not apply
    leaves the state as it is. A lock object is its index in `entries`, so a popped object and
    the one that replaces it stay distinct. */
module AgentSessions {

  type TaskId = nat

  /** `_SessionLock`: whether the lock is taken, and how many tasks refer to it. */
  datatype Entry = Entry(locked: bool, users: int)

  datatype Phase = Waiting | Running | Leaving

  datatype Task = Task(sessionId: string, entry: nat, phase: Phase)

  datatype State = State(locks: map<string, nat>, entries: seq<Entry>, tasks: map<TaskId, Task>)

  const IDLE := State(map[], [], map[])

  datatype Action =
    | Call(task: TaskId, sessionId: string)
    | Acquire(task: TaskId)
    | OperationEnds(task: TaskId)
    | CancelWaiting(task: TaskId)
    | Leave(task: TaskId)

  /* ---- steps ---- */

  /** The first guarded section; an empty session id raises. */
  function Enter(s: State, t: TaskId, sid: string): State {
    if t in s.tasks || sid == "" then s
    else if sid in s.locks && s.locks[sid] < |s.entries| then
      var e := s.locks[sid];
      s.(entries := s.entries[e := s.entries[e].(users := s.entries[e].users + 1)],
         tasks := s.tasks[t := Task(sid, e, Waiting)])
    else
      State(s.locks[sid := |s.entries|], s.entries + [Entry(false, 1)],
            s.tasks[t := Task(sid, |s.entries|, Waiting)])
  }

  predicate InPhase(s: State, t: TaskId, phase: Phase) {
    t in s.tasks && s.tasks[t].phase == phase && s.tasks[t].entry < |s.entries|
  }

  function Move(s: State, t: TaskId, phase: Phase, locked: bool): State
    requires t in s.tasks && s.tasks[t].entry < |s.entries|
  {
    var e := s.tasks[t].entry;
    s.(entries := s.entries[e := s.entries[e].(locked := locked)],
       tasks := s.tasks[t := s.tasks[t].(phase := phase)])
  }

  function TakeLock(s: State, t: TaskId): State {
    if InPhase(s, t, Waiting) && !s.entries[s.tasks[t].entry].locked then Move(s, t, Running, true) else s
  }

  /** The operation returned, raised or was cancelled; the lock is released. */
  function EndOperation(s: State, t: TaskId): State {
    if InPhase(s, t, Running) then Move(s, t, Leaving, false) else s
  }

  function GiveUp(s: State, t: TaskId): State {
    if InPhase(s, t, Waiting) then Move(s, t, Leaving, s.entries[s.tasks[t].entry].locked) else s
  }

  /** The guarded section of the `finally` clause. */
  function Exit(s: State, t: TaskId): State {
    if !InPhase(s, t, Leaving) then s
    else
      var e, sid := s.tasks[t].entry, s.tasks[t].sessionId;
      var users := s.entries[e].users - 1;
      State(if users == 0 && !s.entries[e].locked then s.locks - {sid} else s.locks,
            s.entries[e := s.entries[e].(users := users)], s.tasks - {t})
  }

  function Apply(s: State, a: Action): State {
    match a
    case Call(t, sid) => Enter(s, t, sid)
    case Acquire(t) => TakeLock(s, t)
    case OperationEnds(t) => EndOperation(s, t)
    case CancelWaiting(t) => GiveUp(s, t)
    case Leave(t) => Exit(s, t)
  }

  function Exec(s: State, actions: seq<Action>): State
    decreases actions
  {
    if actions == [] then s else Exec(Apply(s, actions[0]), actions[1..])
  }

  /* ---- what every reachable state satisfies ---- */

  ghost function UsersOf(s: State, e: nat): set<TaskId> {
    set t | t in s.tasks && s.tasks[t].entry == e
  }

  ghost function HoldersOf(s: State, e: nat): set<TaskId> {
    set t | t in s.tasks && s.tasks[t].entry == e && s.tasks[t].phase == Running
  }

  /** Tasks and table agree on the lock of a session, and no two sessions share one. */
  ghost predicate Shared(s: State) {
    && (forall t :: t in s.tasks ==>
      s.tasks[t].sessionId in s.locks && s.tasks[t].entry == s.locks[s.tasks[t].sessionId])
    && (forall a :: a in s.locks ==> a != "" && s.locks[a] < |s.entries|)
    && (forall a, b :: a in s.locks && b in s.locks && s.locks[a] == s.locks[b] ==> a == b)
  }

  ghost predicate Counted(s: State) {
    && (forall e :: 0 <= e < |s.entries| ==> s.entries[e].users == |UsersOf(s, e)|)
    && (forall a :: a in s.locks ==> UsersOf(s, s.locks[a]) != {})
  }

  ghost predicate Exclusive(s: State) {
    forall e :: 0 <= e < |s.entries| ==> |HoldersOf(s, e)| == if s.entries[e].locked then 1 else 0
  }

  ghost predicate Inv(s: State) {
    Shared(s) && Counted(s) && Exclusive(s)
  }

  /* ---- every step keeps it ---- */

  lemma UsersWhenEntering(s: State, t: TaskId, sid: string, e: nat)
    requires Inv(s) && t !in s.tasks && sid != ""
    ensures var r := Enter(s, t, sid);
      t in r.tasks && UsersOf(r, e) == if r.tasks[t].entry == e then UsersOf(s, e) + {t} else UsersOf(s, e)
  {
  }

  lemma EnterCountsAt(s: State, t: TaskId, sid: string, e: nat)
    requires Inv(s) && t !in s.tasks && sid != "" && e < |Enter(s, t, sid).entries|
    ensures Enter(s, t, sid).entries[e].users == |UsersOf(Enter(s, t, sid), e)|
  {
    UsersWhenEntering(s, t, sid, e);
    if e == |s.entries| {
      assert UsersOf(s, e) == {};
    }
  }

  lemma EnterCounts(s: State, t: TaskId, sid: string)
    requires Inv(s) && t !in s.tasks && sid != ""
    ensures Counted(Enter(s, t, sid))
  {
    var r := Enter(s, t, sid);
    forall e | 0 <= e < |r.entries| ensures r.entries[e].users == |UsersOf(r, e)| {
      EnterCountsAt(s, t, sid, e);
    }
    forall a | a in r.locks ensures UsersOf(r, r.locks[a]) != {} {
      UsersWhenEntering(s, t, sid, r.locks[a]);
    }
  }

  lemma EnterShares(s: State, t: TaskId, sid: string)
    requires Shared(s) && t !in s.tasks && sid != ""
    ensures Shared(Enter(s, t, sid))
  {
  }

  lemma EnterExcludes(s: State, t: TaskId, sid: string)
    requires Shared(s) && Exclusive(s) && t !in s.tasks && sid != ""
    ensures Exclusive(Enter(s, t, sid))
  {
    var r := Enter(s, t, sid);
    forall e | 0 <= e < |r.entries|
      ensures |HoldersOf(r, e)| == if r.entries[e].locked then 1 else 0
    {
      assert HoldersOf(r, e) == HoldersOf(s, e);
      if e == |s.entries| {
        assert HoldersOf(s, e) == {};
      }
    }
  }

  lemma EnterKeeps(s: State, t: TaskId, sid: string)
    requires Inv(s)
    ensures Inv(Enter(s, t, sid))
  {
    if t !in s.tasks && sid != "" {
      EnterShares(s, t, sid);
      EnterCounts(s, t, sid);
      EnterExcludes(s, t, sid);
    }
  }

  lemma MoveShares(s: State, t: TaskId, phase: Phase, locked: bool)
    requires Shared(s) && t in s.tasks && s.tasks[t].entry < |s.entries|
    ensures Shared(Move(s, t, phase, locked))
  {
    var r := Move(s, t, phase, locked);
    assert r.locks == s.locks && r.tasks.Keys == s.tasks.Keys && |r.entries| == |s.entries|;
  }

  lemma MoveCounts(s: State, t: TaskId, phase: Phase, locked: bool)
    requires Counted(s) && t in s.tasks && s.tasks[t].entry < |s.entries|
    ensures Counted(Move(s, t, phase, locked))
  {
    var r := Move(s, t, phase, locked);
    forall e: nat ensures UsersOf(r, e) == UsersOf(s, e) {
    }
  }

  /** Taking a free lock, giving it back and giving up keep one holder per taken lock. */
  lemma MoveExcludes(s: State, t: TaskId, phase: Phase, locked: bool)
    requires Exclusive(s) && t in s.tasks && s.tasks[t].entry < |s.entries|
    requires var was := s.tasks[t].phase;
      || (was == Waiting && phase == Running && !s.entries[s.tasks[t].entry].locked && locked)
      || (was == Running && phase == Leaving && !locked)
      || (was == Waiting && phase == Leaving && locked == s.entries[s.tasks[t].entry].locked)
    ensures Exclusive(Move(s, t, phase, locked))
  {
    var r := Move(s, t, phase, locked);
    forall e | 0 <= e < |r.entries|
      ensures |HoldersOf(r, e)| == if r.entries[e].locked then 1 else 0
    {
      if e != s.tasks[t].entry || phase == s.tasks[t].phase || (phase == Leaving && s.tasks[t].phase == Waiting) {
        assert HoldersOf(r, e) == HoldersOf(s, e);
      } else if phase == Running {
        assert HoldersOf(r, e) == HoldersOf(s, e) + {t};
      } else {
        assert t in HoldersOf(s, e);
        assert HoldersOf(r, e) == HoldersOf(s, e) - {t};
      }
    }
  }

  lemma MoveKeeps(s: State, t: TaskId, phase: Phase, locked: bool)
    requires Inv(s) && t in s.tasks && s.tasks[t].entry < |s.entries|
    requires Exclusive(Move(s, t, phase, locked))
    ensures Inv(Move(s, t, phase, locked))
  {
    MoveShares(s, t, phase, locked);
    MoveCounts(s, t, phase, locked);
  }

  lemma WaitingStepsKeep(s: State, t: TaskId)
    requires Inv(s)
    ensures Inv(TakeLock(s, t)) && Inv(GiveUp(s, t))
  {
    if InPhase(s, t, Waiting) {
      var locked := s.entries[s.tasks[t].entry].locked;
      MoveExcludes(s, t, Leaving, locked);
      MoveKeeps(s, t, Leaving, locked);
      if !locked {
        MoveExcludes(s, t, Running, true);
        MoveKeeps(s, t, Running, true);
      }
    }
  }

  lemma EndOperationKeeps(s: State, t: TaskId)
    requires Inv(s)
    ensures Inv(EndOperation(s, t))
  {
    if InPhase(s, t, Running) {
      MoveExcludes(s, t, Leaving, false);
      MoveKeeps(s, t, Leaving, false);
    }
  }

  lemma UsersWhenLeaving(s: State, t: TaskId, e: nat)
    requires Inv(s) && InPhase(s, t, Leaving)
    ensures UsersOf(Exit(s, t), e) == UsersOf(s, e) - {t}
  {
  }

  /** The last user leaves an unlocked lock, so the entry is removed exactly when no task refers to it. */
  lemma LastUserFindsItUnlocked(s: State, t: TaskId)
    requires Inv(s) && InPhase(s, t, Leaving) && s.entries[s.tasks[t].entry].users == 1
    ensures !s.entries[s.tasks[t].entry].locked
    ensures UsersOf(s, s.tasks[t].entry) == {t}
  {
    var e := s.tasks[t].entry;
    assert t in UsersOf(s, e);
    assert |UsersOf(s, e) - {t}| == 0;
    assert UsersOf(s, e) == {t};
    assert HoldersOf(s, e) <= UsersOf(s, e) && t !in HoldersOf(s, e);
    assert HoldersOf(s, e) == {};
  }

  lemma ExitCounts(s: State, t: TaskId)
    requires Inv(s) && InPhase(s, t, Leaving)
    ensures Counted(Exit(s, t))
  {
    var r := Exit(s, t);
    forall e | 0 <= e < |r.entries| ensures r.entries[e].users == |UsersOf(r, e)| {
      UsersWhenLeaving(s, t, e);
      assert t in UsersOf(s, e) <==> e == s.tasks[t].entry;
    }
    forall a | a in r.locks ensures UsersOf(r, r.locks[a]) != {} {
      UsersWhenLeaving(s, t, r.locks[a]);
      if r.locks[a] == s.tasks[t].entry {
        if s.entries[r.locks[a]].users == 1 {
          LastUserFindsItUnlocked(s, t);
        }
        assert r.entries[r.locks[a]].users == |UsersOf(r, r.locks[a])|;
      }
    }
  }

  lemma ExitShares(s: State, t: TaskId)
    requires Inv(s) && InPhase(s, t, Leaving)
    ensures Shared(Exit(s, t))
  {
    var r := Exit(s, t);
    forall u | u in r.tasks
      ensures r.tasks[u].sessionId in r.locks && r.tasks[u].entry == r.locks[r.tasks[u].sessionId]
    {
      assert u in s.tasks && s.tasks[u] == r.tasks[u] && u != t;
      if s.entries[s.tasks[t].entry].users == 1 {
        LastUserFindsItUnlocked(s, t);
        assert u !in UsersOf(s, s.tasks[t].entry);
      }
    }
  }

  lemma ExitExcludes(s: State, t: TaskId)
    requires Exclusive(s) && InPhase(s, t, Leaving)
    ensures Exclusive(Exit(s, t))
  {
    var r := Exit(s, t);
    forall e | 0 <= e < |r.entries|
      ensures |HoldersOf(r, e)| == if r.entries[e].locked then 1 else 0
    {
      assert HoldersOf(r, e) == HoldersOf(s, e);
    }
  }

  lemma ExitKeeps(s: State, t: TaskId)
    requires Inv(s)
    ensures Inv(Exit(s, t))
  {
    if InPhase(s, t, Leaving) {
      ExitShares(s, t);
      ExitCounts(s, t);
      ExitExcludes(s, t);
    }
  }

  lemma {:induction false} ExecKeeps(s: State, actions: seq<Action>)
    requires Inv(s)
    ensures Inv(Exec(s, actions))
    decreases actions
  {
    if actions != [] {
      match actions[0] {
        case Call(t, sid) => EnterKeeps(s, t, sid);
        case Acquire(t) => WaitingStepsKeep(s, t);
        case OperationEnds(t) => EndOperationKeeps(s, t);
        case CancelWaiting(t) => WaitingStepsKeep(s, t);
        case Leave(t) => ExitKeeps(s, t);
      }
      ExecKeeps(Apply(s, actions[0]), actions[1..]);
    }
  }

  /* ---- main results ---- */

  /** Over every run: at most one operation per session id runs, and all tasks in flight for a session
      share the lock the table holds for it. */
  lemma OneOperationPerSession(actions: seq<Action>, t: TaskId, u: TaskId)
    requires var s := Exec(IDLE, actions);
      t in s.tasks && u in s.tasks && s.tasks[t].sessionId == s.tasks[u].sessionId
    ensures var s := Exec(IDLE, actions);
      && s.tasks[t].sessionId in s.locks
      && s.tasks[t].entry == s.tasks[u].entry == s.locks[s.tasks[t].sessionId]
      && (s.tasks[t].phase == Running && s.tasks[u].phase == Running ==> t == u)
  {
    ExecKeeps(IDLE, actions);
    var s := Exec(IDLE, actions);
    if s.tasks[t].phase == Running && s.tasks[u].phase == Running {
      var e := s.tasks[t].entry;
      assert {t, u} <= HoldersOf(s, e);
      assert |HoldersOf(s, e) - {t}| == 0;
      assert u !in HoldersOf(s, e) - {t};
    }
  }

  /** Over every run: a session has an entry exactly when some task is in flight for it, the entry counts
      those tasks, and with no task in flight the table is empty. */
  lemma TableCountsTasksInFlight(actions: seq<Action>, sid: string)
    ensures var s := Exec(IDLE, actions);
      && (sid in s.locks <==> InFlight(s, sid) != {})
      && (sid in s.locks ==> s.locks[sid] < |s.entries| && s.entries[s.locks[sid]].users == |InFlight(s, sid)|)
      && (s.tasks == map[] ==> s.locks == map[])
  {
    var s := Exec(IDLE, actions);
    ExecKeeps(IDLE, actions);
    InFlightAreUsers(s, sid);
    if s.tasks == map[] {
      forall a ensures a !in s.locks {
        InFlightAreUsers(s, a);
        assert InFlight(s, a) == {};
      }
      assert s.locks.Keys == {};
    }
  }

  ghost function InFlight(s: State, sid: string): set<TaskId> {
    set t | t in s.tasks && s.tasks[t].sessionId == sid
  }

  lemma InFlightAreUsers(s: State, sid: string)
    requires Inv(s)
    ensures sid in s.locks <==> InFlight(s, sid) != {}
    ensures sid in s.locks ==> InFlight(s, sid) == UsersOf(s, s.locks[sid])
  {
    if sid in s.locks {
      assert InFlight(s, sid) == UsersOf(s, s.locks[sid]);
    }
  }

  /** Over every run: a waiting task is held up exactly by a running task of its own session, so
      unrelated sessions never wait for each other. */
  lemma WaitsOnlyForItsOwnSession(actions: seq<Action>, t: TaskId)
    requires InPhase(Exec(IDLE, actions), t, Waiting)
    ensures var s := Exec(IDLE, actions);
      InPhase(TakeLock(s, t), t, Running) <==>
      forall u :: u in s.tasks && s.tasks[u].sessionId == s.tasks[t].sessionId ==> s.tasks[u].phase != Running
  {
    ExecKeeps(IDLE, actions);
    var s := Exec(IDLE, actions);
    var holders := HoldersOf(s, s.tasks[t].entry);
    assert forall u :: u in holders <==>
      u in s.tasks && s.tasks[u].sessionId == s.tasks[t].sessionId && s.tasks[u].phase == Running;
    if holders != {} {
      var u :| u in holders;
    }
  }

  /* ---- what each step does ---- */

  /** A call for a session waits on the lock the table has for it, or on a new free one, and is counted. */
  lemma CallWaits(actions: seq<Action>, t: TaskId, sid: string)
    requires t !in Exec(IDLE, actions).tasks && sid != ""
    ensures var s := Exec(IDLE, actions);
      var r := Apply(s, Call(t, sid));
      && t in r.tasks && r.tasks[t].sessionId == sid && r.tasks[t].phase == Waiting && r.tasks == s.tasks[t := r.tasks[t]]
      && (if sid in s.locks then r.tasks[t].entry == s.locks[sid] && r.locks == s.locks
          else r.tasks[t].entry == |s.entries| && r.locks == s.locks[sid := |s.entries|])
  {
    ExecKeeps(IDLE, actions);
  }

  /** A free lock is taken, a finished operation frees it, and a task that left is gone. */
  lemma StepsMoveTheTask(actions: seq<Action>, t: TaskId)
    requires t in Exec(IDLE, actions).tasks
    ensures MovesTask(Exec(IDLE, actions), t)
  {
    ExecKeeps(IDLE, actions);
    SharedTasksMove(Exec(IDLE, actions), t);
  }

  predicate MovesTask(s: State, t: TaskId)
    requires t in s.tasks
  {
    var task := s.tasks[t];
    && task.entry < |s.entries|
    && (task.phase == Waiting && !s.entries[task.entry].locked ==>
      var r := Apply(s, Acquire(t));
      |r.entries| == |s.entries| && r.entries[task.entry].locked && r.tasks == s.tasks[t := task.(phase := Running)])
    && (task.phase == Running ==>
      var r := Apply(s, OperationEnds(t));
      |r.entries| == |s.entries| && !r.entries[task.entry].locked && r.tasks == s.tasks[t := task.(phase := Leaving)])
    && (task.phase == Waiting ==>
      var r := Apply(s, CancelWaiting(t));
      r.entries == s.entries && r.tasks == s.tasks[t := task.(phase := Leaving)])
    && (task.phase == Leaving ==> Apply(s, Leave(t)).tasks == s.tasks - {t})
  }

  lemma SharedTasksMove(s: State, t: TaskId)
    requires Shared(s) && t in s.tasks
    ensures MovesTask(s, t)
  {
  }

  /** A task alone with its session runs its operation and leaves the table as it found it. */
  lemma UndisturbedCallCompletes(t: TaskId, sid: string)
    requires sid != ""
    ensures InPhase(Exec(IDLE, [Call(t, sid), Acquire(t)]), t, Running)
    ensures Exec(IDLE, [Call(t, sid), Acquire(t), OperationEnds(t), Leave(t)]).locks == map[]
    ensures Exec(IDLE, [Call(t, sid), Acquire(t), OperationEnds(t), Leave(t)]).tasks == map[]
  {
    var s1 := Apply(IDLE, Call(t, sid));
    var s2 := Apply(s1, Acquire(t));
    var s3 := Apply(s2, OperationEnds(t));
    var s4 := Apply(s3, Leave(t));
    ExecOf(IDLE, Call(t, sid), [Acquire(t)]);
    ExecOf(s1, Acquire(t), []);
    ExecOf(IDLE, Call(t, sid), [Acquire(t), OperationEnds(t), Leave(t)]);
    ExecOf(s1, Acquire(t), [OperationEnds(t), Leave(t)]);
    ExecOf(s2, OperationEnds(t), [Leave(t)]);
    ExecOf(s3, Leave(t), []);
    assert s2.tasks == map[t := Task(sid, 0, Running)] && s2.locks == map[sid := 0] && s2.entries == [Entry(true, 1)];
    assert s4.locks == map[] && s4.tasks == map[];
  }

  lemma ExecOf(s: State, a: Action, rest: seq<Action>)
    ensures Exec(s, [a] + rest) == Exec(Apply(s, a), rest)
    ensures rest == [] ==> Exec(s, [a]) == Apply(s, a)
  {
    assert ([a] + rest)[1..] == rest;
    assert [a][1..] == [];
  }

  /* ---- the service itself ---- */

  class AgentSessionService {
    var locks: map<string, nat>
    var entries: seq<Entry>
    ghost var tasks: map<TaskId, Task>

    ghost function View(): State
      reads this
    {
      State(locks, entries, tasks)
    }

    constructor ()
      ensures View() == IDLE
    {
      locks, entries, tasks := map[], [], map[];
    }

    /** The lock object the task is to wait on, or nothing when the session id is refused. */
    method EnterSession(ghost t: TaskId, sid: string) returns (accepted: bool, entry: nat)
      requires t !in tasks && (sid in locks ==> locks[sid] < |entries|)
      modifies this
      ensures View() == Enter(old(View()), t, sid)
      ensures accepted <==> sid != ""
      ensures accepted ==> t in tasks && tasks[t] == Task(sid, entry, Waiting)
    {
      accepted, entry := sid != "", 0;
      if accepted {
        if sid in locks {
          entry := locks[sid];
          entries := entries[entry := entries[entry].(users := entries[entry].users + 1)];
        } else {
          entry := |entries|;
          entries, locks := entries + [Entry(false, 1)], locks[sid := entry];
        }
        tasks := tasks[t := Task(sid, entry, Waiting)];
      }
    }

    method TryLock(ghost t: TaskId, entry: nat) returns (taken: bool)
      requires InPhase(View(), t, Waiting) && entry == tasks[t].entry
      modifies this
      ensures View() == TakeLock(old(View()), t)
      ensures taken <==> InPhase(View(), t, Running)
    {
      taken := !entries[entry].locked;
      if taken {
        entries := entries[entry := entries[entry].(locked := true)];
        tasks := tasks[t := tasks[t].(phase := Running)];
      }
    }

    method Unlock(ghost t: TaskId, entry: nat)
      requires InPhase(View(), t, Running) && entry == tasks[t].entry
      modifies this
      ensures View() == EndOperation(old(View()), t)
    {
      entries := entries[entry := entries[entry].(locked := false)];
      tasks := tasks[t := tasks[t].(phase := Leaving)];
    }

    method LeaveSession(ghost t: TaskId, sid: string, entry: nat)
      requires InPhase(View(), t, Leaving) && tasks[t] == Task(sid, entry, Leaving)
      modifies this
      ensures View() == Exit(old(View()), t)
    {
      entries := entries[entry := entries[entry].(users := entries[entry].users - 1)];
      if entries[entry].users == 0 && !entries[entry].locked {
        locks := locks - {sid};
      }
      tasks := tasks - {t};
    }
  }
}
