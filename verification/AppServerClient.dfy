/** Lifecycle of the app-server client: startup, requests, failure and close racing each other.

    The lifecycle lock is never held across an await, so each locked section, and the code from a
    check to the write or the registration it guards, is one action. Awaited outcomes are
    parameters; an action that does not apply leaves the state as it is. */
module AppServerClient {
  import opened CodexModel

  datatype Lifecycle = New | Starting | Running | Closing | Closed

  function Rank(l: Lifecycle): nat {
    match l
    case New => 0
    case Starting => 1
    case Running => 2
    case Closing => 3
    case Closed => 4
  }

  /** How far the startup task has come. */
  datatype Startup = Absent | Spawning | Initializing(id: nat) | Confirming | Finished

  predicate StartupOver(s: Startup) {
    s.Absent? || s.Finished?
  }

  datatype Error = ClientClosed | Reported(text: string)

  datatype Future = Waiting | Answered(result: Json) | FailedWith(error: Error)

  /** `writes` records the lifecycle at each write to the process's stdin, `cleanups` the number of
      cleanup tasks ever created. */
  datatype State = State(
    lifecycle: Lifecycle,
    startup: Startup,
    hasProcess: bool,
    explicitClose: bool,
    terminalError: Option<Error>,
    closingError: Option<Error>,
    pending: map<nat, Future>,
    nextId: nat,
    cleanups: nat,
    writes: seq<Lifecycle>)

  const CREATED := State(New, Absent, false, false, None, None, map[], 1, 0, [])

  datatype Action =
    | Start
    | SpawnReturned(exited: bool)
    | StartupRaised(error: Error)
    | InitializeAnswered
    | HandshakeWritten
    | OpenRequest(exited: bool)
    | ReceiveResponse(id: nat, outcome: Future)
    | LeaveRequest(id: nat)
    | WriteStdin(byStartup: bool, exited: bool)
    | ReportError(error: Error)
    | Close
    | ReleaseProcess
    | MarkClosed

  /* ---- steps ---- */

  function FailPending(pending: map<nat, Future>, error: Error): map<nat, Future> {
    map id | id in pending :: if pending[id].Waiting? then FailedWith(error) else pending[id]
  }

  function EnsureCleanup(s: State): State {
    if s.cleanups == 0 then s.(cleanups := 1) else s
  }

  function RecordTerminalError(s: State, error: Error): State {
    if s.explicitClose || s.lifecycle == Closed then s
    else
      var t := if s.terminalError.None?
               then s.(terminalError := Some(error), closingError := Some(error),
                       pending := FailPending(s.pending, error))
               else s;
      EnsureCleanup(t.(lifecycle := Closing))
  }

  function CloseClient(s: State): State {
    if s.lifecycle == Closed then s
    else
      var error := if s.closingError.Some? then s.closingError.value else ClientClosed;
      EnsureCleanup(s.(explicitClose := true, lifecycle := Closing, closingError := Some(error),
                       pending := FailPending(s.pending, error)))
  }

  function StartClient(s: State): State {
    if s.lifecycle in {Lifecycle.Running, Closing, Closed} || !s.startup.Absent? then s
    else s.(lifecycle := Lifecycle.Starting, startup := Spawning)
  }

  /** The handler at the end of the startup task. */
  function FailStartup(s: State, error: Error): State {
    var pending := if s.startup.Initializing? then s.pending - {s.startup.id} else s.pending;
    var t := s.(startup := Finished, pending := pending);
    if s.explicitClose then t else RecordTerminalError(t, error)
  }

  const CLOSED_ERROR := Reported("Codex app-server client is closed")
  const EXITED_ERROR := Reported("Codex app-server process exited")

  /** `_ensure_available`, then registration under a fresh id; `None` when it raises. */
  predicate Available(s: State, byStartup: bool) {
    s.hasProcess && (s.lifecycle == Lifecycle.Running || (s.lifecycle == Lifecycle.Starting && byStartup))
  }

  function Register(s: State): State {
    s.(pending := s.pending[s.nextId := Waiting], nextId := s.nextId + 1)
  }

  function AfterSpawn(s: State, exited: bool): State {
    if !s.startup.Spawning? then s
    else
      var t := s.(hasProcess := true);
      if t.lifecycle == Closing then FailStartup(t, CLOSED_ERROR)
      else if !Available(t, true) then FailStartup(t, CLOSED_ERROR)
      else if exited then FailStartup(RecordTerminalError(t, EXITED_ERROR), EXITED_ERROR)
      else Register(t).(startup := Initializing(t.nextId))
  }

  function AfterInitialize(s: State): State {
    if !s.startup.Initializing? || s.startup.id !in s.pending || s.pending[s.startup.id].Waiting? then s
    else
      match s.pending[s.startup.id]
      case FailedWith(error) => FailStartup(s, error)
      case Answered(_) =>
        if s.lifecycle == Closing then FailStartup(s, CLOSED_ERROR)
        else s.(pending := s.pending - {s.startup.id}, startup := Confirming)
  }

  function AfterHandshake(s: State): State {
    if !s.startup.Confirming? then s
    else if s.lifecycle == Closing then FailStartup(s, CLOSED_ERROR)
    else s.(lifecycle := Lifecycle.Running, startup := Finished)
  }

  function Open(s: State, exited: bool): State {
    if !Available(s, false) then s
    else if exited then RecordTerminalError(s, EXITED_ERROR)
    else Register(s)
  }

  function SettleFuture(s: State, id: nat, outcome: Future): State {
    if id in s.pending && s.pending[id].Waiting? && !outcome.Waiting?
    then s.(pending := s.pending[id := outcome]) else s
  }

  function Leave(s: State, id: nat): State {
    if s.startup.Initializing? && s.startup.id == id then s else s.(pending := s.pending - {id})
  }

  function Write(s: State, byStartup: bool, exited: bool): State {
    if Available(s, byStartup && !StartupOver(s.startup)) && !exited
    then s.(writes := s.writes + [s.lifecycle]) else s
  }

  /** The cleanup task waits for a startup that has no process yet. */
  function Release(s: State): State {
    if s.cleanups > 0 && (s.hasProcess || StartupOver(s.startup)) then s.(hasProcess := false) else s
  }

  /** ... and for any startup before it marks the client closed. */
  function Finish(s: State): State {
    if s.cleanups > 0 && StartupOver(s.startup) && !s.hasProcess then s.(lifecycle := Closed) else s
  }

  function Apply(s: State, a: Action): State {
    match a
    case Start => StartClient(s)
    case SpawnReturned(exited) => AfterSpawn(s, exited)
    case StartupRaised(error) => if StartupOver(s.startup) then s else FailStartup(s, error)
    case InitializeAnswered => AfterInitialize(s)
    case HandshakeWritten => AfterHandshake(s)
    case OpenRequest(exited) => Open(s, exited)
    case ReceiveResponse(id, outcome) => SettleFuture(s, id, outcome)
    case LeaveRequest(id) => Leave(s, id)
    case WriteStdin(byStartup, exited) => Write(s, byStartup, exited)
    case ReportError(error) => RecordTerminalError(s, error)
    case Close => CloseClient(s)
    case ReleaseProcess => Release(s)
    case MarkClosed => Finish(s)
  }

  function Exec(s: State, actions: seq<Action>): State
    decreases actions
  {
    if actions == [] then s else Exec(Apply(s, actions[0]), actions[1..])
  }

  /* ---- what every reachable state satisfies ---- */

  predicate IsClosing(s: State) {
    Rank(s.lifecycle) >= Rank(Closing)
  }

  ghost predicate AllSettled(s: State) {
    forall id :: id in s.pending ==> !s.pending[id].Waiting?
  }

  ghost predicate Inv(s: State) {
    && (IsClosing(s) ==> AllSettled(s) && s.cleanups == 1 && s.closingError.Some?)
    && (!IsClosing(s) ==> s.cleanups == 0 && s.closingError.None? && s.terminalError.None? && !s.explicitClose)
    && (s.terminalError.Some? ==> s.closingError == s.terminalError)
    && (IsClosing(s) && !s.explicitClose ==> s.terminalError.Some?)
    && (s.lifecycle == New ==> s.startup.Absent?)
    && (s.lifecycle == Lifecycle.Starting ==> !StartupOver(s.startup))
    && (s.lifecycle == Lifecycle.Running ==> s.startup.Finished?)
    && (s.lifecycle == Closed ==> StartupOver(s.startup))
    && (forall id :: id in s.pending ==> id < s.nextId)
    && (forall k :: 0 <= k < |s.writes| ==> s.writes[k] in {Lifecycle.Starting, Lifecycle.Running})
  }

  /** What a step may do. */
  ghost predicate Forward(s: State, t: State) {
    && Rank(s.lifecycle) <= Rank(t.lifecycle)
    && (s.terminalError.Some? ==> t.terminalError == s.terminalError)
    && (s.closingError.Some? ==> t.closingError == s.closingError)
    && s.writes <= t.writes && (IsClosing(s) ==> t.writes == s.writes)
    && s.nextId <= t.nextId && (IsClosing(s) ==> t.nextId == s.nextId)
    && (forall id :: id in t.pending && id < s.nextId ==> id in s.pending)
    && (forall id :: id in s.pending && id in t.pending && !s.pending[id].Waiting? ==>
      t.pending[id] == s.pending[id])
  }

  lemma RecordKeeps(s: State, error: Error)
    requires Inv(s)
    ensures Inv(RecordTerminalError(s, error)) && Forward(s, RecordTerminalError(s, error))
  {
  }

  lemma FailStartupKeeps(s: State, error: Error)
    requires Inv(s) && !StartupOver(s.startup)
    ensures Inv(FailStartup(s, error)) && Forward(s, FailStartup(s, error))
  {
  }

  lemma CloseKeeps(s: State)
    requires Inv(s)
    ensures Inv(CloseClient(s)) && Forward(s, CloseClient(s))
  {
  }

  lemma ForwardTransitively(s: State, t: State, u: State)
    requires Inv(s) && Forward(s, t) && Forward(t, u)
    ensures Forward(s, u)
  {
    forall id | id in s.pending && id in u.pending && !s.pending[id].Waiting?
      ensures u.pending[id] == s.pending[id]
    {
      assert id < s.nextId <= t.nextId;
      assert id in t.pending;
    }
  }

  lemma AfterSpawnKeeps(s: State, exited: bool)
    requires Inv(s)
    ensures Inv(AfterSpawn(s, exited)) && Forward(s, AfterSpawn(s, exited))
  {
    if s.startup.Spawning? {
      var t := s.(hasProcess := true);
      assert Inv(t) && Forward(s, t);
      FailStartupKeeps(t, CLOSED_ERROR);
      ForwardTransitively(s, t, FailStartup(t, CLOSED_ERROR));
      RecordKeeps(t, EXITED_ERROR);
      var u := RecordTerminalError(t, EXITED_ERROR);
      FailStartupKeeps(u, EXITED_ERROR);
      ForwardTransitively(t, u, FailStartup(u, EXITED_ERROR));
      ForwardTransitively(s, t, FailStartup(u, EXITED_ERROR));
    }
  }

  lemma AfterInitializeKeeps(s: State)
    requires Inv(s)
    ensures Inv(AfterInitialize(s)) && Forward(s, AfterInitialize(s))
  {
    if s.startup.Initializing? && s.startup.id in s.pending {
      FailStartupKeeps(s, CLOSED_ERROR);
      if s.pending[s.startup.id].FailedWith? {
        FailStartupKeeps(s, s.pending[s.startup.id].error);
      }
    }
  }

  lemma RequestStepsKeep(s: State, id: nat, outcome: Future, byStartup: bool, exited: bool)
    requires Inv(s)
    ensures Inv(Leave(s, id)) && Forward(s, Leave(s, id))
    ensures Inv(SettleFuture(s, id, outcome)) && Forward(s, SettleFuture(s, id, outcome))
    ensures Inv(Write(s, byStartup, exited)) && Forward(s, Write(s, byStartup, exited))
  {
  }

  lemma OpenKeeps(s: State, exited: bool)
    requires Inv(s)
    ensures Inv(Open(s, exited)) && Forward(s, Open(s, exited))
  {
    RecordKeeps(s, EXITED_ERROR);
  }

  lemma StartAndHandshakeKeep(s: State)
    requires Inv(s)
    ensures Inv(StartClient(s)) && Forward(s, StartClient(s))
    ensures Inv(AfterHandshake(s)) && Forward(s, AfterHandshake(s))
  {
    if !StartupOver(s.startup) {
      FailStartupKeeps(s, CLOSED_ERROR);
    }
  }

  lemma CleanupKeeps(s: State)
    requires Inv(s)
    ensures Inv(Release(s)) && Forward(s, Release(s))
    ensures Inv(Finish(s)) && Forward(s, Finish(s))
  {
  }

  /** Every step keeps the invariant and only moves forward. */
  lemma ApplyKeeps(s: State, a: Action)
    requires Inv(s)
    ensures Inv(Apply(s, a)) && Forward(s, Apply(s, a))
  {
    match a
    case Start => StartAndHandshakeKeep(s);
    case SpawnReturned(exited) => AfterSpawnKeeps(s, exited);
    case StartupRaised(error) =>
      if !StartupOver(s.startup) {
        FailStartupKeeps(s, error);
      }
    case InitializeAnswered => AfterInitializeKeeps(s);
    case HandshakeWritten => StartAndHandshakeKeep(s);
    case OpenRequest(exited) => OpenKeeps(s, exited);
    case ReceiveResponse(id, outcome) => RequestStepsKeep(s, id, outcome, false, false);
    case LeaveRequest(id) => RequestStepsKeep(s, id, Waiting, false, false);
    case WriteStdin(byStartup, exited) => RequestStepsKeep(s, 0, Waiting, byStartup, exited);
    case ReportError(error) => RecordKeeps(s, error);
    case Close => CloseKeeps(s);
    case ReleaseProcess => CleanupKeeps(s);
    case MarkClosed => CleanupKeeps(s);
  }

  /* ---- main results ---- */

  lemma {:induction false} ExecKeeps(s: State, actions: seq<Action>)
    requires Inv(s)
    ensures Inv(Exec(s, actions)) && Forward(s, Exec(s, actions))
    decreases actions
  {
    if actions != [] {
      ApplyKeeps(s, actions[0]);
      ExecKeeps(Apply(s, actions[0]), actions[1..]);
      ForwardTransitively(s, Apply(s, actions[0]), Exec(s, actions));
    }
  }

  lemma {:induction false} ExecAppends(s: State, a: seq<Action>, b: seq<Action>)
    ensures Exec(s, a + b) == Exec(Exec(s, a), b)
    decreases a
  {
    if a == [] {
      assert a + b == b;
    } else {
      assert (a + b)[0] == a[0] && (a + b)[1..] == a[1..] + b;
      ExecAppends(Apply(s, a[0]), a[1..], b);
    }
  }

  /** Over every run the lifecycle never moves back, and the first terminal error, the closing error
      and the outcome of a settled request are kept. */
  lemma LifecycleMovesForward(before: seq<Action>, after: seq<Action>)
    ensures var s, t := Exec(CREATED, before), Exec(CREATED, before + after);
      && Rank(s.lifecycle) <= Rank(t.lifecycle)
      && (s.terminalError.Some? ==> t.terminalError == s.terminalError)
      && (s.closingError.Some? ==> t.closingError == s.closingError)
      && (forall id :: id in s.pending && id in t.pending && !s.pending[id].Waiting? ==>
        t.pending[id] == s.pending[id])
  {
    ExecKeeps(CREATED, before);
    ExecAppends(CREATED, before, after);
    ExecKeeps(Exec(CREATED, before), after);
  }

  /** Once closing has begun: every pending request is settled, one cleanup task exists, nothing is
      written to stdin any more, no request is registered, and the client never runs again. */
  lemma ClosingIsQuiet(before: seq<Action>, after: seq<Action>)
    requires IsClosing(Exec(CREATED, before))
    ensures var s, t := Exec(CREATED, before), Exec(CREATED, before + after);
      && IsClosing(t) && AllSettled(s) && AllSettled(t) && t.cleanups == 1
      && t.writes == s.writes && t.nextId == s.nextId
  {
    ExecKeeps(CREATED, before);
    ExecAppends(CREATED, before, after);
    ExecKeeps(Exec(CREATED, before), after);
  }

  /** Over every run, stdin is written only while starting or running, and the client is closed only
      after its startup has ended. */
  lemma WritesOnlyWhileOpen(actions: seq<Action>)
    ensures var s := Exec(CREATED, actions);
      && (forall k :: 0 <= k < |s.writes| ==> s.writes[k] in {Lifecycle.Starting, Lifecycle.Running})
      && (s.lifecycle == Closed ==> StartupOver(s.startup))
  {
    ExecKeeps(CREATED, actions);
  }

  /* ---- what each step does ---- */

  /** A response settles the waiting request of its id with its own outcome, and nothing else. */
  lemma ResponseSettlesItsRequest(s: State, id: nat, outcome: Future)
    requires !outcome.Waiting?
    ensures Apply(s, ReceiveResponse(id, outcome)) ==
      if id in s.pending && s.pending[id].Waiting? then s.(pending := s.pending[id := outcome]) else s
  {
  }

  /** A request on a running client waits under an id that no request before it had. */
  lemma OpenedRequestWaits(actions: seq<Action>)
    ensures var s := Exec(CREATED, actions);
      && s.nextId !in s.pending
      && (s.lifecycle == Lifecycle.Running && s.hasProcess ==>
        Apply(s, OpenRequest(false)) == s.(pending := s.pending[s.nextId := Waiting], nextId := s.nextId + 1))
      && (s.lifecycle != Lifecycle.Running ==> Apply(s, OpenRequest(false)) == s)
  {
    ExecKeeps(CREATED, actions);
  }

  /** Every waiting request fails with `error`, every settled one keeps its outcome. */
  ghost predicate FailsWith(before: map<nat, Future>, after: map<nat, Future>, error: Error) {
    && after.Keys == before.Keys
    && forall id :: id in before ==> after[id] == if before[id].Waiting? then FailedWith(error) else before[id]
  }

  /** The first error of an open client is recorded, closes it, and fails what is waiting. */
  lemma FirstErrorIsRecorded(actions: seq<Action>, error: Error)
    requires Rank(Exec(CREATED, actions).lifecycle) < Rank(Closing)
    ensures var s, t := Exec(CREATED, actions), Apply(Exec(CREATED, actions), ReportError(error));
      && t.lifecycle == Closing && t.terminalError == t.closingError == Some(error) && t.cleanups == 1
      && FailsWith(s.pending, t.pending, error) && t.startup == s.startup && t.hasProcess == s.hasProcess
  {
    ExecKeeps(CREATED, actions);
  }

  /** A process that is found dead when it should be asked to initialize fails the startup with that error. */
  lemma ExitedProcessFailsStartup(actions: seq<Action>)
    requires var s := Exec(CREATED, actions); s.startup.Spawning? && s.lifecycle == Lifecycle.Starting
    ensures var t := Apply(Exec(CREATED, actions), SpawnReturned(true));
      && t.startup == Finished && t.lifecycle == Closing
      && t.terminalError == t.closingError == Some(Reported("Codex app-server process exited"))
  {
    ExecKeeps(CREATED, actions);
  }

  /** A startup that raises is over; its error is recorded unless the client was closed on purpose. */
  lemma RaisedStartupIsRecorded(actions: seq<Action>, error: Error)
    requires !StartupOver(Exec(CREATED, actions).startup)
    ensures var s, t := Exec(CREATED, actions), Apply(Exec(CREATED, actions), StartupRaised(error));
      && t.startup == Finished && t.lifecycle == Closing
      && (s.lifecycle == Lifecycle.Starting ==> t.terminalError == Some(error))
      && (s.explicitClose ==> t.terminalError == s.terminalError)
  {
    ExecKeeps(CREATED, actions);
  }

  /** Closing fails what is waiting with the error that closed the client before, or else says it was closed. */
  lemma CloseFailsRequests(s: State)
    requires s.lifecycle != Closed
    ensures var t := Apply(s, Close);
      && t.lifecycle == Closing && t.explicitClose && t.terminalError == s.terminalError
      && t.closingError == Some(if s.closingError.Some? then s.closingError.value else ClientClosed)
      && FailsWith(s.pending, t.pending, t.closingError.value) && t.cleanups > 0
  {
  }

  /** A startup that nothing disturbs opens the process, asks to initialize and gets the client running. */
  lemma UndisturbedStartupRuns(result: Json)
    ensures var run := [Start, SpawnReturned(false), WriteStdin(true, false), ReceiveResponse(1, Answered(result)),
                        InitializeAnswered, WriteStdin(true, false), HandshakeWritten];
      Exec(CREATED, run) == RunningState()
  {
    var write, answer := WriteStdin(true, false), ReceiveResponse(1, Answered(result));
    StartupSpawns();
    StartupInitializes(result);
    StartupConfirms();
    ExecAppends(SpawnedState(), [write, answer, InitializeAnswered], [write, HandshakeWritten]);
    ExecAppends(CREATED, [Start, SpawnReturned(false)], [write, answer, InitializeAnswered] + [write, HandshakeWritten]);
    assert [Start, SpawnReturned(false), write, answer, InitializeAnswered, write, HandshakeWritten]
        == [Start, SpawnReturned(false)] + ([write, answer, InitializeAnswered] + [write, HandshakeWritten]);
  }

  /** The process is up and was asked to initialize. */
  function SpawnedState(): State {
    State(Lifecycle.Starting, Initializing(1), true, false, None, None, map[1 := Waiting], 2, 0, [])
  }

  /** It has answered, and is about to be told that this was read. */
  function InitializedState(): State {
    State(Lifecycle.Starting, Confirming, true, false, None, None, map[], 2, 0, [Lifecycle.Starting])
  }

  function RunningState(): State {
    State(Lifecycle.Running, Finished, true, false, None, None, map[], 2, 0, [Lifecycle.Starting, Lifecycle.Starting])
  }

  lemma StartupSpawns()
    ensures Exec(CREATED, [Start, SpawnReturned(false)]) == SpawnedState()
  {
    var s1 := CREATED.(lifecycle := Lifecycle.Starting, startup := Spawning);
    assert Apply(CREATED, Start) == s1 && Apply(s1, SpawnReturned(false)) == SpawnedState();
    FirstThenRest(s1, SpawnReturned(false), []);
    FirstThenRest(CREATED, Start, [SpawnReturned(false)]);
  }

  lemma StartupInitializes(result: Json)
    ensures Exec(SpawnedState(), [WriteStdin(true, false), ReceiveResponse(1, Answered(result)), InitializeAnswered])
         == InitializedState()
  {
    var s := SpawnedState();
    var s3 := s.(writes := [Lifecycle.Starting]);
    var s4 := s3.(pending := map[1 := Answered(result)]);
    assert Apply(s, WriteStdin(true, false)) == s3 && Apply(s3, ReceiveResponse(1, Answered(result))) == s4;
    assert Apply(s4, InitializeAnswered) == InitializedState();
    FirstThenRest(s4, InitializeAnswered, []);
    FirstThenRest(s3, ReceiveResponse(1, Answered(result)), [InitializeAnswered]);
    FirstThenRest(s, WriteStdin(true, false), [ReceiveResponse(1, Answered(result)), InitializeAnswered]);
  }

  lemma StartupConfirms()
    ensures Exec(InitializedState(), [WriteStdin(true, false), HandshakeWritten]) == RunningState()
  {
    var s6 := InitializedState().(writes := [Lifecycle.Starting, Lifecycle.Starting]);
    assert Apply(InitializedState(), WriteStdin(true, false)) == s6 && Apply(s6, HandshakeWritten) == RunningState();
    FirstThenRest(s6, HandshakeWritten, []);
    FirstThenRest(InitializedState(), WriteStdin(true, false), [HandshakeWritten]);
  }

  lemma FirstThenRest(s: State, a: Action, rest: seq<Action>)
    ensures Exec(s, [a] + rest) == Exec(Apply(s, a), rest)
    ensures rest == [] ==> Exec(s, [a]) == Apply(s, a)
  {
    assert ([a] + rest)[1..] == rest && [a][1..] == [];
  }

  /** A closing client whose startup is over is brought to its end by the cleanup. */
  lemma CleanupReachesTheEnd(actions: seq<Action>)
    requires var s := Exec(CREATED, actions); s.lifecycle == Closing && StartupOver(s.startup)
    ensures var t := Apply(Apply(Exec(CREATED, actions), ReleaseProcess), MarkClosed); t.lifecycle == Closed && !t.hasProcess
  {
    ExecKeeps(CREATED, actions);
  }

  /* ---- the client itself ---- */

  class Client {
    var lifecycle: Lifecycle
    var hasProcess: bool
    var explicitClose: bool
    var terminalError: Option<Error>
    var closingError: Option<Error>
    var pending: map<nat, Future>
    var nextId: nat
    var cleanups: nat
    var startup: Startup
    ghost var writes: seq<Lifecycle>

    ghost function View(): State
      reads this
    {
      State(lifecycle, startup, hasProcess, explicitClose, terminalError, closingError, pending, nextId, cleanups, writes)
    }

    constructor ()
      ensures View() == CREATED
    {
      lifecycle, startup, hasProcess, explicitClose := New, Absent, false, false;
      terminalError, closingError, pending, nextId, cleanups, writes := None, None, map[], 1, 0, [];
    }

    method FailAll(error: Error)
      modifies this`pending
      ensures pending == FailPending(old(pending), error)
    {
      var ids := pending.Keys;
      while ids != {}
        invariant ids <= pending.Keys == old(pending).Keys
        invariant forall id :: id in pending && id !in ids ==> pending[id] == FailPending(old(pending), error)[id]
        invariant forall id :: id in ids ==> pending[id] == old(pending)[id]
      {
        var id :| id in ids;
        if pending[id].Waiting? {
          pending := pending[id := FailedWith(error)];
        }
        ids := ids - {id};
      }
    }

    method EnsureCleanupTask()
      modifies this`cleanups
      ensures cleanups == if old(cleanups) == 0 then 1 else old(cleanups)
    {
      if cleanups == 0 {
        cleanups := 1;
      }
    }

    method Begin() returns (starts: bool)
      modifies this
      ensures View() == StartClient(old(View()))
      ensures starts <==> old(startup).Absent? && old(lifecycle) in {New, Lifecycle.Starting}
    {
      starts := false;
      if lifecycle == Lifecycle.Running || lifecycle == Closing || lifecycle == Closed {
        return;
      }
      if startup.Absent? {
        lifecycle, startup, starts := Lifecycle.Starting, Spawning, true;
      }
    }

    method Record(error: Error)
      modifies this
      ensures View() == RecordTerminalError(old(View()), error)
    {
      if explicitClose || lifecycle == Closed {
        return;
      }
      if terminalError.None? {
        terminalError, closingError := Some(error), Some(error);
        FailAll(error);
      }
      lifecycle := Closing;
      EnsureCleanupTask();
    }

    method Shut()
      modifies this
      ensures View() == CloseClient(old(View()))
    {
      if lifecycle == Closed {
        return;
      }
      explicitClose, lifecycle := true, Closing;
      if closingError.None? {
        closingError := Some(ClientClosed);
      }
      FailAll(closingError.value);
      EnsureCleanupTask();
    }

    method OpenRequest(exited: bool) returns (id: Option<nat>)
      modifies this
      ensures View() == Open(old(View()), exited)
      ensures id.Some? ==> id.value in pending && id.value == old(nextId)
      ensures id.None? ==> nextId == old(nextId)
    {
      id := None;
      if lifecycle == Closed || lifecycle == Closing || lifecycle == New || lifecycle == Lifecycle.Starting || !hasProcess {
        return;
      }
      if exited {
        Record(EXITED_ERROR);
        return;
      }
      id := Some(nextId);
      pending, nextId := pending[nextId := Waiting], nextId + 1;
    }

    method HandleResponse(id: nat, outcome: Future)
      requires !outcome.Waiting?
      modifies this`pending
      ensures View() == SettleFuture(old(View()), id, outcome)
    {
      if id in pending && pending[id].Waiting? {
        pending := pending[id := outcome];
      }
    }

    /** The request's `finally` clause. */
    method LeaveRequest(id: nat)
      requires !(startup.Initializing? && startup.id == id)
      modifies this`pending
      ensures View() == Leave(old(View()), id)
    {
      pending := pending - {id};
    }

    method StartupFails(error: Error)
      requires !StartupOver(startup)
      modifies this
      ensures View() == FailStartup(old(View()), error)
    {
      if startup.Initializing? {
        pending := pending - {startup.id};
      }
      startup := Finished;
      if !explicitClose {
        Record(error);
      }
    }

    method ProcessSpawned(exited: bool)
      requires startup.Spawning?
      modifies this
      ensures View() == AfterSpawn(old(View()), exited)
    {
      hasProcess := true;
      if lifecycle != Lifecycle.Starting && lifecycle != Lifecycle.Running {
        StartupFails(CLOSED_ERROR);
        return;
      }
      if exited {
        Record(EXITED_ERROR);
        StartupFails(EXITED_ERROR);
        return;
      }
      startup := Initializing(nextId);
      pending, nextId := pending[nextId := Waiting], nextId + 1;
    }

    method InitializeDone()
      requires startup.Initializing? && startup.id in pending && !pending[startup.id].Waiting?
      modifies this
      ensures View() == AfterInitialize(old(View()))
    {
      match pending[startup.id]
      case FailedWith(error) => StartupFails(error);
      case Answered(_) =>
        if lifecycle == Closing {
          StartupFails(CLOSED_ERROR);
        } else {
          pending := pending - {startup.id};
          startup := Confirming;
        }
    }

    method HandshakeDone() returns (running: bool)
      requires startup.Confirming?
      modifies this
      ensures View() == AfterHandshake(old(View()))
      ensures running ==> lifecycle == Lifecycle.Running
    {
      running := false;
      if lifecycle == Closing {
        StartupFails(CLOSED_ERROR);
        return;
      }
      lifecycle, startup, running := Lifecycle.Running, Finished, true;
    }

    method WriteMessage(byStartup: bool, exited: bool) returns (written: bool)
      requires byStartup ==> !StartupOver(startup)
      modifies this
      ensures View() == Write(old(View()), byStartup, exited)
      ensures written ==> old(lifecycle) in {Lifecycle.Starting, Lifecycle.Running}
    {
      written := false;
      if lifecycle == Closing || lifecycle == Closed || lifecycle == New || !hasProcess {
        return;
      }
      if lifecycle == Lifecycle.Starting && !byStartup {
        return;
      }
      if exited {
        return;
      }
      writes := writes + [lifecycle];
      written := true;
    }

    /** The cleanup task once nothing it waits for is left. */
    method CleanUp()
      requires cleanups > 0 && StartupOver(startup)
      modifies this
      ensures View() == Finish(Release(old(View())))
      ensures lifecycle == Closed && !hasProcess
    {
      hasProcess := false;
      lifecycle := Closed;
    }
  }
}
