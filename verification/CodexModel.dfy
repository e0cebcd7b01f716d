/** Entities of the Codex side of the bot: sessions, interactions, notification rows and
    the parsed JSON values that travel between the app-server, the terminal and Lark. */
module CodexModel {

  datatype Option<+T> = None | Some(value: T)

  /** `Raised` stands for the exception with which an operation refuses its input. */
  datatype Result<+T> = Ok(value: T) | Raised

  /** Microseconds since a fixed epoch, in UTC. */
  type Time = int

  const SUMMARY_LIMIT := 2000

  function SafeSummary(text: string): (r: string)
    ensures |r| <= SUMMARY_LIMIT && r <= text
    ensures |r| == |text| || |r| == SUMMARY_LIMIT
  {
    if |text| <= SUMMARY_LIMIT then text else text[..SUMMARY_LIMIT]
  }

  /** A parsed JSON value; numbers are integers, the only ones the code inspects. */
  datatype Json =
    | JNull
    | JBool(b: bool)
    | JNumber(n: int)
    | JString(s: string)
    | JArray(items: seq<Json>)
    | JObject(fields: map<string, Json>)
  {
    /** `dict.get(key)`: a missing key reads as null. */
    function Get(key: string): Json
      requires JObject?
    {
      if key in fields then fields[key] else JNull
    }
  }

  datatype SessionStatus =
    | Starting | Running | WaitingForApproval | WaitingForInput
    | Succeeded | Failed | Interrupted | Cancelled

  predicate IsActive(s: SessionStatus) {
    s.Starting? || s.Running? || s.WaitingForApproval? || s.WaitingForInput?
  }

  datatype InteractionStatus = Pending | Resolved | Expired | Cancelled

  datatype InteractionKind = ExecApproval | FileChangeApproval | PermissionRequest | UserInput

  datatype Decision = Approved | Denied | Accept | Decline | Granted | Submitted

  datatype Session = Session(
    threadId: Option<string>,
    turnId: Option<string>,
    name: string,
    cwd: string,
    model: Option<string>,
    sandbox: string,
    status: SessionStatus,
    summary: string,
    createdAt: Time,
    updatedAt: Time)

  datatype Interaction = Interaction(
    sessionId: string,
    requestId: string,
    kind: InteractionKind,
    status: InteractionStatus,
    larkMessageId: Option<string>,
    payloadSummary: string,
    requestedAt: Time,
    resolvedAt: Option<Time>,
    expiresAt: Time,
    actorId: Option<string>,
    decision: Option<Decision>)

  datatype EventType =
    | SessionStarted | InteractionRequested | InteractionResolved
    | SessionCompleted | SessionInterrupted | TurnCompleted | TurnInterrupted

  /** The two events that announce the end of a session. */
  predicate EndsSession(e: EventType) {
    e.SessionCompleted? || e.SessionInterrupted?
  }

  /** Rows of the outbox come from the orchestrator or from elsewhere in the daemon. */
  datatype Notice = Orchestrator(event: EventType, sessionId: string) | External(tag: string)

  datatype OutboxItem = OutboxItem(
    notice: Notice,
    sessionName: Option<string>,
    interactionId: Option<string>,
    payloadSummary: string,
    attemptCount: nat,
    nextAttemptAt: Time,
    sentAt: Option<Time>,
    lastError: Option<string>,
    createdAt: Time)
}
