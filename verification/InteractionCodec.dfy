/** Building the answer to an app-server request from a Lark decision, and reading a decision
    back from an answer that was typed in the terminal. */
module InteractionCodec {
  import opened CodexModel

  /* ---- payload builders ---- */

  function ApprovalResponse(allow: bool): Json {
    JObject(map["decision" := JString(if allow then "accept" else "decline")])
  }

  /** The `permissions` field, an empty object when the request does not carry one. */
  function RequestedPermissions(params: map<string, Json>): Json {
    if "permissions" in params then params["permissions"] else JObject(map[])
  }

  function PermissionResponse(params: map<string, Json>, allow: bool): Result<Json> {
    var requested := RequestedPermissions(params);
    if !requested.JObject? then Raised
    else Ok(JObject(map[
      "permissions" := if allow then requested else JObject(map[]),
      "scope" := JString("turn"),
      "strictAutoReview" := JBool(false)]))
  }

  predicate HasId(question: Json) {
    question.JObject? && question.Get("id").JString? && question.Get("id").s != ""
  }

  function QuestionId(question: Json): string
    requires HasId(question)
  {
    question.Get("id").s
  }

  predicate HaveDistinctIds(questions: seq<Json>) {
    && (forall i :: 0 <= i < |questions| ==> HasId(questions[i]))
    && (forall i, j :: 0 <= i < j < |questions| ==>
      QuestionId(questions[i]) != QuestionId(questions[j]))
  }

  function IdsOf(questions: seq<Json>): set<string>
    requires forall i :: 0 <= i < |questions| ==> HasId(questions[i])
  {
    set i | 0 <= i < |questions| :: QuestionId(questions[i])
  }

  function AnswerEntry(text: string): Json {
    JObject(map["answers" := JArray([JString(text)])])
  }

  function UserInputPayload(answers: map<string, string>): Json {
    JObject(map["answers" := JObject(map q | q in answers :: AnswerEntry(answers[q]))])
  }

  /** A user-input answer is built exactly when the questions have distinct non-empty ids and
      the answers cover those ids and no others. */
  function UserInputAnswered(questions: seq<Json>, answers: map<string, string>): Result<Json> {
    if HaveDistinctIds(questions) && answers.Keys == IdsOf(questions)
    then Ok(UserInputPayload(answers)) else Raised
  }

  method UserInputResponse(questions: seq<Json>, answers: map<string, string>) returns (r: Result<Json>)
    ensures r == UserInputAnswered(questions, answers)
  {
    var questionIds: seq<string> := [];
    for k := 0 to |questions|
      invariant HaveDistinctIds(questions[..k]) && |questionIds| == k
      invariant forall i :: 0 <= i < k ==> questionIds[i] == QuestionId(questions[i])
    {
      if !HasId(questions[k]) {
        return Raised;
      }
      var questionId := QuestionId(questions[k]);
      if questionId in questionIds {
        return Raised;
      }
      questionIds := questionIds + [questionId];
    }
    assert questions[..|questions|] == questions;
    var expected := set q | q in questionIds;
    assert expected == IdsOf(questions) by {
      forall q | q in IdsOf(questions) ensures q in expected {
        var i :| 0 <= i < |questions| && QuestionId(questions[i]) == q;
        assert questionIds[i] == q;
      }
    }
    if expected - answers.Keys != {} || answers.Keys - expected != {} {
      return Raised;
    }
    r := Ok(UserInputPayload(answers));
  }

  /* ---- from a Lark decision to a payload and a recorded decision ---- */

  function Resolution(kind: InteractionKind, params: map<string, Json>,
                      allow: Option<bool>, answers: Option<map<string, string>>)
    : Result<(Json, string)>
  {
    if kind.UserInput? then
      if answers.None? || "questions" !in params || !params["questions"].JArray? then Raised
      else
        match UserInputAnswered(params["questions"].items, answers.value)
        case Ok(payload) => Ok((payload, "submitted"))
        case Raised => Raised
    else if allow.None? then Raised
    else
      match kind
      case ExecApproval => Ok((ApprovalResponse(allow.value), if allow.value then "approved" else "denied"))
      case FileChangeApproval => Ok((ApprovalResponse(allow.value), if allow.value then "accept" else "decline"))
      case PermissionRequest =>
        (match PermissionResponse(params, allow.value)
         case Ok(payload) => Ok((payload, if allow.value then "granted" else "denied"))
         case Raised => Raised)
  }

  function DenialResponse(kind: InteractionKind, params: map<string, Json>): Result<Json> {
    match kind
    case ExecApproval => Ok(ApprovalResponse(false))
    case FileChangeApproval => Ok(ApprovalResponse(false))
    case PermissionRequest => PermissionResponse(params, false)
    case UserInput => Raised
  }

  function DenialDecision(kind: InteractionKind): Result<string> {
    match kind
    case ExecApproval => Ok("denied")
    case FileChangeApproval => Ok("decline")
    case PermissionRequest => Ok("denied")
    case UserInput => Raised
  }

  /* ---- from a terminal payload to a recorded decision ---- */

  predicate IsAnswerEntry(entry: Json) {
    && entry.JObject? && entry.Get("answers").JArray?
    && forall i :: 0 <= i < |entry.Get("answers").items| ==> entry.Get("answers").items[i].JString?
  }

  /** The terminal's answers are accepted when they cover exactly the asked ids, each with a
      list of strings. */
  predicate AcceptsTerminalAnswers(params: map<string, Json>, result: map<string, Json>) {
    && "questions" in params && params["questions"].JArray?
    && HaveDistinctIds(params["questions"].items)
    && "answers" in result && result["answers"].JObject?
    && result["answers"].fields.Keys == IdsOf(params["questions"].items)
    && forall q :: q in result["answers"].fields ==> IsAnswerEntry(result["answers"].fields[q])
  }

  method ValidateTerminalAnswers(params: map<string, Json>, result: map<string, Json>) returns (ok: bool)
    ensures ok <==> AcceptsTerminalAnswers(params, result)
  {
    if "questions" !in params || !params["questions"].JArray? {
      return false;
    }
    var questions := params["questions"].items;
    var expected: set<string> := {};
    for k := 0 to |questions|
      invariant HaveDistinctIds(questions[..k])
      invariant expected == IdsOf(questions[..k])
    {
      if !HasId(questions[k]) {
        return false;
      }
      var questionId := QuestionId(questions[k]);
      if questionId in expected {
        return false;
      }
      expected := expected + {questionId};
      assert questions[..k + 1] == questions[..k] + [questions[k]];
    }
    assert questions[..|questions|] == questions;
    if "answers" !in result || !result["answers"].JObject? || result["answers"].fields.Keys != expected {
      return false;
    }
    var answers := result["answers"].fields;
    ok := forall q :: q in answers ==> IsAnswerEntry(answers[q]);
  }

  function TerminalDecision(kind: InteractionKind, params: map<string, Json>, result: Json): Result<string> {
    if !result.JObject? then Raised
    else if kind.UserInput? then
      if AcceptsTerminalAnswers(params, result.fields) then Ok("submitted") else Raised
    else if kind.PermissionRequest? then
      var scope, strict := result.Get("scope"), result.Get("strictAutoReview");
      if !result.Get("permissions").JObject? then Raised
      else if !scope.JNull? && !scope.JString? then Raised
      else if !strict.JNull? && !strict.JBool? then Raised
      else Ok(if result.Get("permissions").fields != map[] then "granted" else "denied")
    else
      var decision := result.Get("decision");
      if !decision.JString? then Raised
      else if decision.s in ["accept", "acceptForSession"] then
        Ok(if kind.ExecApproval? then "approved" else "accept")
      else if decision.s in ["decline", "cancel"] then
        Ok(if kind.ExecApproval? then "denied" else "decline")
      else Raised
  }

  /* ---- what the store accepts ---- */

  function ParseDecision(text: string): Option<Decision> {
    if text == "approved" then Some(Approved)
    else if text == "denied" then Some(Denied)
    else if text == "accept" then Some(Accept)
    else if text == "decline" then Some(Decline)
    else if text == "granted" then Some(Granted)
    else if text == "submitted" then Some(Submitted)
    else None
  }

  function AllowedDecisions(kind: InteractionKind): set<Decision> {
    match kind
    case ExecApproval => {Approved, Denied}
    case FileChangeApproval => {Accept, Decline}
    case PermissionRequest => {Granted, Denied}
    case UserInput => {Submitted}
  }

  function NormalizeDecision(kind: InteractionKind, decision: string): Result<Decision> {
    if kind.UserInput? then Ok(Submitted)
    else
      match ParseDecision(decision)
      case Some(d) => if d in AllowedDecisions(kind) then Ok(d) else Raised
      case None => Raised
  }

  /* ---- what the answers mean ---- */

  /** The recorded decision lets the app-server go on. */
  predicate MeansYes(d: Decision) {
    d == Approved || d == Accept || d == Granted
  }

  predicate IsApproval(kind: InteractionKind) {
    kind == ExecApproval || kind == FileChangeApproval
  }

  /** `payload` tells the app-server yes or no: an approval by its word, a permission request by handing out what
      was asked for or nothing. */
  predicate Says(kind: InteractionKind, params: map<string, Json>, yes: bool, payload: Json)
    requires !kind.UserInput?
  {
    && payload.JObject?
    && (IsApproval(kind) ==>
      payload.fields.Keys == {"decision"} && payload.fields["decision"] == JString(if yes then "accept" else "decline"))
    && (kind == PermissionRequest ==>
      && payload.fields.Keys == {"permissions", "scope", "strictAutoReview"}
      && payload.fields["permissions"] ==
        (if yes && "permissions" in params then params["permissions"] else JObject(map[]))
      && payload.fields["scope"] == JString("turn") && payload.fields["strictAutoReview"] == JBool(false))
  }

  /** `payload` gives each question asked its own answer, and nothing else. */
  ghost predicate Tells(questions: seq<Json>, answers: map<string, string>, payload: Json) {
    && payload.JObject? && payload.fields.Keys == {"answers"} && payload.fields["answers"].JObject?
    && HaveDistinctIds(questions)
    && payload.fields["answers"].fields.Keys == answers.Keys == IdsOf(questions)
    && forall i :: 0 <= i < |questions| ==>
      var q := QuestionId(questions[i]);
      && q in answers && q in payload.fields["answers"].fields
      && payload.fields["answers"].fields[q] == JObject(map["answers" := JArray([JString(answers[q])])])
  }

  /** The payload conveys what the Lark user said. */
  ghost predicate Conveys(kind: InteractionKind, params: map<string, Json>, allow: Option<bool>,
                          answers: Option<map<string, string>>, payload: Json) {
    if kind.UserInput? then
      && answers.Some? && "questions" in params && params["questions"].JArray?
      && Tells(params["questions"].items, answers.value, payload)
    else allow.Some? && Says(kind, params, allow.value, payload)
  }

  lemma UserInputPayloadTells(questions: seq<Json>, answers: map<string, string>)
    requires HaveDistinctIds(questions) && answers.Keys == IdsOf(questions)
    ensures Tells(questions, answers, UserInputPayload(answers))
  {
    var payload := UserInputPayload(answers);
    assert payload.fields["answers"].fields.Keys == answers.Keys;
    forall i | 0 <= i < |questions| ensures QuestionId(questions[i]) in answers {
      assert QuestionId(questions[i]) in IdsOf(questions);
    }
  }

  /** A Lark answer is sent as it was meant: yes as yes and no as no, each question with its own answer. The decision
      recorded with it says the same. */
  lemma ResolutionMeansWhatWasSaid(kind: InteractionKind, params: map<string, Json>,
                                   allow: Option<bool>, answers: Option<map<string, string>>)
    requires Resolution(kind, params, allow, answers).Ok?
    ensures var (payload, text) := Resolution(kind, params, allow, answers).value;
      var d := NormalizeDecision(kind, text);
      && Conveys(kind, params, allow, answers, payload)
      && d.Ok? && (kind.UserInput? <==> d.value == Submitted)
      && (!kind.UserInput? ==> (MeansYes(d.value) <==> allow == Some(true)))
  {
    if kind.UserInput? {
      UserInputPayloadTells(params["questions"].items, answers.value);
    }
  }

  predicate PermissionsAreAnObject(params: map<string, Json>) {
    "permissions" in params ==> params["permissions"].JObject?
  }

  /** ... and it is refused exactly when it is missing or does not fit the request. */
  lemma ResolutionIsBuiltWhenItFits(kind: InteractionKind, params: map<string, Json>,
                                    allow: Option<bool>, answers: Option<map<string, string>>)
    ensures !kind.UserInput? ==> (Resolution(kind, params, allow, answers).Ok? <==>
      allow.Some? && (kind == PermissionRequest ==> PermissionsAreAnObject(params)))
    ensures kind.UserInput? ==> (Resolution(kind, params, allow, answers).Ok? <==>
      && answers.Some? && "questions" in params && params["questions"].JArray?
      && HaveDistinctIds(params["questions"].items) && answers.value.Keys == IdsOf(params["questions"].items))
  {
  }

  /** A denial never reads as an acceptance, neither in what is sent nor in what is recorded; only a question has none. */
  lemma DenialsSayNo(kind: InteractionKind, params: map<string, Json>)
    ensures DenialResponse(kind, params).Ok? <==>
      IsApproval(kind) || (kind == PermissionRequest && PermissionsAreAnObject(params))
    ensures DenialResponse(kind, params).Ok? ==> Says(kind, params, false, DenialResponse(kind, params).value)
    ensures DenialDecision(kind).Ok? <==> !kind.UserInput?
    ensures DenialDecision(kind).Ok? ==>
      var d := NormalizeDecision(kind, DenialDecision(kind).value); d.Ok? && !MeansYes(d.value)
  {
  }

  /** The words with which the terminal says yes, and those with which it says no. */
  predicate SaysYesWord(word: string) {
    word == "accept" || word == "acceptForSession"
  }

  predicate SaysNoWord(word: string) {
    word == "decline" || word == "cancel"
  }

  /** What the terminal sent is recorded as it was meant: an approval by its word, a permission request by whether it
      hands out anything; everything else is refused. */
  lemma TerminalDecisionMeansWhatWasSent(kind: InteractionKind, params: map<string, Json>, result: map<string, Json>)
    ensures var r := TerminalDecision(kind, params, JObject(result));
      && (r.Ok? ==> NormalizeDecision(kind, r.value).Ok?)
      && (IsApproval(kind) ==>
        var word := JObject(result).Get("decision");
        && (r.Ok? <==> word.JString? && (SaysYesWord(word.s) || SaysNoWord(word.s)))
        && (r.Ok? ==> (MeansYes(NormalizeDecision(kind, r.value).value) <==> SaysYesWord(word.s))))
      && (kind == PermissionRequest ==> (r.Ok? <==>
        && "permissions" in result && result["permissions"].JObject?
        && ("scope" in result ==> result["scope"].JNull? || result["scope"].JString?)
        && ("strictAutoReview" in result ==> result["strictAutoReview"].JNull? || result["strictAutoReview"].JBool?)))
      && (kind == PermissionRequest && r.Ok? ==>
        (MeansYes(NormalizeDecision(kind, r.value).value) <==> result["permissions"].fields != map[]))
      && (kind == UserInput ==> (r.Ok? <==> AcceptsTerminalAnswers(params, result)))
  {
  }

  /** The name under which a decision is stored. */
  function DecisionName(d: Decision): string {
    match d
    case Approved => "approved"
    case Denied => "denied"
    case Accept => "accept"
    case Decline => "decline"
    case Granted => "granted"
    case Submitted => "submitted"
  }

  /** Each kind has its own yes and no; a question accepts whatever it is given. */
  lemma NormalizeIsExact(kind: InteractionKind, text: string, d: Decision)
    ensures NormalizeDecision(kind, text) == Ok(d) <==>
      match kind
      case UserInput => d == Submitted
      case ExecApproval => text == DecisionName(d) && (d == Approved || d == Denied)
      case FileChangeApproval => text == DecisionName(d) && (d == Accept || d == Decline)
      case PermissionRequest => text == DecisionName(d) && (d == Granted || d == Denied)
  {
  }

  /* ---- agreement of the two directions ---- */

  /** The one answer whose recorded decision cannot be read back: granting nothing. */
  predicate GrantsNothing(kind: InteractionKind, params: map<string, Json>, allow: Option<bool>) {
    kind.PermissionRequest? && allow == Some(true) && RequestedPermissions(params) == JObject(map[])
  }

  /** Reading back a built answer gives the decision recorded with it, except precisely when an
      empty permission set is granted: that payload reads as a denial. */
  lemma ResolutionReadsBack(kind: InteractionKind, params: map<string, Json>,
                            allow: Option<bool>, answers: Option<map<string, string>>)
    requires Resolution(kind, params, allow, answers).Ok?
    ensures var (payload, decision) := Resolution(kind, params, allow, answers).value;
      && (TerminalDecision(kind, params, payload) == Ok(decision) <==> !GrantsNothing(kind, params, allow))
      && (GrantsNothing(kind, params, allow) ==> TerminalDecision(kind, params, payload) == Ok("denied"))
  {
    if kind.UserInput? {
      var payload := UserInputPayload(answers.value);
      forall q | q in payload.fields["answers"].fields
        ensures IsAnswerEntry(payload.fields["answers"].fields[q])
      {
        assert payload.fields["answers"].fields[q] == AnswerEntry(answers.value[q]);
      }
      assert payload.fields["answers"].fields.Keys == answers.value.Keys;
    }
  }

  lemma DenialReadsBack(kind: InteractionKind, params: map<string, Json>)
    requires DenialResponse(kind, params).Ok?
    ensures TerminalDecision(kind, params, DenialResponse(kind, params).value) == DenialDecision(kind)
  {
  }

  /** Every decision the orchestrator can produce passes the store's check, so recording the
      outcome of a won interaction never raises. */
  lemma DecisionsAreStorable(kind: InteractionKind, params: map<string, Json>, allow: Option<bool>,
                             answers: Option<map<string, string>>, result: Json)
    ensures Resolution(kind, params, allow, answers).Ok? ==>
      NormalizeDecision(kind, Resolution(kind, params, allow, answers).value.1).Ok?
    ensures TerminalDecision(kind, params, result).Ok? ==>
      NormalizeDecision(kind, TerminalDecision(kind, params, result).value).Ok?
    ensures NormalizeDecision(kind, if kind.UserInput? then "submitted" else DenialDecision(kind).value).Ok?
  {
  }
}
