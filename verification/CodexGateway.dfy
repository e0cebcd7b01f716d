/** The gateway between a Codex terminal and its app-server: who may answer an intercepted request.

    An action is a stretch of gateway code between two real awaits; `Sending` and `Forwarding` are
    the sends that are in flight. Any list of actions is a run: one that does not apply, such as
    taking the response lock while another sender holds it, leaves the state as it is. */
module CodexGateway {
  import opened CodexModel
  import opened RequestIds

  /** A JSON-RPC message as parsed: `None` is an absent field. */
  datatype Message = Message(
    methodName: Option<Json>,
    id: Option<Json>,
    result: Option<Json>,
    error: Option<Json>,
    params: Option<Json>)

  function ValidId(value: Option<Json>): Option<RequestId> {
    if value.None? then None
    else
      match value.value
      case JNumber(n) => Some(Number(n))
      case JString(s) => Some(Text(s))
      case _ => None
  }

  function RequestIdOf(m: Message): Option<RequestId> {
    if m.methodName.Some? && m.methodName.value.JString? then ValidId(m.id) else None
  }

  function ResponseIdOf(m: Message): Option<RequestId> {
    if m.methodName.Some? || (m.result.None? && m.error.None?) then None else ValidId(m.id)
  }

  predicate InterceptedMethod(name: string) {
    || name == "item/commandExecution/requestApproval"
    || name == "item/fileChange/requestApproval"
    || name == "item/permissions/requestApproval"
    || name == "item/tool/requestUserInput"
  }

  /** The id a `serverRequest/resolved` notice speaks of. */
  function ResolvedId(m: Message): Option<RequestId> {
    if m.methodName == Some(JString("serverRequest/resolved")) && m.params.Some? && m.params.value.JObject?
       && "requestId" in m.params.value.fields
    then ValidId(Some(m.params.value.fields["requestId"]))
    else None
  }

  /** `sent` and `forwarded` list the responses that reached the app-server, by arbitration and as
      plain relayed terminal messages. */
  datatype State = State(
    intercepted: set<RequestId>,
    responded: set<RequestId>,
    sending: Option<RequestId>,
    forwarding: multiset<RequestId>,
    sent: seq<RequestId>,
    forwarded: seq<RequestId>)

  const STARTED := State({}, {}, None, multiset{}, [], [])

  datatype Action =
    | FromUpstream(message: Message)
    | FromTerminal(message: Message)
    | Respond(id: RequestId)
    | SendSucceeds
    | SendFails
    | ForwardSucceeds(id: RequestId)
    | ForwardFails(id: RequestId)

  function HandleUpstream(s: State, m: Message): State {
    var id := RequestIdOf(m);
    var intercepts := id.Some? && InterceptedMethod(m.methodName.value.s);
    var t := if intercepts then s.(intercepted := s.intercepted + {id.value}) else s;
    var resolved := ResolvedId(m);
    if resolved.Some? then t.(responded := t.responded + {resolved.value}) else t
  }

  /** A terminal response to an intercepted request goes to arbitration; everything else is relayed. */
  function HandleTerminal(s: State, m: Message): State {
    var id := ResponseIdOf(m);
    if id.Some? && id.value !in s.intercepted
    then s.(forwarding := s.forwarding + multiset{id.value})
    else s
  }

  predicate MayRespond(s: State, id: RequestId) {
    s.sending.None? && id in s.intercepted && id !in s.responded
  }

  function BeginResponse(s: State, id: RequestId): State {
    if MayRespond(s, id) then s.(responded := s.responded + {id}, sending := Some(id)) else s
  }

  function FinishSend(s: State, ok: bool): State {
    if s.sending.None? then s
    else if ok then s.(sending := None, sent := s.sent + [s.sending.value])
    else s.(sending := None, responded := s.responded - {s.sending.value})
  }

  function FinishForward(s: State, id: RequestId, ok: bool): State {
    if id !in s.forwarding then s
    else
      var t := s.(forwarding := s.forwarding - multiset{id});
      if ok then t.(forwarded := t.forwarded + [id]) else t
  }

  function Apply(s: State, a: Action): State {
    match a
    case FromUpstream(m) => HandleUpstream(s, m)
    case FromTerminal(m) => HandleTerminal(s, m)
    case Respond(id) => BeginResponse(s, id)
    case SendSucceeds => FinishSend(s, true)
    case SendFails => FinishSend(s, false)
    case ForwardSucceeds(id) => FinishForward(s, id, true)
    case ForwardFails(id) => FinishForward(s, id, false)
  }

  function Exec(s: State, actions: seq<Action>): State
    decreases actions
  {
    if actions == [] then s else Exec(Apply(s, actions[0]), actions[1..])
  }

  /* ---- which messages are which ---- */

  /** The message carries this id, an integer or a string. */
  predicate Carries(m: Message, id: RequestId) {
    m.id == Some(match id case Number(n) => JNumber(n) case Text(text) => JString(text))
  }

  /** A response: no method, a result or an error, and an id. */
  predicate Answers(m: Message, id: RequestId) {
    Carries(m, id) && m.methodName.None? && (m.result.Some? || m.error.Some?)
  }

  /** One of the four requests that are held for arbitration. */
  predicate AsksForDecision(m: Message, id: RequestId) {
    Carries(m, id) && m.methodName in {
      Some(JString("item/commandExecution/requestApproval")), Some(JString("item/fileChange/requestApproval")),
      Some(JString("item/permissions/requestApproval")), Some(JString("item/tool/requestUserInput"))}
  }

  lemma ResponsesAreRecognised(m: Message)
    ensures forall id :: ResponseIdOf(m) == Some(id) <==> Answers(m, id)
  {
  }

  /** A terminal response to an intercepted request is held back for arbitration; to any other request it is relayed,
      and counted as a response on its way; a message that is no response changes nothing. */
  lemma TerminalResponsesAreSorted(s: State, m: Message)
    ensures forall id :: Answers(m, id) && id in s.intercepted ==> Apply(s, FromTerminal(m)) == s
    ensures forall id :: Answers(m, id) && id !in s.intercepted ==>
      Apply(s, FromTerminal(m)) == s.(forwarding := s.forwarding + multiset{id})
    ensures (forall id :: !Answers(m, id)) ==> Apply(s, FromTerminal(m)) == s
  {
    ResponsesAreRecognised(m);
    var id := ResponseIdOf(m);
    assert id.Some? ==> Answers(m, id.value);
  }

  /** Exactly the four requests register their id, and exactly a "resolved" notice with an id marks one as answered. */
  lemma UpstreamRequestsAreIntercepted(s: State, m: Message)
    ensures var t := Apply(s, FromUpstream(m));
      && (forall id :: id in t.intercepted <==> id in s.intercepted || AsksForDecision(m, id))
      && (forall id :: id in t.responded <==> id in s.responded || Resolves(m, id))
      && t == s.(intercepted := t.intercepted, responded := t.responded)
  {
    forall id ensures RequestIdOf(m) == Some(id) <==> Carries(m, id) && m.methodName.Some? && m.methodName.value.JString? {
    }
    forall id ensures ResolvedId(m) == Some(id) <==> Resolves(m, id) {
    }
  }

  predicate Resolves(m: Message, id: RequestId) {
    && m.methodName == Some(JString("serverRequest/resolved")) && m.params.Some? && m.params.value.JObject?
    && "requestId" in m.params.value.fields
    && m.params.value.fields["requestId"] == match id case Number(n) => JNumber(n) case Text(text) => JString(text)
  }

  /* ---- at most one arbitrated response ---- */

  /** Responses already sent are distinct and closed to further senders; the one in flight is none of
      them and is closed too. */
  ghost predicate Inv(s: State) {
    && (forall id :: multiset(s.sent)[id] <= 1)
    && (forall id :: id in s.sent ==> id in s.responded && id in s.intercepted)
    && (s.sending.Some? ==>
      s.sending.value !in s.sent && s.sending.value in s.intercepted && s.sending.value in s.responded)
  }

  lemma ApplyKeepsInv(s: State, a: Action)
    requires Inv(s)
    ensures Inv(Apply(s, a))
  {
    if a.SendSucceeds? && s.sending.Some? {
      assert multiset(s.sent + [s.sending.value]) == multiset(s.sent) + multiset{s.sending.value};
    }
  }

  lemma {:induction false} ExecKeepsInv(s: State, actions: seq<Action>)
    requires Inv(s)
    ensures Inv(Exec(s, actions))
    decreases actions
  {
    if actions != [] {
      ApplyKeepsInv(s, actions[0]);
      ExecKeepsInv(Apply(s, actions[0]), actions[1..]);
    }
  }

  /** Over every run between start and close, whichever of terminal, Lark or error path answers, at
      most one arbitrated response per id is sent. */
  lemma AtMostOneResponse(actions: seq<Action>, id: RequestId)
    ensures multiset(Exec(STARTED, actions).sent)[id] <= 1
  {
    ExecKeepsInv(STARTED, actions);
  }

  /** A failed send gives the id back: it is open, no response was sent, and the next sender wins. */
  lemma FailedSendReopens(s: State)
    requires Inv(s) && s.sending.Some?
    ensures var t, id := Apply(s, SendFails), s.sending.value;
      && MayRespond(t, id) && id !in t.sent
      && Apply(Apply(t, Respond(id)), SendSucceeds).sent == s.sent + [id]
  {
  }

  /* ---- exactly how many responses can still reach the app-server ---- */

  function Delivered(s: State, id: RequestId): nat {
    multiset(s.sent)[id] + multiset(s.forwarded)[id]
  }

  /** Relayed responses that were already on their way, plus one while arbitration is open. */
  function StillPossible(s: State, id: RequestId): nat {
    s.forwarding[id] + if s.sending == Some(id) || id !in s.responded then 1 else 0
  }

  lemma AppendCounts(ids: seq<RequestId>, x: RequestId, id: RequestId)
    ensures multiset(ids + [x])[id] == multiset(ids)[id] + if x == id then 1 else 0
  {
    assert multiset(ids + [x]) == multiset(ids) + multiset{x};
  }

  lemma StepSpendsPossibility(s: State, a: Action, id: RequestId)
    requires Inv(s) && id in s.intercepted
    ensures var t := Apply(s, a);
      id in t.intercepted && Delivered(t, id) + StillPossible(t, id) <= Delivered(s, id) + StillPossible(s, id)
  {
    match a
    case FromUpstream(m) => UpstreamSpends(s, m, id);
    case FromTerminal(m) => TerminalSpends(s, m, id);
    case Respond(x) => RespondSpends(s, x, id);
    case SendSucceeds => SendSpends(s, true, id);
    case SendFails => SendSpends(s, false, id);
    case ForwardSucceeds(x) => ForwardSpends(s, x, true, id);
    case ForwardFails(x) => ForwardSpends(s, x, false, id);
  }

  lemma RespondSpends(s: State, x: RequestId, id: RequestId)
    ensures var t := BeginResponse(s, x);
      t.intercepted == s.intercepted && Delivered(t, id) == Delivered(s, id) && StillPossible(t, id) <= StillPossible(s, id)
  {
  }

  lemma SendSpends(s: State, ok: bool, id: RequestId)
    requires Inv(s)
    ensures var t := FinishSend(s, ok);
      t.intercepted == s.intercepted && Delivered(t, id) + StillPossible(t, id) <= Delivered(s, id) + StillPossible(s, id)
  {
    if s.sending.Some? {
      AppendCounts(s.sent, s.sending.value, id);
    }
  }

  lemma ForwardSpends(s: State, x: RequestId, ok: bool, id: RequestId)
    ensures var t := FinishForward(s, x, ok);
      t.intercepted == s.intercepted && Delivered(t, id) + StillPossible(t, id) <= Delivered(s, id) + StillPossible(s, id)
  {
    AppendCounts(s.forwarded, x, id);
  }

  lemma UpstreamSpends(s: State, m: Message, id: RequestId)
    ensures var t := HandleUpstream(s, m);
      s.intercepted <= t.intercepted && Delivered(t, id) == Delivered(s, id) && StillPossible(t, id) <= StillPossible(s, id)
  {
  }

  lemma TerminalSpends(s: State, m: Message, id: RequestId)
    requires id in s.intercepted
    ensures var t := HandleTerminal(s, m);
      t.intercepted == s.intercepted && Delivered(t, id) == Delivered(s, id) && StillPossible(t, id) <= StillPossible(s, id)
  {
  }

  /** Once an id is intercepted, no continuation sends more responses for it than the relays that
      were already in flight and one arbitrated response. */
  lemma {:induction false} AnswersAreBounded(s: State, actions: seq<Action>, id: RequestId)
    requires Inv(s) && id in s.intercepted
    ensures Delivered(Exec(s, actions), id) <= Delivered(s, id) + StillPossible(s, id)
    decreases actions
  {
    if actions != [] {
      ApplyKeepsInv(s, actions[0]);
      StepSpendsPossibility(s, actions[0], id);
      AnswersAreBounded(Apply(s, actions[0]), actions[1..], id);
    }
  }

  lemma {:induction false} ExecAppends(s: State, a: seq<Action>, b: seq<Action>)
    ensures Exec(s, a + b) == Exec(Exec(s, a), b)
    decreases a
  {
    if a == [] {
      assert a + b == b;
    } else {
      assert (a + b)[0] == a[0] && (a + b)[1..] == a[1..] + b;
      ExecAppends(Apply(s, a[0]), a[1..], b);
    }
  }

  lemma {:induction false} RelaysCanAllArrive(s: State, id: RequestId) returns (actions: seq<Action>)
    ensures Delivered(Exec(s, actions), id) == Delivered(s, id) + s.forwarding[id]
    decreases s.forwarding[id]
  {
    if id in s.forwarding {
      var t := Apply(s, ForwardSucceeds(id));
      AppendCounts(s.forwarded, id, id);
      var rest := RelaysCanAllArrive(t, id);
      actions := [ForwardSucceeds(id)] + rest;
    } else {
      actions := [];
    }
  }

  /** The bound is exact: some continuation reaches it. */
  lemma BoundIsReached(s: State, id: RequestId) returns (actions: seq<Action>)
    requires Inv(s) && id in s.intercepted
    ensures Delivered(Exec(s, actions), id) == Delivered(s, id) + StillPossible(s, id)
  {
    var first: seq<Action>;
    if s.sending == Some(id) {
      first := [SendSucceeds];
      AppendCounts(s.sent, id, id);
    } else if id in s.responded {
      first := [];
    } else {
      first := [SendFails, Respond(id), SendSucceeds];
      var t := Apply(s, SendFails);
      var u := Apply(t, Respond(id));
      assert first[1..] == [Respond(id), SendSucceeds] && first[1..][1..] == [SendSucceeds];
      assert Exec(s, first) == Exec(u, [SendSucceeds]) == Apply(u, SendSucceeds);
      AppendCounts(s.sent, id, id);
    }
    var mid := Exec(s, first);
    assert Delivered(mid, id) == Delivered(s, id) + StillPossible(s, id) - s.forwarding[id];
    assert mid.forwarding == s.forwarding;
    var rest := RelaysCanAllArrive(mid, id);
    ExecAppends(s, first, rest);
    actions := first + rest;
  }

  /** From the moment an unanswered id is intercepted it gets at most one response in every
      continuation if and only if no terminal message with that id was still being relayed. */
  lemma OneResponseUnlessRelayedEarly(s: State, id: RequestId)
    requires Inv(s) && id in s.intercepted && id !in s.responded
    ensures (forall actions :: Delivered(Exec(s, actions), id) <= Delivered(s, id) + 1) <==> s.forwarding[id] == 0
  {
    if s.forwarding[id] == 0 {
      forall actions
        ensures Delivered(Exec(s, actions), id) <= Delivered(s, id) + 1
      {
        AnswersAreBounded(s, actions, id);
      }
    } else {
      var actions := BoundIsReached(s, id);
    }
  }

  /** Such a relay exists only if the terminal answered before the request was seen: a response to
      an intercepted id is never relayed. */
  lemma RelaysOnlyStartBeforeInterception(s: State, a: Action, id: RequestId)
    requires id in s.intercepted
    ensures Apply(s, a).forwarding[id] <= s.forwarding[id]
  {
  }

  /* ---- what a "resolved" notice from the app-server closes ---- */

  lemma AnsweredStepSendsNothing(s: State, a: Action, id: RequestId)
    requires id in s.responded && s.sending != Some(id)
    ensures var t := Apply(s, a);
      id in t.responded && t.sending != Some(id) && multiset(t.sent)[id] == multiset(s.sent)[id]
  {
    if s.sending.Some? {
      AppendCounts(s.sent, s.sending.value, id);
    }
  }

  /** An id that is closed while no send of it is in flight stays closed in every continuation. */
  lemma {:induction false} ClosedIdStaysClosed(s: State, actions: seq<Action>, id: RequestId)
    requires id in s.responded && s.sending != Some(id)
    ensures multiset(Exec(s, actions).sent)[id] == multiset(s.sent)[id]
    decreases actions
  {
    if actions != [] {
      AnsweredStepSendsNothing(s, actions[0], id);
      ClosedIdStaysClosed(Apply(s, actions[0]), actions[1..], id);
    }
  }

  /** A notice that arrives during a send of its id is undone when that send fails: the id is open again,
      and the next sender wins. */
  lemma FailedSendUndoesNotice(s: State, m: Message, id: RequestId)
    requires Inv(s) && s.sending == Some(id) && ResolvedId(m) == Some(id)
    ensures var t := Exec(s, [FromUpstream(m), SendFails]);
      MayRespond(t, id) && Exec(t, [Respond(id), SendSucceeds]).sent == s.sent + [id]
  {
    ExecOfTwo(s, FromUpstream(m), SendFails);
    ExecOfTwo(Exec(s, [FromUpstream(m), SendFails]), Respond(id), SendSucceeds);
  }

  lemma ExecOfTwo(s: State, a: Action, b: Action)
    ensures Exec(s, [a, b]) == Apply(Apply(s, a), b)
  {
    assert [a, b][1..] == [b];
    assert Exec(Apply(s, a), [b]) == Exec(Apply(Apply(s, a), b), []);
  }

  function TimesSent(s: State, actions: seq<Action>, id: RequestId): nat {
    multiset(Exec(s, actions).sent)[id]
  }

  ghost predicate StaysSilent(s: State, id: RequestId) {
    forall actions :: TimesSent(s, actions, id) == TimesSent(s, [], id)
  }

  /** After a notice no continuation sends a response to its id if and only if no send of it was in flight
      when the notice came. */
  lemma NoticeClosesUnlessSending(s: State, m: Message, id: RequestId)
    requires Inv(s) && ResolvedId(m) == Some(id)
    ensures StaysSilent(Apply(s, FromUpstream(m)), id) <==> s.sending != Some(id)
  {
    var t := Apply(s, FromUpstream(m));
    if s.sending == Some(id) {
      assert Exec(t, [SendSucceeds]) == Exec(Apply(t, SendSucceeds), []);
      AppendCounts(s.sent, id, id);
      assert TimesSent(t, [SendSucceeds], id) == TimesSent(t, [], id) + 1;
    } else {
      forall actions ensures TimesSent(t, actions, id) == TimesSent(t, [], id) {
        ClosedIdStaysClosed(t, actions, id);
      }
    }
  }

  /* ---- the gateway itself ---- */

  class Gateway {
    var intercepted: set<RequestId>
    var responded: set<RequestId>
    ghost var sending: Option<RequestId>
    ghost var forwarding: multiset<RequestId>
    ghost var sent: seq<RequestId>
    ghost var forwarded: seq<RequestId>

    ghost function View(): State
      reads this
    {
      State(intercepted, responded, sending, forwarding, sent, forwarded)
    }

    constructor ()
      ensures View() == STARTED
    {
      intercepted, responded := {}, {};
      sending, forwarding, sent, forwarded := None, multiset{}, [], [];
    }

    method HandleUpstreamMessage(m: Message) returns (interceptedRequest: bool)
      modifies this
      ensures View() == HandleUpstream(old(View()), m)
      ensures interceptedRequest ==> RequestIdOf(m).Some? && RequestIdOf(m).value in intercepted
    {
      var id := RequestIdOf(m);
      interceptedRequest := id.Some? && InterceptedMethod(m.methodName.value.s);
      if interceptedRequest {
        intercepted := intercepted + {id.value};
      }
      if m.methodName == Some(JString("serverRequest/resolved")) && m.params.Some? && m.params.value.JObject? {
        if "requestId" in m.params.value.fields {
          var resolved := ValidId(Some(m.params.value.fields["requestId"]));
          if resolved.Some? {
            responded := responded + {resolved.value};
          }
        }
      }
    }

    /** Returns whether the message is relayed as it is. */
    method HandleTerminalMessage(m: Message) returns (relayed: bool)
      modifies this
      ensures View() == HandleTerminal(old(View()), m)
      ensures forall id :: Answers(m, id) ==> (relayed <==> id !in old(intercepted))
      ensures (forall id :: !Answers(m, id)) ==> relayed
    {
      ResponsesAreRecognised(m);
      var id := ResponseIdOf(m);
      relayed := id.None? || id.value !in intercepted;
      if relayed && id.Some? {
        forwarding := forwarding + multiset{id.value};
      }
    }

    /** With the response lock taken: decide whether this call sends. */
    method BeginRespond(id: RequestId) returns (sends: bool)
      requires sending.None?
      modifies this
      ensures View() == BeginResponse(old(View()), id)
      ensures sends <==> MayRespond(old(View()), id)
    {
      if id !in intercepted || id in responded {
        return false;
      }
      responded := responded + {id};
      sending := Some(id);
      sends := true;
    }

    /** The awaited send returned or raised; the lock is released. */
    method EndRespond(id: RequestId, ok: bool) returns (won: bool)
      requires sending == Some(id)
      modifies this
      ensures View() == FinishSend(old(View()), ok) && won == ok
    {
      if !ok {
        responded := responded - {id};
      } else {
        sent := sent + [id];
      }
      sending := None;
      won := ok;
    }
  }
}
