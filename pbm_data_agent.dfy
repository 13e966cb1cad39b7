/** The PBM claims data tool: a stateful chat with the analytics backend.
    It creates the backend conversation once (tracked by the conversation id
    and a created flag in the session state), then streams the answer and
    keeps the non-empty classified fragments. */
module PbmDataAgent {
  import opened Values
  import opened DataAgentHelper
  import opened Callback

  const IdKey := "pbm_data_agent_conversation_id"
  const CreatedKey := "pbm_data_agent_conversation_created"
  const ResponseKey := "pbm_data_agent_tool_response"

  // ---------------------------------------------------------------------
  // Resource names and requests
  // ---------------------------------------------------------------------

  function Location(projectId: string): string {
    "projects/" + projectId + "/locations/global"
  }

  function ConversationName(projectId: string, conversationId: string): string {
    Location(projectId) + "/conversations/" + conversationId
  }

  function AgentName(projectId: string, agentId: string): string {
    Location(projectId) + "/dataAgents/" + agentId
  }

  datatype CreateConversationRequest = CreateConversationRequest(
    parent: string, conversationId: string, name: string, agents: seq<string>)

  datatype ChatRequest = ChatRequest(parent: string, userText: string, conversation: string, dataAgent: string)

  function CreateRequestFor(projectId: string, agentId: string, conversationId: string): CreateConversationRequest {
    CreateConversationRequest(Location(projectId), conversationId,
      ConversationName(projectId, conversationId), [AgentName(projectId, agentId)])
  }

  function ChatRequestFor(projectId: string, agentId: string, userInput: string, conversationId: string): ChatRequest {
    ChatRequest(Location(projectId), userInput, ConversationName(projectId, conversationId), AgentName(projectId, agentId))
  }

  /** One exchange with the backend, with the answer it gave: a create call
      that may fail, or a chat whose stream delivers some messages and then
      may fail. */
  datatype BackendCall =
    | Create(createRequest: CreateConversationRequest, outcome: Option<Failure>)
    | Chat(chatRequest: ChatRequest, stream: seq<ChatMessage>, streamFailure: Option<Failure>)

  /** The analytics chat service. Its answers are not modelled; `log` records
      every request together with the answer given. */
  class DataChatBackend {
    ghost var log: seq<BackendCall>

    constructor ()
      ensures log == []
    {
      log := [];
    }

    method CreateConversation(request: CreateConversationRequest) returns (failure: Option<Failure>)
      modifies this
      ensures log == old(log) + [Create(request, failure)]
    {
      failure := *;
      log := log + [Create(request, failure)];
    }

    method ChatStream(request: ChatRequest) returns (stream: seq<ChatMessage>, failure: Option<Failure>)
      modifies this
      ensures log == old(log) + [Chat(request, stream, failure)]
    {
      stream := *;
      failure := *;
      log := log + [Chat(request, stream, failure)];
    }
  }

  // ---------------------------------------------------------------------
  // The specification of one turn
  // ---------------------------------------------------------------------

  /** The id key, when present, holds a string (the callbacks and this tool store only strings). */
  predicate WellFormed(state: map<string, Value>) {
    IdKey in state ==> state[IdKey].Str?
  }

  /** A backend conversation is created unless both the id and the flag are set. */
  predicate ShouldCreate(state: map<string, Value>) {
    !Truthy(Get(state, IdKey, Null)) || !Truthy(Get(state, CreatedKey, Bool(false)))
  }

  /** The conversation used: the stored id, or a fresh one. */
  function ChosenId(state: map<string, Value>, uuid: string): string
    requires WellFormed(state)
  {
    if Truthy(Get(state, IdKey, Null)) then state[IdKey].s else "conv-" + uuid
  }

  function CreatedState(state: map<string, Value>, conversationId: string): map<string, Value> {
    state[IdKey := Str(conversationId)][CreatedKey := Bool(true)]
  }

  /** The classification of each streamed message, in stream order. */
  function Classified(stream: seq<ChatMessage>): (r: seq<Result<map<Key, Value>>>)
    ensures |r| == |stream| && forall i :: 0 <= i < |stream| ==> r[i] == Classify(stream[i].systemMessage)
  {
    seq(|stream|, i requires 0 <= i < |stream| => Classify(stream[i].systemMessage))
  }

  /** The messages the loop keeps: non-empty classified fragments in order,
      or the first exception of the classifier. */
  function Keep(results: seq<Result<map<Key, Value>>>): Result<seq<Value>> {
    if results == [] then Ok([])
    else
      match Keep(results[..|results| - 1])
      case Raised(f) => Raised(f)
      case Ok(rs) =>
        match results[|results| - 1]
        case Raised(f) => Raised(f)
        case Ok(m) => Ok(if m != map[] then rs + [Dict(m)] else rs)
  }

  function Collect(stream: seq<ChatMessage>): Result<seq<Value>> {
    Keep(Classified(stream))
  }

  /** What the `try` block produces: the collected list, or the exception of
      the classifier or of the stream. */
  function ChatOutcome(stream: seq<ChatMessage>, streamFailure: Option<Failure>): Result<seq<Value>> {
    match Collect(stream)
    case Raised(f) => Raised(f)
    case Ok(rs) => if streamFailure.Some? then Raised(streamFailure.value) else Ok(rs)
  }

  function ErrorPayload(f: Failure): Value {
    Dict(map[Name("status") := Str("error"), Name("error_message") := Str(Message(f))])
  }

  /** The result and the new state after a chat reply: the collected list is
      stored and returned; an exception becomes the error payload and the
      stored list is left as it was. */
  predicate AfterChat(state: map<string, Value>, call: BackendCall, r: Result<seq<Value>>, state': map<string, Value>)
    requires call.Chat?
  {
    match ChatOutcome(call.stream, call.streamFailure)
    case Ok(rs) => r == Ok(rs) && state' == state[ResponseKey := List(rs)]
    case Raised(f) => r == Ok([ErrorPayload(f)]) && state' == state
  }

  // ---------------------------------------------------------------------
  // The tool
  // ---------------------------------------------------------------------

  /** `stateful_chat_pbm_bq_data_agent`. `uuid` is the fresh id the tool would
      draw; `projectId` and `agentId` come from the project configuration.
      A failed create is not caught: it is the only `Raised` result. */
  method StatefulChat(session: Session, backend: DataChatBackend, userInput: string,
                      projectId: string, agentId: string, uuid: string) returns (r: Result<seq<Value>>)
    requires session.Valid() && WellFormed(session.state)
    modifies session, backend
    ensures session.Valid() && WellFormed(session.state)
    ensures session.toolCalls == old(session.toolCalls) && session.toolResponses == old(session.toolResponses)
    ensures |backend.log| > |old(backend.log)| && backend.log[..|old(backend.log)|] == old(backend.log)
    ensures var s := old(session.state);
            var n := |old(backend.log)|;
            var id := ChosenId(s, uuid);
            var chat := ChatRequestFor(projectId, agentId, userInput, id);
            if !ShouldCreate(s) then
              && |backend.log| == n + 1
              && backend.log[n].Chat? && backend.log[n].chatRequest == chat
              && AfterChat(s, backend.log[n], r, session.state)
            else
              && backend.log[n].Create? && backend.log[n].createRequest == CreateRequestFor(projectId, agentId, id)
              && if backend.log[n].outcome.Some? then
                   && |backend.log| == n + 1
                   && r == Raised(backend.log[n].outcome.value) && session.state == s
                 else
                   && |backend.log| == n + 2
                   && backend.log[n + 1].Chat? && backend.log[n + 1].chatRequest == chat
                   && AfterChat(CreatedState(s, id), backend.log[n + 1], r, session.state)
    ensures r.Raised? || !ShouldCreate(session.state)
  {
    var conversationId := Get(session.state, IdKey, Null);
    var conversationCreated := Get(session.state, CreatedKey, Bool(false));
    var id := if conversationId.Str? then conversationId.s else "";
    ghost var s := session.state;
    ConversationSettles(s, uuid, uuid);
    if !Truthy(conversationId) || !Truthy(conversationCreated) {
      if !Truthy(conversationId) {
        id := "conv-" + uuid;
      }
      assert id == ChosenId(s, uuid);
      var failure := backend.CreateConversation(CreateRequestFor(projectId, agentId, id));
      if failure.Some? {
        return Raised(failure.value);
      }
      assert IdKey[0] != 't' && CreatedKey[0] != 't';
      session.state := session.state[IdKey := Str(id)][CreatedKey := Bool(true)];
      assert session.state == CreatedState(s, id);
    }
    r := ChatTurn(session, backend, ChatRequestFor(projectId, agentId, userInput, id));
  }

  /** The chat of one turn: sends the request, collects the stream, and
      stores the list or answers with the error payload. */
  method ChatTurn(session: Session, backend: DataChatBackend, request: ChatRequest) returns (r: Result<seq<Value>>)
    requires session.Valid()
    modifies session, backend
    ensures session.Valid()
    ensures session.toolCalls == old(session.toolCalls) && session.toolResponses == old(session.toolResponses)
    ensures |backend.log| == |old(backend.log)| + 1 && backend.log[..|old(backend.log)|] == old(backend.log)
    ensures var call := backend.log[|old(backend.log)|];
            call.Chat? && call.chatRequest == request && AfterChat(old(session.state), call, r, session.state)
    ensures r.Ok?
    ensures WellFormed(old(session.state)) ==> WellFormed(session.state)
    ensures ShouldCreate(session.state) == ShouldCreate(old(session.state))
  {
    assert ResponseKey[15] != IdKey[15] && ResponseKey[15] != CreatedKey[15];
    var stream, streamFailure := backend.ChatStream(request);
    var responses := CollectStream(stream, streamFailure);
    if responses.Raised? {
      return Ok([ErrorPayload(responses.failure)]);
    }
    assert ResponseKey[0] != 't';
    session.state := session.state[ResponseKey := List(responses.value)];
    return Ok(responses.value);
  }

  /** The `try` block: classifies each streamed message and keeps the
      non-empty ones; an exception of the classifier or of the stream ends it. */
  method CollectStream(stream: seq<ChatMessage>, streamFailure: Option<Failure>) returns (r: Result<seq<Value>>)
    ensures r == ChatOutcome(stream, streamFailure)
  {
    var responses: seq<Value> := [];
    ghost var results := Classified(stream);
    for i := 0 to |stream|
      invariant Keep(results[..i]) == Ok(responses)
    {
      var message := ShowMessage(stream[i]);
      assert message == results[i];
      KeepStep(results, i, responses);
      if message.Raised? {
        KeepStaysRaised(results, i + 1);
        return Raised(message.failure);
      }
      if message.value != map[] {
        responses := responses + [Dict(message.value)];
      }
    }
    assert results[..|stream|] == results;
    if streamFailure.Some? {
      return Raised(streamFailure.value);
    }
    return Ok(responses);
  }

  /** Two turns of the same session: when the first one does not raise, the
      second one reuses its conversation and creates nothing. */
  method TwoTurns(session: Session, backend: DataChatBackend, first: string, second: string,
                  projectId: string, agentId: string, uuid1: string, uuid2: string)
    returns (r1: Result<seq<Value>>, r2: Result<seq<Value>>)
    requires session.Valid() && WellFormed(session.state)
    modifies session, backend
    ensures |backend.log| >= |old(backend.log)|
    ensures r1.Ok? ==> Creates(backend.log[|old(backend.log)|..]) <= 1
  {
    ghost var n := |backend.log|;
    r1 := StatefulChat(session, backend, first, projectId, agentId, uuid1);
    ghost var m := |backend.log|;
    ghost var mid := backend.log;
    r2 := StatefulChat(session, backend, second, projectId, agentId, uuid2);
    if r1.Ok? {
      assert backend.log[n..] == mid[n..] + backend.log[m..];
      CreatesAppend(mid[n..], backend.log[m..]);
      assert backend.log[m..] == [backend.log[m]];
      CreatesAtMostOneTurn(mid[n..]);
    }
  }

  // ---------------------------------------------------------------------
  // Properties
  // ---------------------------------------------------------------------

  function Creates(log: seq<BackendCall>): nat {
    if log == [] then 0
    else Creates(log[..|log| - 1]) + (if log[|log| - 1].Create? then 1 else 0)
  }

  lemma {:induction false} CreatesAppend(a: seq<BackendCall>, b: seq<BackendCall>)
    ensures Creates(a + b) == Creates(a) + Creates(b)
    decreases |b|
  {
    if b == [] {
      assert a + b == a;
    } else {
      assert (a + b)[..|a + b| - 1] == a + b[..|b| - 1];
      CreatesAppend(a, b[..|b| - 1]);
    }
  }

  lemma CreatesAtMostOneTurn(log: seq<BackendCall>)
    requires 1 <= |log| <= 2 && (|log| == 2 ==> log[1].Chat?)
    ensures Creates(log) <= 1
  {
    if |log| == 2 {
      assert log[..1][..0] == [];
    }
  }

  /** An existing id is reused as it is; a fresh one is never empty. After a
      successful create both markers are set, so later turns reuse the same
      conversation without creating it again. */
  lemma ConversationSettles(state: map<string, Value>, uuid: string, later: string)
    requires WellFormed(state)
    ensures Truthy(Get(state, IdKey, Null)) ==> ChosenId(state, uuid) == state[IdKey].s
    ensures ChosenId(state, uuid) != ""
    ensures var s := CreatedState(state, ChosenId(state, uuid));
            && WellFormed(s) && !ShouldCreate(s) && ChosenId(s, later) == ChosenId(state, uuid)
  {
    assert IdKey != CreatedKey by { assert IdKey[28] != CreatedKey[28]; }
  }

  /** One more message for the loop: its exception ends the collection, a
      non-empty fragment is kept and an empty one skipped. */
  lemma KeepStep(results: seq<Result<map<Key, Value>>>, i: nat, rs: seq<Value>)
    requires i < |results| && Keep(results[..i]) == Ok(rs)
    ensures Keep(results[..i + 1]) == match results[i]
                                      case Raised(f) => Raised(f)
                                      case Ok(m) => Ok(if m != map[] then rs + [Dict(m)] else rs)
  {
    assert results[..i + 1][..i] == results[..i];
  }

  /** Once the classifier raises on a prefix of the stream, the whole stream raises the same. */
  lemma {:induction false} KeepStaysRaised(results: seq<Result<map<Key, Value>>>, k: nat)
    requires k <= |results| && Keep(results[..k]).Raised?
    ensures Keep(results) == Keep(results[..k])
    decreases |results| - k
  {
    if k < |results| {
      assert results[..k + 1][..k] == results[..k];
      KeepStaysRaised(results, k + 1);
    } else {
      assert results[..k] == results;
    }
  }

  /** The collected list holds only non-empty dictionaries, at most one per
      message, and the loop raises exactly when some message fails to classify. */
  lemma {:induction false} KeepNonEmpty(results: seq<Result<map<Key, Value>>>)
    ensures Keep(results).Ok? ==>
            && |Keep(results).value| <= |results|
            && forall v :: v in Keep(results).value ==> v.Dict? && v.fields != map[]
    ensures Keep(results).Raised? <==> exists i :: 0 <= i < |results| && results[i].Raised?
    decreases |results|
  {
    if results != [] {
      var init := results[..|results| - 1];
      KeepNonEmpty(init);
      assert forall i :: 0 <= i < |init| ==> init[i] == results[i];
    }
  }

  /** Messages that classify to nothing are dropped; the others are kept in order. */
  lemma {:induction false} KeepAppend(a: seq<Result<map<Key, Value>>>, b: seq<Result<map<Key, Value>>>)
    requires Keep(a).Ok? && Keep(b).Ok?
    ensures Keep(a + b) == Ok(Keep(a).value + Keep(b).value)
    decreases |b|
  {
    if b == [] {
      assert a + b == a;
      assert Keep(b) == Ok([]);
      assert Keep(a).value + [] == Keep(a).value;
    } else {
      var init := b[..|b| - 1];
      var ab := a + b;
      assert ab[..|ab| - 1] == a + init;
      assert ab[|ab| - 1] == b[|b| - 1];
      assert Keep(init).Ok? && b[|b| - 1].Ok?;
      KeepAppend(a, init);
      var m := b[|b| - 1].value;
      var ka, ki := Keep(a).value, Keep(init).value;
      assert Keep(ab) == Ok(if m != map[] then (ka + ki) + [Dict(m)] else ka + ki);
      assert Keep(b) == Ok(if m != map[] then ki + [Dict(m)] else ki);
      assert (ka + ki) + [Dict(m)] == ka + (ki + [Dict(m)]);
    }
  }

  /** Over a stream: the kept list is made of non-empty dicts, and the
      classifier's first exception is the only way the loop raises. */
  lemma CollectKeepsNonEmpty(stream: seq<ChatMessage>)
    ensures Collect(stream).Ok? ==>
            && |Collect(stream).value| <= |stream|
            && forall v :: v in Collect(stream).value ==> v.Dict? && v.fields != map[]
    ensures Collect(stream).Raised? <==> exists i :: 0 <= i < |stream| && Classify(stream[i].systemMessage).Raised?
  {
    KeepNonEmpty(Classified(stream));
  }

  /** Splitting a stream splits what is kept from it. */
  lemma CollectAppend(a: seq<ChatMessage>, b: seq<ChatMessage>)
    requires Collect(a).Ok? && Collect(b).Ok?
    ensures Collect(a + b) == Ok(Collect(a).value + Collect(b).value)
  {
    var ca, cb, cab := Classified(a), Classified(b), Classified(a + b);
    forall i | 0 <= i < |cab| ensures cab[i] == (ca + cb)[i] {
      if i < |a| {
        assert (a + b)[i] == a[i];
      } else {
        assert (a + b)[i] == b[i - |a|];
      }
    }
    assert cab == ca + cb;
    KeepAppend(Classified(a), Classified(b));
  }
}
