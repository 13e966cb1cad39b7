/** The session-state callbacks of the orchestrator and its sub-agents: the
    per-agent merge of classified fragments, the lazily created conversation
    ids, the `tool_calls` / `tool_responses` ledgers, the orchestrator's
    grouping of calls with responses, and the collection of search grounding. */
module Callback {
  import opened Values
  import opened Grounding

  // ---------------------------------------------------------------------
  // State keys
  // ---------------------------------------------------------------------

  datatype SubAgent = Patient | Medication | Pbm

  /** The sub-agent's own text output, restructured after it runs. */
  function OutputKey(a: SubAgent): string {
    match a
    case Patient => "patient_agent_output"
    case Medication => "medication_agent_output"
    case Pbm => "pbm_agent_output"
  }

  /** The list of classified fragments its data tool stored. */
  function ToolResponseKey(a: SubAgent): string {
    match a
    case Patient => "patient_data_agent_tool_response"
    case Medication => "medication_data_agent_tool_response"
    case Pbm => "pbm_data_agent_tool_response"
  }

  function ConversationIdKey(a: SubAgent): string {
    match a
    case Patient => "patient_data_agent_conversation_id"
    case Medication => "medication_data_agent_conversation_id"
    case Pbm => "pbm_data_agent_conversation_id"
  }

  const AgentOutputKey := "agent_output"
  const GroundingMetadataKey := "grounding_metadata"
  const ToolCallsKey := "tool_calls"
  const ToolResponsesKey := "tool_responses"
  const GoogleSearchAgent := "google_search_agent"

  /** `state.get(key, default)` */
  function Get(state: map<string, Value>, key: string, default: Value): Value {
    if key in state then state[key] else default
  }

  // ---------------------------------------------------------------------
  // Errors raised by builtins on values of the wrong type
  // ---------------------------------------------------------------------

  function NotIterable(v: Value): Failure {
    TypeError("'" + TypeName(v) + "' object is not iterable")
  }

  function NoLen(v: Value): Failure {
    TypeError("object of type '" + TypeName(v) + "' has no len()")
  }

  function NoGet(v: Value): Failure {
    AttributeError("'" + TypeName(v) + "' object has no attribute 'get'")
  }

  // ---------------------------------------------------------------------
  // Merging dictionaries: `merged.update(item)` for each dict item
  // ---------------------------------------------------------------------

  /** The left-to-right union of the dict items; later keys win, other items are skipped. */
  function Union(items: seq<Value>): map<Key, Value> {
    if items == [] then map[]
    else
      var last := items[|items| - 1];
      Union(items[..|items| - 1]) + (if last.Dict? then last.fields else map[])
  }

  /** The elements of `for item in v` that can be dicts: a string yields
      characters and a dict its keys, neither of them a dict; other scalars
      cannot be iterated. */
  function DictCandidates(v: Value): Result<seq<Value>> {
    if v.List? then Ok(v.items)
    else if v.Str? || v.Dict? then Ok([])
    else Raised(NotIterable(v))
  }

  method MergeDictItems(items: seq<Value>) returns (merged: map<Key, Value>)
    ensures merged == Union(items)
  {
    merged := map[];
    for i := 0 to |items|
      invariant merged == Union(items[..i])
    {
      assert items[..i + 1][..i] == items[..i];
      if items[i].Dict? {
        merged := merged + items[i].fields;
      }
    }
    assert items[..|items|] == items;
  }

  /** A key is in the union exactly when some dict item has it. */
  lemma {:induction false} UnionKeys(items: seq<Value>, k: Key)
    ensures k in Union(items) <==> exists i :: 0 <= i < |items| && items[i].Dict? && k in items[i].fields
    decreases |items|
  {
    if items != [] {
      var init := items[..|items| - 1];
      UnionKeys(init, k);
      assert forall i :: 0 <= i < |init| ==> init[i] == items[i];
    }
  }

  /** The union holds, for each key, the value of the last dict item that has it. */
  lemma {:induction false} UnionLastWins(items: seq<Value>, i: nat, k: Key)
    requires i < |items| && items[i].Dict? && k in items[i].fields
    requires forall j :: i < j < |items| && items[j].Dict? ==> k !in items[j].fields
    ensures k in Union(items) && Union(items)[k] == items[i].fields[k]
    decreases |items|
  {
    var init := items[..|items| - 1];
    if i < |items| - 1 {
      assert forall j :: 0 <= j < |init| ==> init[j] == items[j];
      UnionLastWins(init, i, k);
    }
  }

  /** The union is empty exactly when every dict item is empty, for instance
      when the list holds no dicts at all. */
  lemma UnionEmpty(items: seq<Value>)
    ensures Union(items) == map[] <==> forall i :: 0 <= i < |items| && items[i].Dict? ==> items[i].fields == map[]
  {
    if Union(items) == map[] {
      forall i | 0 <= i < |items| && items[i].Dict?
        ensures items[i].fields == map[]
      {
        forall k | k in items[i].fields ensures false {
          UnionKeys(items, k);
        }
      }
    } else {
      var k :| k in Union(items);
      UnionKeys(items, k);
    }
  }

  // ---------------------------------------------------------------------
  // Sub-agent output
  // ---------------------------------------------------------------------

  /** `{summary, tool_response}`: the merged fragments, wrapped in a list only when non-empty. */
  function SubAgentRecord(summary: Value, merged: map<Key, Value>): Value {
    Dict(map[
      Name("summary") := summary,
      Name("tool_response") := List(if merged != map[] then [Dict(merged)] else [])])
  }

  /** What the after-agent callback stores under the agent's output key. */
  function SubAgentOutput(state: map<string, Value>, a: SubAgent): Result<Value> {
    match DictCandidates(Get(state, ToolResponseKey(a), List([])))
    case Raised(f) => Raised(f)
    case Ok(items) => Ok(SubAgentRecord(Get(state, OutputKey(a), Str("")), Union(items)))
  }

  // ---------------------------------------------------------------------
  // Conversation ids and ledgers
  // ---------------------------------------------------------------------

  /** The state after the before-tool check: an id is stored only when the
      current one is missing or falsy. */
  function WithConversationId(state: map<string, Value>, a: SubAgent, uuid: string): map<string, Value> {
    if Truthy(Get(state, ConversationIdKey(a), Null)) then state
    else state[ConversationIdKey(a) := Str(uuid)]
  }

  /** A non-empty fresh id leaves a usable id in the state, never replaces an
      existing one, keeps every other key, and a second check changes nothing. */
  lemma ConversationIdStable(state: map<string, Value>, a: SubAgent, uuid: string, later: string)
    requires uuid != ""
    ensures var s := WithConversationId(state, a, uuid);
            && ConversationIdKey(a) in s && Truthy(s[ConversationIdKey(a)])
            && (Truthy(Get(state, ConversationIdKey(a), Null)) ==> s[ConversationIdKey(a)] == state[ConversationIdKey(a)])
            && (forall k :: k != ConversationIdKey(a) ==> (k in s <==> k in state) && (k in s ==> s[k] == state[k]))
            && WithConversationId(s, a, later) == s
  {
  }

  datatype ToolCall = ToolCall(toolName: string, input: string)

  datatype ToolResponse = ToolResponse(toolName: string, response: Value)

  /** `state['tool_calls']` after `before_tool_callback`: initialised if absent, one entry appended. */
  function AppendCall(calls: Option<seq<ToolCall>>, c: ToolCall): (r: Option<seq<ToolCall>>)
    ensures r.Some? && |r.value| == |calls.GetOr([])| + 1
    ensures r.value[..|r.value| - 1] == calls.GetOr([]) && r.value[|r.value| - 1] == c
  {
    Some(calls.GetOr([]) + [c])
  }

  /** Calls appended one after another are kept in the order they were made. */
  lemma AppendCallOrder(calls: Option<seq<ToolCall>>, c: ToolCall, d: ToolCall)
    ensures AppendCall(AppendCall(calls, c), d) == Some(calls.GetOr([]) + [c, d])
  {
    assert calls.GetOr([]) + [c] + [d] == calls.GetOr([]) + [c, d];
  }

  // ---------------------------------------------------------------------
  // After a tool: what is stored as its response
  // ---------------------------------------------------------------------

  /** The response stored for a tool, or the exception the callback raises.
      A string is parsed (`loads` answers None for invalid JSON, which falls
      back to `{'text': raw}`); a parsed non-dict cannot answer `.get`, and a
      parsed `tool_response` field must have a length. A falsy parsed value
      falls back to the raw response. */
  function StoredResponse(response: Value, loads: string -> Option<Value>): Result<Value> {
    if response.Str? then
      match loads(response.s)
      case None => Ok(Dict(map[Name("text") := response]))
      case Some(parsed) =>
        if !parsed.Dict? then Raised(NoGet(parsed))
        else if Name("tool_response") in parsed.fields && !Sized(parsed.fields[Name("tool_response")]) then
          Raised(NoLen(parsed.fields[Name("tool_response")]))
        else Ok(if Truthy(parsed) then parsed else response)
    else Ok(response)
  }

  /** A dict response is stored as it is; a string that is not JSON is wrapped as text. */
  lemma StoredResponseCases(response: Value, loads: string -> Option<Value>)
    ensures !response.Str? ==> StoredResponse(response, loads) == Ok(response)
    ensures response.Str? && loads(response.s).None? ==>
            StoredResponse(response, loads) == Ok(Dict(map[Name("text") := response]))
    ensures response.Str? && loads(response.s) == Some(Dict(map[])) ==>
            StoredResponse(response, loads) == Ok(response)
    ensures StoredResponse(response, loads).Ok? ==> Truthy(StoredResponse(response, loads).value) || StoredResponse(response, loads).value == response
  {
    var text := map[Name("text") := response];
    assert Name("text") in text;
  }

  // ---------------------------------------------------------------------
  // The orchestrator: pairing calls with responses
  // ---------------------------------------------------------------------

  /** The first response whose tool name equals `name`. */
  function FindResponse(name: string, responses: seq<ToolResponse>): Option<ToolResponse> {
    if responses == [] then None
    else if responses[0].toolName == name then Some(responses[0])
    else FindResponse(name, responses[1..])
  }

  lemma {:induction false} FindResponseFirst(name: string, responses: seq<ToolResponse>)
    ensures FindResponse(name, responses).None? <==> forall j :: 0 <= j < |responses| ==> responses[j].toolName != name
    ensures FindResponse(name, responses).Some? ==>
            exists j :: 0 <= j < |responses| && responses[j] == FindResponse(name, responses).value
                        && responses[j].toolName == name
                        && forall k :: 0 <= k < j ==> responses[k].toolName != name
    decreases |responses|
  {
    if responses != [] && responses[0].toolName != name {
      var rest := responses[1..];
      FindResponseFirst(name, rest);
      assert forall j :: 0 <= j < |rest| ==> rest[j] == responses[j + 1];
      if FindResponse(name, rest).Some? {
        var j :| 0 <= j < |rest| && rest[j] == FindResponse(name, rest).value
                 && rest[j].toolName == name && forall k :: 0 <= k < j ==> rest[k].toolName != name;
        assert responses[j + 1] == rest[j];
        assert forall k :: 0 <= k < j + 1 ==> responses[k].toolName != name by {
          forall k | 0 <= k < j + 1 ensures responses[k].toolName != name {
            if k > 0 { assert responses[k] == rest[k - 1]; }
          }
        }
      } else {
        forall j | 0 <= j < |responses| ensures responses[j].toolName != name {
          if j > 0 { assert responses[j] == rest[j - 1]; }
        }
      }
    }
  }

  /** Where the data to spread comes from, in order of precedence: the search
      agent's text, the union of a `tool_response` list, the union of a list,
      a dict as it is, and nothing otherwise. */
  function MergeTarget(name: string, response: Value): Result<map<Key, Value>> {
    if name == GoogleSearchAgent && response.Str? then Ok(map[Name("text") := response])
    else if response.Dict? && Name("tool_response") in response.fields then
      var list := response.fields[Name("tool_response")];
      if !Sized(list) then Raised(NoLen(list))
      else Ok(Union(if list.List? then list.items else []))
    else if response.List? then Ok(Union(response.items))
    else if response.Dict? then Ok(response.fields)
    else Ok(map[])
  }

  method MergeData(name: string, response: Value) returns (r: Result<map<Key, Value>>)
    ensures r == MergeTarget(name, response)
  {
    if name == GoogleSearchAgent && response.Str? {
      r := Ok(map[Name("text") := response]);
    } else if response.Dict? && Name("tool_response") in response.fields {
      var list := response.fields[Name("tool_response")];
      if !Sized(list) {
        return Raised(NoLen(list));
      }
      var merged := MergeDictItems(if list.List? then list.items else []);
      r := Ok(merged);
    } else if response.List? {
      var merged := MergeDictItems(response.items);
      r := Ok(merged);
    } else if response.Dict? {
      r := Ok(response.fields);
    } else {
      r := Ok(map[]);
    }
  }

  /** When `loads` gives a sub-agent's record back from its JSON text, the
      record is kept as the tool's response and the merger recovers exactly
      the merged fragments. */
  lemma SubAgentRoundTrip(summary: Value, merged: map<Key, Value>, name: string, text: string, loads: string -> Option<Value>)
    requires loads(text) == Some(SubAgentRecord(summary, merged))
    ensures StoredResponse(Str(text), loads) == Ok(SubAgentRecord(summary, merged))
    ensures MergeTarget(name, SubAgentRecord(summary, merged)) == Ok(merged)
  {
    var items := if merged != map[] then [Dict(merged)] else [];
    assert Union(items) == merged by {
      if merged != map[] {
        assert items[..0] == [];
      }
    }
  }

  // ---------------------------------------------------------------------
  // Tool display metadata
  // ---------------------------------------------------------------------

  function MetadataRecord(displayName: string, icon: string, color: string, description: string, kind: string): map<Key, Value> {
    map[
      Name("display_name") := Str(displayName),
      Name("icon") := Str(icon),
      Name("color") := Str(color),
      Name("description") := Str(description),
      Name("type") := Str(kind)]
  }

  predicate IsLower(c: char) { 'a' <= c <= 'z' }
  predicate IsUpper(c: char) { 'A' <= c <= 'Z' }
  predicate IsLetter(c: char) { IsLower(c) || IsUpper(c) }

  function ToUpper(c: char): char {
    if IsLower(c) then (c as int - 32) as char else c
  }

  function ToLower(c: char): char {
    if IsUpper(c) then (c as int + 32) as char else c
  }

  lemma CaseOfLetter(c: char)
    requires IsLetter(c)
    ensures IsUpper(ToUpper(c)) && ToLower(ToUpper(c)) == ToLower(c)
    ensures IsLower(ToLower(c)) && ToLower(ToLower(c)) == ToLower(c)
  {
  }

  /** `name.replace('_', ' ')` */
  function Spaced(name: string): (r: string)
    ensures |r| == |name|
    ensures forall i :: 0 <= i < |name| ==> r[i] == (if name[i] == '_' then ' ' else name[i])
  {
    seq(|name|, i requires 0 <= i < |name| => if name[i] == '_' then ' ' else name[i])
  }

  /** `str.title()` on ASCII: a letter after a letter is lowered, any other letter raised. */
  function Title(s: string): string {
    if s == [] then [] else Title(s[..|s| - 1]) + [TitleChar(s, |s| - 1)]
  }

  /** Character `i` of the title-cased text. */
  function TitleChar(s: string, i: nat): char
    requires i < |s|
  {
    if !IsLetter(s[i]) then s[i]
    else if i > 0 && IsLetter(s[i - 1]) then ToLower(s[i])
    else ToUpper(s[i])
  }

  lemma {:induction false} TitleAt(s: string)
    ensures |Title(s)| == |s|
    ensures forall i :: 0 <= i < |s| ==> Title(s)[i] == TitleChar(s, i)
    decreases |s|
  {
    if s != [] {
      var init := s[..|s| - 1];
      TitleAt(init);
      forall i | 0 <= i < |init| ensures Title(s)[i] == TitleChar(s, i) {
        assert Title(s)[i] == Title(init)[i];
        assert init[i] == s[i];
        if i > 0 { assert init[i - 1] == s[i - 1]; }
      }
    }
  }

  /** Title case character by character: the same length, non-letters
      unchanged, each letter keeps its identity, and it is upper case exactly
      when no letter precedes it. */
  lemma TitleWords(s: string)
    ensures |Title(s)| == |s|
    ensures forall i :: 0 <= i < |s| && !IsLetter(s[i]) ==> Title(s)[i] == s[i]
    ensures forall i :: 0 <= i < |s| && IsLetter(s[i]) ==>
              && IsLetter(Title(s)[i]) && ToLower(Title(s)[i]) == ToLower(s[i])
              && (IsUpper(Title(s)[i]) <==> (i == 0 || !IsLetter(s[i - 1])))
  {
    TitleAt(s);
    forall i | 0 <= i < |s| && IsLetter(s[i])
      ensures && IsLetter(Title(s)[i]) && ToLower(Title(s)[i]) == ToLower(s[i])
              && (IsUpper(Title(s)[i]) <==> (i == 0 || !IsLetter(s[i - 1])))
    {
      CaseOfLetter(s[i]);
    }
  }

  predicate KnownTool(name: string) {
    name in {"patient_data_agent", "medication_inventory_agent", "pbm_data_agent", GoogleSearchAgent}
  }

  /** The display metadata of a tool, with the generic fallback for unknown ones. */
  function Metadata(name: string): map<Key, Value> {
    if name == "patient_data_agent" then
      MetadataRecord("Patient Clinical Data", "medical_services", "blue",
                     "Patient encounters, diagnoses, medications, and vitals", "agent")
    else if name == "medication_inventory_agent" then
      MetadataRecord("Medication Inventory", "medication", "green",
                     "Pharmacy stock levels and availability", "agent")
    else if name == "pbm_data_agent" then
      MetadataRecord("PBM Claims", "payments", "purple",
                     "Insurance claims, copays, and coverage", "agent")
    else if name == GoogleSearchAgent then
      MetadataRecord("Google Search", "search", "grey",
                     "Web search for healthcare information", "tool")
    else
      MetadataRecord(Title(Spaced(name)), "query_stats", "grey", "Results from " + name, "tool")
  }

  /** Every tool gets the five display fields; the three sub-agent registry
      entries are agents and every other tool, known or not, is a tool. */
  lemma MetadataShape(name: string)
    ensures Metadata(name).Keys == {Name("display_name"), Name("icon"), Name("color"), Name("description"), Name("type")}
    ensures Metadata(name)[Name("type")] == Str(if KnownTool(name) && name != GoogleSearchAgent then "agent" else "tool")
    ensures !KnownTool(name) ==>
            && Metadata(name)[Name("display_name")] == Str(Title(Spaced(name)))
            && Metadata(name)[Name("icon")] == Str("query_stats")
            && Metadata(name)[Name("color")] == Str("grey")
            && Metadata(name)[Name("description")] == Str("Results from " + name)
  {
    if name == "patient_data_agent" {
      RecordShape("Patient Clinical Data", "medical_services", "blue",
                  "Patient encounters, diagnoses, medications, and vitals", "agent");
    } else if name == "medication_inventory_agent" {
      RecordShape("Medication Inventory", "medication", "green",
                  "Pharmacy stock levels and availability", "agent");
    } else if name == "pbm_data_agent" {
      RecordShape("PBM Claims", "payments", "purple",
                  "Insurance claims, copays, and coverage", "agent");
    } else if name == GoogleSearchAgent {
      RecordShape("Google Search", "search", "grey",
                  "Web search for healthcare information", "tool");
    } else {
      RecordShape(Title(Spaced(name)), "query_stats", "grey", "Results from " + name, "tool");
    }
  }

  /** The orchestrator's tools are named after the agents they wrap:
      `patient_encounters_agent`, `medication_inventory_agent`, `pbm_agent`
      and `google_search_agent`. Two of those names are not registry entries,
      so these two sub-agents get the generic tool record. */
  lemma WiredToolNames()
    ensures Metadata("patient_encounters_agent")[Name("type")] == Str("tool")
    ensures Metadata("patient_encounters_agent")[Name("icon")] == Str("query_stats")
    ensures Metadata("pbm_agent")[Name("type")] == Str("tool")
    ensures Metadata("pbm_agent")[Name("icon")] == Str("query_stats")
    ensures Metadata("medication_inventory_agent")[Name("type")] == Str("agent")
    ensures Metadata(GoogleSearchAgent)[Name("type")] == Str("tool")
  {
    MetadataShape("patient_encounters_agent");
    MetadataShape("pbm_agent");
    MetadataShape("medication_inventory_agent");
    MetadataShape(GoogleSearchAgent);
  }

  lemma RecordShape(displayName: string, icon: string, color: string, description: string, kind: string)
    ensures var m := MetadataRecord(displayName, icon, color, description, kind);
            && m.Keys == {Name("display_name"), Name("icon"), Name("color"), Name("description"), Name("type")}
            && m[Name("display_name")] == Str(displayName)
            && m[Name("icon")] == Str(icon)
            && m[Name("color")] == Str(color)
            && m[Name("description")] == Str(description)
            && m[Name("type")] == Str(kind)
  {
    assert "display_name"[1] != "description"[1];
  }

  // ---------------------------------------------------------------------
  // The orchestrator: grouped results
  // ---------------------------------------------------------------------

  /** One grouped result: the fixed keys, overridden by the spread data. */
  function GroupedResult(c: ToolCall, merged: map<Key, Value>): (r: Value)
    ensures r.Dict? && forall k :: k in merged ==> k in r.fields && r.fields[k] == merged[k]
    ensures Name("tool_name") in r.fields && Name("tool_input") in r.fields && Name("tool_metadata") in r.fields
    ensures Name("tool_name") !in merged ==> r.fields[Name("tool_name")] == Str(c.toolName)
    ensures Name("tool_input") !in merged ==> r.fields[Name("tool_input")] == Str(c.input)
    ensures Name("tool_metadata") !in merged ==> r.fields[Name("tool_metadata")] == Dict(Metadata(c.toolName))
  {
    Dict(map[
      Name("tool_name") := Str(c.toolName),
      Name("tool_input") := Str(c.input),
      Name("tool_metadata") := Dict(Metadata(c.toolName))] + merged)
  }

  /** The calls that have a response, in call order. */
  function Matched(calls: seq<ToolCall>, responses: seq<ToolResponse>): seq<ToolCall> {
    if calls == [] then []
    else
      var c := calls[|calls| - 1];
      Matched(calls[..|calls| - 1], responses) + (if FindResponse(c.toolName, responses).Some? then [c] else [])
  }

  /** The data a call spreads into its result (nothing for an unmatched call). */
  function MergedFor(c: ToolCall, responses: seq<ToolResponse>): Result<map<Key, Value>> {
    match FindResponse(c.toolName, responses)
    case None => Ok(map[])
    case Some(r) => MergeTarget(c.toolName, r.response)
  }

  /** The grouped results of the calls, or the first exception of the merger. */
  function Grouped(calls: seq<ToolCall>, responses: seq<ToolResponse>): Result<seq<Value>> {
    if calls == [] then Ok([])
    else
      var c := calls[|calls| - 1];
      match Grouped(calls[..|calls| - 1], responses)
      case Raised(f) => Raised(f)
      case Ok(rs) =>
        if FindResponse(c.toolName, responses).None? then Ok(rs)
        else
          match MergedFor(c, responses)
          case Raised(f) => Raised(f)
          case Ok(m) => Ok(rs + [GroupedResult(c, m)])
  }

  /** `agent_output` after the orchestrator: summary, grouped results, grounding. */
  function OrchestratorOutput(state: map<string, Value>, calls: seq<ToolCall>, responses: seq<ToolResponse>): Result<Value> {
    match Grouped(calls, responses)
    case Raised(f) => Raised(f)
    case Ok(rs) =>
      Ok(Dict(map[
        Name("summary") := Get(state, AgentOutputKey, Str("")),
        Name("tool_response") := List(rs),
        Name("grounding_metadata") := Get(state, GroundingMetadataKey, Null)]))
  }

  /** Once the merger raises for a prefix of the calls, it raises the same for all of them. */
  lemma {:induction false} GroupedStaysRaised(calls: seq<ToolCall>, responses: seq<ToolResponse>, k: nat)
    requires k <= |calls| && Grouped(calls[..k], responses).Raised?
    ensures Grouped(calls, responses) == Grouped(calls[..k], responses)
    decreases |calls| - k
  {
    if k < |calls| {
      assert calls[..k + 1][..k] == calls[..k];
      GroupedStaysRaised(calls, responses, k + 1);
    } else {
      assert calls[..k] == calls;
    }
  }

  /** Matching keeps the order of the calls. */
  lemma {:induction false} MatchedAppend(a: seq<ToolCall>, b: seq<ToolCall>, responses: seq<ToolResponse>)
    ensures Matched(a + b, responses) == Matched(a, responses) + Matched(b, responses)
    decreases |b|
  {
    if b == [] {
      assert a + b == a;
    } else {
      assert (a + b)[..|a + b| - 1] == a + b[..|b| - 1];
      MatchedAppend(a, b[..|b| - 1], responses);
    }
  }

  /** No more results than calls, and as many exactly when every call's tool
      has a response. */
  lemma {:induction false} MatchedCount(calls: seq<ToolCall>, responses: seq<ToolResponse>)
    ensures |Matched(calls, responses)| <= |calls|
    ensures |Matched(calls, responses)| == |calls| <==>
            forall i :: 0 <= i < |calls| ==> FindResponse(calls[i].toolName, responses).Some?
    decreases |calls|
  {
    if calls != [] {
      var init := calls[..|calls| - 1];
      MatchedCount(init, responses);
      assert forall i :: 0 <= i < |init| ==> init[i] == calls[i];
    }
  }

  /** Without an exception, result k is the k-th matched call with its spread data. */
  lemma {:induction false} GroupedMatched(calls: seq<ToolCall>, responses: seq<ToolResponse>)
    requires Grouped(calls, responses).Ok?
    ensures var rs := Grouped(calls, responses).value;
            var ms := Matched(calls, responses);
            && |rs| == |ms|
            && forall k :: 0 <= k < |ms| ==> MergedFor(ms[k], responses).Ok?
                                              && rs[k] == GroupedResult(ms[k], MergedFor(ms[k], responses).value)
    decreases |calls|
  {
    if calls != [] {
      GroupedMatched(calls[..|calls| - 1], responses);
    }
  }

  /** The output's summary is read from the key the output is written to, so
      a second run with the same ledgers keeps the grouped results and wraps
      the first output as its summary. */
  lemma OrchestratorRerun(state: map<string, Value>, calls: seq<ToolCall>, responses: seq<ToolResponse>)
    requires OrchestratorOutput(state, calls, responses).Ok?
    ensures var v := OrchestratorOutput(state, calls, responses).value;
            var w := OrchestratorOutput(state[AgentOutputKey := v], calls, responses);
            && w.Ok? && w.value.Dict?
            && w.value.fields[Name("summary")] == v
            && w.value.fields[Name("tool_response")] == v.fields[Name("tool_response")]
            && w.value.fields[Name("grounding_metadata")] == v.fields[Name("grounding_metadata")]
  {
    assert AgentOutputKey[0] != GroundingMetadataKey[0];
  }

  // ---------------------------------------------------------------------
  // The session and its callbacks
  // ---------------------------------------------------------------------

  /** The session state. The two ledgers are kept apart from the other keys;
      `None` is a ledger key that is absent. */
  class Session {
    var state: map<string, Value>
    var toolCalls: Option<seq<ToolCall>>
    var toolResponses: Option<seq<ToolResponse>>

    ghost predicate Valid()
      reads this
    {
      ToolCallsKey !in state && ToolResponsesKey !in state
    }

    constructor (initial: map<string, Value>)
      requires ToolCallsKey !in initial && ToolResponsesKey !in initial
      ensures Valid()
      ensures state == initial && toolCalls == None && toolResponses == None
    {
      state := initial;
      toolCalls := None;
      toolResponses := None;
    }

    /** `after_{patient,medication,pbm}_agent_callback` */
    method AfterSubAgent(a: SubAgent) returns (raised: Option<Failure>)
      requires Valid()
      modifies this
      ensures Valid()
      ensures toolCalls == old(toolCalls) && toolResponses == old(toolResponses)
      ensures match SubAgentOutput(old(state), a)
              case Ok(v) => raised.None? && state == old(state)[OutputKey(a) := v]
              case Raised(f) => raised == Some(f) && state == old(state)
    {
      var summary := Get(state, OutputKey(a), Str(""));
      var responseList := Get(state, ToolResponseKey(a), List([]));
      var items: seq<Value>;
      if responseList.List? {
        items := responseList.items;
      } else if responseList.Str? || responseList.Dict? {
        items := [];
      } else {
        return Some(NotIterable(responseList));
      }
      var merged := MergeDictItems(items);
      assert OutputKey(a)[0] != 't';
      var toolResponse := if merged != map[] then [Dict(merged)] else [];
      state := state[OutputKey(a) := Dict(map[Name("summary") := summary, Name("tool_response") := List(toolResponse)])];
      raised := None;
    }

    /** `check_before_tool_{patient,medication,pbm}`; `uuid` is the fresh id the callback would draw. */
    method CheckBeforeTool(a: SubAgent, uuid: string)
      requires Valid()
      modifies this
      ensures Valid()
      ensures toolCalls == old(toolCalls) && toolResponses == old(toolResponses)
      ensures state == WithConversationId(old(state), a, uuid)
    {
      var current := Get(state, ConversationIdKey(a), Null);
      assert ConversationIdKey(a)[0] != 't';
      if !Truthy(current) {
        state := state[ConversationIdKey(a) := Str(uuid)];
      }
    }

    /** `before_agent_callback`: present ledgers are emptied, absent ones stay absent. */
    method BeforeAgent()
      modifies this
      ensures state == old(state)
      ensures toolCalls == (if old(toolCalls).Some? then Some([]) else None)
      ensures toolResponses == (if old(toolResponses).Some? then Some([]) else None)
    {
      if toolCalls.Some? {
        toolCalls := Some([]);
      }
      if toolResponses.Some? {
        toolResponses := Some([]);
      }
    }

    /** `before_tool_callback`; `input` is `str(args)`. */
    method BeforeTool(name: string, input: string)
      modifies this
      ensures state == old(state) && toolResponses == old(toolResponses)
      ensures toolCalls == AppendCall(old(toolCalls), ToolCall(name, input))
    {
      if toolCalls.None? {
        toolCalls := Some([]);
      }
      toolCalls := Some(toolCalls.value + [ToolCall(name, input)]);
    }

    /** `after_tool_callback`; `loads` is `json.loads`, None for invalid JSON.
        An exception leaves the ledger as it was. */
    method AfterTool(name: string, response: Value, loads: string -> Option<Value>) returns (raised: Option<Failure>)
      modifies this
      ensures state == old(state) && toolCalls == old(toolCalls)
      ensures match StoredResponse(response, loads)
              case Ok(v) => raised.None? && toolResponses == Some(old(toolResponses).GetOr([]) + [ToolResponse(name, v)])
              case Raised(f) => raised == Some(f) && toolResponses == old(toolResponses)
    {
      var structured := Null;
      if response.Str? {
        var parsed := loads(response.s);
        if parsed.None? {
          structured := Dict(map[Name("text") := response]);
          assert Name("text") in structured.fields;
        } else {
          structured := parsed.value;
          if !structured.Dict? {
            return Some(NoGet(structured));
          }
          var field := if Name("tool_response") in structured.fields then structured.fields[Name("tool_response")] else List([]);
          if !Sized(field) {
            return Some(NoLen(field));
          }
        }
      } else if response.Dict? {
        structured := response;
      }
      if toolResponses.None? {
        toolResponses := Some([]);
      }
      toolResponses := Some(toolResponses.value + [ToolResponse(name, if Truthy(structured) then structured else response)]);
      raised := None;
    }

    /** `after_orchestrator_callback` */
    method AfterOrchestrator() returns (raised: Option<Failure>)
      requires Valid()
      modifies this
      ensures Valid()
      ensures toolCalls == old(toolCalls) && toolResponses == old(toolResponses)
      ensures match OrchestratorOutput(old(state), old(toolCalls).GetOr([]), old(toolResponses).GetOr([]))
              case Ok(v) => raised.None? && state == old(state)[AgentOutputKey := v]
              case Raised(f) => raised == Some(f) && state == old(state)
    {
      var summary := Get(state, AgentOutputKey, Str(""));
      var calls := toolCalls.GetOr([]);
      var responses := toolResponses.GetOr([]);
      var grouped: seq<Value> := [];
      for i := 0 to |calls|
        invariant state == old(state) && toolCalls == old(toolCalls) && toolResponses == old(toolResponses)
        invariant Grouped(calls[..i], responses) == Ok(grouped)
      {
        var call := calls[i];
        assert calls[..i + 1][..i] == calls[..i];
        var found: Option<ToolResponse> := None;
        var j := 0;
        while j < |responses|
          invariant 0 <= j <= |responses|
          invariant found.None? ==> FindResponse(call.toolName, responses) == FindResponse(call.toolName, responses[j..])
        {
          if responses[j].toolName == call.toolName {
            found := Some(responses[j]);
            break;
          }
          assert responses[j..][1..] == responses[j + 1..];
          j := j + 1;
        }
        assert found == FindResponse(call.toolName, responses);
        if found.None? {
          continue;
        }
        var merged := MergeData(call.toolName, found.value.response);
        if merged.Raised? {
          GroupedStaysRaised(calls, responses, i + 1);
          return Some(merged.failure);
        }
        grouped := grouped + [Dict(map[
          Name("tool_name") := Str(call.toolName),
          Name("tool_input") := Str(call.input),
          Name("tool_metadata") := Dict(Metadata(call.toolName))] + merged.value)];
      }
      assert calls[..|calls|] == calls;
      var groundingMetadata := Get(state, GroundingMetadataKey, Null);
      assert AgentOutputKey[0] != 't';
      state := state[AgentOutputKey := Dict(map[
        Name("summary") := summary,
        Name("tool_response") := List(grouped),
        Name("grounding_metadata") := groundingMetadata])];
      raised := None;
    }

    /** `collect_search_sources_callback`: walks the session events and writes
        `grounding_metadata` only when something was collected. */
    method CollectSearchSources(events: seq<Event>)
      requires Valid()
      modifies this
      ensures Valid()
      ensures toolCalls == old(toolCalls) && toolResponses == old(toolResponses)
      ensures !AnyGrounding(events) ==> state == old(state)
      ensures AnyGrounding(events) ==>
              exists queries :: && Distinct(queries)
                                && (set q | q in queries) == (set q | q in Queries(events))
                                && state == old(state)[GroundingMetadataKey := GroundingValue(events, queries)]
    {
      var sources: seq<Value> := [];
      var webSearchQueries: seq<string> := [];
      var searchEntryPoint: Option<Value> := None;
      var groundingSupports: seq<Value> := [];
      for i := 0 to |events|
        invariant state == old(state) && toolCalls == old(toolCalls) && toolResponses == old(toolResponses)
        invariant sources == Sources(events[..i])
        invariant groundingSupports == Supports(events[..i])
        invariant webSearchQueries == Queries(events[..i])
        invariant searchEntryPoint == LastEntryPoint(events[..i])
      {
        assert events[..i + 1][..i] == events[..i];
        if events[i].groundingMetadata.None? {
          continue;
        }
        var g := events[i].groundingMetadata.value;
        sources := AppendWebSources(sources, g.groundingChunks);
        groundingSupports := AppendSegmentSupports(groundingSupports, g.groundingSupports);
        webSearchQueries := webSearchQueries + g.webSearchQueries;
        if g.searchEntryPoint.Some? {
          searchEntryPoint := Some(EntryValue(g.searchEntryPoint.value));
        }
      }
      assert events[..|events|] == events;
      if sources != [] || webSearchQueries != [] || searchEntryPoint.Some? || groundingSupports != [] {
        var queries := Deduplicate(webSearchQueries);
        assert GroundingMetadataKey[0] != 't';
        state := state[GroundingMetadataKey := Dict(map[
          Name("sources") := List(sources),
          Name("web_search_queries") := List(seq(|queries|, k requires 0 <= k < |queries| => Str(queries[k]))),
          Name("search_entry_point") := searchEntryPoint.GetOr(Null),
          Name("grounding_supports") := List(groundingSupports)])];
        assert state == old(state)[GroundingMetadataKey := GroundingValue(events, queries)];
      }
    }
  }
}
