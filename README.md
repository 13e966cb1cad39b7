# Response normalisation and session bookkeeping of the healthcare data-analytics agents

This project models, in Dafny, the layer that sits between the orchestrator
agent, its three data sub-agents (patient, medication inventory, PBM claims)
and the conversational analytics backend:

- **The response classifier** (`DataAgentHelper`, after `src/agents/data_agent_helper.py`).
  `show_message` sends each streamed system message to the text, schema,
  data or chart handler, and each handler returns a dictionary with at most
  one key. The model covers:
  - datasource naming with its three-way fallback;
  - the row-to-column pivot of a data result, followed by pandas'
    `DataFrame(d).to_dict()`;
  - the recursive conversion of a chart's vega configuration.
- **The session callbacks** (`Callback`, after `src/agents/callback.py`).
  `Callback.Session` is a class whose fields are the session state and the
  two ledgers, `tool_calls` and `tool_responses`. Each callback is a method
  that updates those fields. The callbacks are:
  - the per-sub-agent merge into `{summary, tool_response}`;
  - the lazy conversation id;
  - the turn reset;
  - the ledger appends;
  - the parsing of a tool's response;
  - the orchestrator's grouping of calls with responses;
  - the search-grounding collector, which is the one part of the callbacks
    kept in its own module, `Grounding`.
- **The PBM data tool** (`PbmDataAgent`, after `src/agents/pbm_data_agent.py`).
  It covers the conversation id and created-flag protocol, the filtering of
  the streamed answer, and the error payload. The backend is a class whose
  two methods give back any answer and record every request in a ghost log.

`Values` holds the Python values these layers exchange. These are JSON-like
scalars, lists and dictionaries (keys are strings, or row indices of a
pandas column). It also holds the exceptions the code can raise, as a
`Result` type.

## Behaviour of the code worth noting

- **A falsy merge.** The sub-agent merge stores `tool_response: []` whenever
  the merged dictionary is empty. This covers a list of empty dicts as well
  as an empty list (`src/agents/callback.py:84`).
- **Valid JSON that is not a dict.** A tool's string response can be valid
  JSON without being a dictionary, for example `"42"` or `"[1]"`. The
  callback then calls `.get` on it and raises AttributeError. Only invalid
  JSON takes the text fallback (`src/agents/callback.py:364`). A `tool_response` field
  without a length raises TypeError there too. `StoredResponse`,
  `Session.AfterTool` and `MergeTarget` return these exceptions as `Raised`.
- **Data results are keyed by row index.** A data result is returned as
  pandas' default `to_dict()` of the column lists, which is
  `{field: {0: v0, 1: v1, …}}` (`src/agents/data_agent_helper.py:82`). Ragged columns raise
  `ValueError("All arrays must be of the same length")`. A row without a
  schema field raises KeyError.
- **Eight fragment keys.** A classified message can carry any of eight keys,
  listed in `FragmentKeys`.
- **A null inside a chart fails the message.** `_value_to_dict` hands every
  leaf that is not a map, a repeated field or a scalar to `MessageToDict`.
  A JSON null in the vega configuration arrives as Python `None`, so
  `MessageToDict(None)` raises AttributeError
  (`src/agents/data_agent_helper.py:86-94`). A chart result without a
  `vega_config` reads back as `None` too, and `_map_to_dict(None)` raises
  TypeError (`src/agents/data_agent_helper.py:98,108-109`). In both cases
  the chat tool answers with the error payload for the whole turn.
- **Create failures propagate.** A failed `create_conversation` is not
  caught: it lies outside the `try` (`src/agents/pbm_data_agent.py:70`).
  Only exceptions of the chat stream and of the classifier become the
  `{status: "error", error_message}` payload.
- **The turn reset.** It empties only the ledgers that exist. An absent
  ledger stays absent.
- **Running the merger twice.** The orchestrator reads its summary from
  `agent_output` and then overwrites that key. A second run over the same
  ledgers therefore wraps the first output as the new summary
  (`OrchestratorRerun`).

## Model

| member | source | states |
|---|---|---|
| DataAgentHelper.HandleTextResponse | src/agents/data_agent_helper.py:33-34 | the text handler returns the single key `text`, holding a string as long as the concatenation of the parts |
| DataAgentHelper.JoinAppend | src/agents/data_agent_helper.py:33-34 | joining the parts of two lists is joining each and concatenating |
| DataAgentHelper.JoinPart | src/agents/data_agent_helper.py:33-34 | every part appears unchanged in the joined text, right after the parts before it |
| DataAgentHelper.ResolveDatasourceNames | src/agents/data_agent_helper.py:40-48 | one name per datasource, in input order: the studio id, else `lookmlModel: M, explore: E`, else `project.dataset.table` |
| DataAgentHelper.HandleSchemaResponse | src/agents/data_agent_helper.py:36-50 | the schema handler returns `{query: question}`, else `{schema_resolved: {datasources}}`, else `{}` |
| DataAgentHelper.SchemaDatasources | src/agents/data_agent_helper.py:39-49 | a resolved schema holds only `schema_resolved`, whose list has one name per datasource, in order |
| DataAgentHelper.FieldNames | src/agents/data_agent_helper.py:74 | the field names are the schema fields' names, in schema order |
| DataAgentHelper.MissingInNone | src/agents/data_agent_helper.py:77-81 | no lookup fails for a row exactly when the row has every schema field |
| DataAgentHelper.FirstMissingNone | src/agents/data_agent_helper.py:76-81 | no lookup fails exactly when every row has every schema field |
| DataAgentHelper.MissingInStays | src/agents/data_agent_helper.py:77-81 | the row's first failing lookup is the one in the prefix of the fields that already fails |
| DataAgentHelper.FirstMissingStays | src/agents/data_agent_helper.py:76-81 | the first failing lookup over all rows is the one found in the prefix of the rows that already fails |
| DataAgentHelper.AddRowKeys | src/agents/data_agent_helper.py:77-81 | one pass over the fields adds exactly the field names to the column dictionary |
| DataAgentHelper.AddRowCell | src/agents/data_agent_helper.py:77-81 | one pass over the fields appends the row's cell to a field's column once per occurrence of the field name, after the cells already there |
| DataAgentHelper.PivotedColumns | src/agents/data_agent_helper.py:75-81 | after all rows, there is a column exactly for each field name (none when there are no rows), holding each row's cell in row order, repeated per occurrence of the name |
| DataAgentHelper.PivotedIsColumns | src/agents/data_agent_helper.py:75-81 | the looped pivot equals the closed-form column dictionary |
| DataAgentHelper.PivotRows | src/agents/data_agent_helper.py:74-81 | the nested loops give the column dictionary or the KeyError of the first failing lookup, rows outer and fields inner |
| DataAgentHelper.AddCells | src/agents/data_agent_helper.py:77-81 | the inner loop returns the first field the row lacks, and when there is none it appends every cell |
| DataAgentHelper.ToDict | src/agents/data_agent_helper.py:82 | `DataFrame(d).to_dict()` raises exactly when two columns differ in length; otherwise it maps each field to its column keyed by row index |
| DataAgentHelper.NotRagged | src/agents/data_agent_helper.py:82 | columns of one common length produce a table |
| DataAgentHelper.IndexMapKeys | src/agents/data_agent_helper.py:82 | a converted column is keyed by exactly the row indices 0..n-1 |
| DataAgentHelper.TableOf | src/agents/data_agent_helper.py:82 | columns holding one cell per row become a table whose keys are the field names, with cell i of each column being row i's value |
| DataAgentHelper.HandleDataResponse | src/agents/data_agent_helper.py:52-83 | the data handler checks `query`, then `generated_sql`, then `result`, then returns `{}`, and returns what the specification function gives |
| DataAgentHelper.ColumnOfSize | src/agents/data_agent_helper.py:76-81 | a field named m times has a column of m cells per row |
| DataAgentHelper.ColumnOfOnce | src/agents/data_agent_helper.py:76-81 | a field named once has one cell per row, in row order |
| DataAgentHelper.PivotDistinct | src/agents/data_agent_helper.py:73-81 | with distinct names and all cells present, each column has one value per row, in row order |
| DataAgentHelper.DataKeyError | src/agents/data_agent_helper.py:73-82 | a data result raises KeyError exactly when some row lacks some schema field, and then names the first missing field, rows outer and fields inner |
| DataAgentHelper.DataNoRows | src/agents/data_agent_helper.py:73-82 | without rows the table is the empty dictionary |
| DataAgentHelper.DataTable | src/agents/data_agent_helper.py:73-82 | distinct fields, all cells present and at least one row give `{data_retrieved: table}`; the table is keyed by the field names, each column keyed 0..n-1, and cell i is row i's value |
| DataAgentHelper.DataRagged | src/agents/data_agent_helper.py:73-82 | with at least one row, two field names occurring a different number of times give ragged columns, so pandas raises |
| DataAgentHelper.ValueToDictShape | src/agents/data_agent_helper.py:86-94 | a successful conversion keeps a map's keys and a list's length; int, float, str and bool pass through unchanged; None raises the AttributeError of `MessageToDict(None)`, which is the only exception |
| DataAgentHelper.ValueToDictRaises | src/agents/data_agent_helper.py:86-103 | the conversion raises exactly when a None is nested somewhere in the value |
| DataAgentHelper.ConvertEntries | src/agents/data_agent_helper.py:96-103 | a converted map has exactly the keys of the proto map, and a failed one raises the AttributeError of `MessageToDict(None)` |
| DataAgentHelper.MapToDict | src/agents/data_agent_helper.py:96-103 | the loop that fills `out` key by key computes the converted map, or stops at the first value that cannot be converted |
| DataAgentHelper.EntryToDict | src/agents/data_agent_helper.py:99-102 | a nested map goes through the recursive call, and anything else goes through the value conversion; both give the same result |
| DataAgentHelper.ValueToDictRoundTrip | src/agents/data_agent_helper.py:86-103 | a structure without None and without opaque messages converts without an exception and can be read back from its conversion unchanged: keys, order and length of lists, and scalars |
| DataAgentHelper.EntriesRoundTrip | src/agents/data_agent_helper.py:96-103 | a converted map reads back as the original map when each value does |
| DataAgentHelper.HandleChartResponse | src/agents/data_agent_helper.py:85-111 | `{chart_query: instructions}`, else for a result the TypeError of an unset configuration, the conversion's exception or `{chart_result: converted configuration}`, else `{}` |
| DataAgentHelper.ChartRaises | src/agents/data_agent_helper.py:104-109 | a chart result whose configuration is unset raises the TypeError of iterating None; a set configuration raises exactly when some value holds a None, and then raises the AttributeError of `MessageToDict(None)` |
| DataAgentHelper.Classify | src/agents/data_agent_helper.py:113-123 | every classified message has at most one key, drawn from the eight fragment keys; only a data result or a chart result can raise |
| DataAgentHelper.ShowMessage | src/agents/data_agent_helper.py:113-123 | the dispatch tries text, schema, data and chart in that order, and returns `{}` for any other shape |
| Grounding.SupportValue | src/agents/callback.py:563-570 | a support record always has `grounding_chunk_indices`, which is `[]` when the indices are unset |
| Grounding.AppendWebSources | src/agents/callback.py:550-557 | the chunk loop appends the source of each chunk that has a web source, in order |
| Grounding.AppendSegmentSupports | src/agents/callback.py:560-570 | the support loop appends each support that has a segment, in order |
| Grounding.Deduplicate | src/agents/callback.py:585 | the deduplicated queries have no repeats and the same elements as all queries seen |
| Grounding.SourcesAppend | src/agents/callback.py:545-557 | sources of later events follow those of earlier events; no source is dropped or merged |
| Grounding.SupportsAppend | src/agents/callback.py:545-570 | supports of later events follow those of earlier events |
| Grounding.QueriesAppend | src/agents/callback.py:572-574 | queries accumulate in event order |
| Grounding.WebSourcesMembers | src/agents/callback.py:551-557 | a record is a source of an event exactly when one of its chunks has that web source |
| Grounding.SourcesMembers | src/agents/callback.py:545-557 | a record is collected exactly when some event with metadata has a web chunk with that source |
| Grounding.LastEntryPointWins | src/agents/callback.py:576-580 | the stored entry point is that of the last event with one, and there is none exactly when no event has one |
| Callback.MergeDictItems | src/agents/callback.py:78-81 | the update loop computes the left-to-right union of the dict items |
| Callback.UnionKeys | src/agents/callback.py:78-81 | a key is in the union exactly when some dict item has it; non-dict items contribute nothing |
| Callback.UnionLastWins | src/agents/callback.py:78-81 | for each key, the union holds the value of the last dict item that has the key |
| Callback.UnionEmpty | src/agents/callback.py:78-84 | the union is empty, so `tool_response` is `[]`, exactly when every dict item is empty |
| Callback.Session.AfterSubAgent | src/agents/callback.py:67-90 | stores exactly `{summary: prior output or '', tool_response: [merged] or []}` under the agent's output key and changes nothing else; a response list that cannot be iterated raises and leaves the state as it was |
| Callback.ConversationIdStable | src/agents/callback.py:113-120 | after the check an id is present; an existing id is never replaced, no other key changes, and a second check changes nothing |
| Callback.Session.CheckBeforeTool | src/agents/callback.py:112-120 | stores the fresh id only when the current one is missing or falsy |
| Callback.Session.BeforeAgent | src/agents/callback.py:297-306 | present ledgers become empty, absent ones are not created, and the rest of the state is untouched |
| Callback.AppendCall | src/agents/callback.py:327-333 | the call ledger is initialised if absent, grows by one, and keeps earlier entries unchanged |
| Callback.AppendCallOrder | src/agents/callback.py:327-333 | calls recorded one after another stay in call order |
| Callback.Session.BeforeTool | src/agents/callback.py:326-333 | appends exactly one `{tool_name, input}` record and touches nothing else |
| Callback.StoredResponseCases | src/agents/callback.py:359-383 | a non-string response is stored as it is; invalid JSON is stored as `{'text': raw}`; a falsy parse falls back to the raw response |
| Callback.Session.AfterTool | src/agents/callback.py:356-383 | appends exactly one `{tool_name, response}` holding the stored response, or raises and leaves the ledger as it was |
| Callback.FindResponseFirst | src/agents/callback.py:446-450 | a call is matched to the first response with its tool name, and to none exactly when no response has that name |
| Callback.MergeData | src/agents/callback.py:456-484 | the merge target follows the precedence: search text, union of a `tool_response` field, union of a list, a dict as it is, else `{}` |
| Callback.SubAgentRoundTrip | src/agents/callback.py:456-471 | when `loads` gives a sub-agent's record back from its JSON text, the record is stored as parsed and the merger recovers exactly the merged fragments |
| Callback.Spaced | src/agents/callback.py:488 | `replace('_', ' ')` keeps the length and changes exactly the underscores |
| Callback.TitleAt | src/agents/callback.py:488 | title case keeps the length and maps each character by its own case rule |
| Callback.TitleWords | src/agents/callback.py:488 | title case leaves non-letters alone and keeps each letter's identity; a letter is upper case exactly when no letter precedes it |
| Callback.MetadataShape | src/agents/callback.py:406-493 | every tool gets the five display fields and the three sub-agent registry entries are agents; an unknown tool gets the spaced, title-cased name, `query_stats`, `grey` and `Results from <name>`, and is a tool |
| Callback.WiredToolNames | src/agents/agent.py:43-114 | the orchestrator's tools carry their agents' names, so `patient_encounters_agent` and `pbm_agent` miss the registry and get the generic tool record; `medication_inventory_agent` is found as an agent |
| Callback.GroupedResult | src/agents/callback.py:496-501 | a grouped result holds every spread key with its value; the fixed keys are kept only where the spread data does not override them |
| Callback.GroupedStaysRaised | src/agents/callback.py:441-503 | once the merger raises on a call, the whole grouping raises the same |
| Callback.MatchedAppend | src/agents/callback.py:441-454 | matched calls keep call order |
| Callback.MatchedCount | src/agents/callback.py:441-454 | there are no more results than calls, and as many exactly when every call's tool has a response |
| Callback.GroupedMatched | src/agents/callback.py:441-503 | result k is the k-th matched call together with its spread data |
| Callback.OrchestratorRerun | src/agents/callback.py:397-514 | a second run over the same ledgers keeps the grouped results and grounding, and wraps the first output as its summary |
| Callback.Session.AfterOrchestrator | src/agents/callback.py:396-514 | stores exactly `{summary, tool_response: grouped results, grounding_metadata}` under `agent_output`, or raises with the state unchanged |
| Callback.Session.CollectSearchSources | src/agents/callback.py:538-588 | writes `grounding_metadata` only if something was collected; the sources and supports are in event order, the queries are deduplicated and the last entry point is kept |
| PbmDataAgent.DataChatBackend.CreateConversation | src/agents/pbm_data_agent.py:70 | the create call may fail, and the request is recorded together with its outcome |
| PbmDataAgent.DataChatBackend.ChatStream | src/agents/pbm_data_agent.py:101-105 | the chat gives some messages and then possibly an exception, and the request is recorded |
| PbmDataAgent.Classified | src/agents/pbm_data_agent.py:105-108 | message i of the stream is classified by `show_message` |
| PbmDataAgent.StatefulChat | src/agents/pbm_data_agent.py:47-119 | creates the conversation exactly when the id or the flag is missing, using the stored id or `conv-<uuid>`; a failed create raises with the state unchanged; after it the chat runs with the chosen id |
| PbmDataAgent.ChatTurn | src/agents/pbm_data_agent.py:100-119 | stores and returns the kept list, or returns the error payload and leaves the stored list unchanged |
| PbmDataAgent.CollectStream | src/agents/pbm_data_agent.py:104-111 | the loop keeps the non-empty classified messages in stream order, and the first exception of the classifier or the stream ends it |
| PbmDataAgent.TwoTurns | src/agents/pbm_data_agent.py:53-77 | when the first turn succeeds, two turns of one session issue at most one create |
| PbmDataAgent.CreatesAppend | src/agents/pbm_data_agent.py:53-77 | the creates of a log are those of its parts |
| PbmDataAgent.CreatesAtMostOneTurn | src/agents/pbm_data_agent.py:53-77 | one turn issues at most one create |
| PbmDataAgent.ConversationSettles | src/agents/pbm_data_agent.py:53-77 | an existing id is reused as it is and a fresh one is never empty; after a create both markers are set, so later turns reuse the same id without creating again |
| PbmDataAgent.KeepStep | src/agents/pbm_data_agent.py:105-110 | one more message ends the loop with its exception, keeps a non-empty fragment, or skips an empty one |
| PbmDataAgent.KeepStaysRaised | src/agents/pbm_data_agent.py:105-110 | once the classifier raises, the rest of the stream does not matter |
| PbmDataAgent.KeepNonEmpty | src/agents/pbm_data_agent.py:108-110 | the kept list holds only non-empty dicts, at most one per message, and the loop raises exactly when some message raises |
| PbmDataAgent.KeepAppend | src/agents/pbm_data_agent.py:105-110 | the kept fragments of two pieces of a stream are concatenated in order |
| PbmDataAgent.CollectKeepsNonEmpty | src/agents/pbm_data_agent.py:104-111 | over a stream, only non-empty fragments are kept, and the classifier's exceptions are the only way the loop raises |
| PbmDataAgent.CollectAppend | src/agents/pbm_data_agent.py:104-111 | splitting a stream splits the kept list |

## Left out

- The network clients are not modelled. `DataChatServiceClient` is a class
  whose methods give back any answer. The admin client and the Secret
  Manager wrappers (`src/agents/ca_api_helper.py`, `src/agents/utils_gcp.py`,
  the scripts) are not part of this model.
- `uuid.uuid4()` and `str(args)` are parameters of the methods that use
  them.
- `json.loads` is a parameter `string -> Option<Value>`, with None for
  invalid JSON.
- `MessageToDict` is an opaque leaf: the proto message carries the
  dictionary it would give. JSON and `types.Content` serialisation are left
  out. The returned `Content` of the after-agent callbacks is the same
  record as the one stored in the state.
- `check_before_agent` and `check_after_tool` only log; all logging is left
  out.
- `src/agents/prompt.py`, the configuration modules, `src/agents/agent.py`
  and `src/agents/utils_google_logging.py` are not part of this model. They
  are constants, agent wiring and logging setup. One fact of the wiring is
  kept: each orchestrator tool is named after its agent
  (`src/agents/agent.py:46,80,111-114`). So the registry of
  `src/agents/callback.py:406-436` misses `patient_encounters_agent` and
  `pbm_agent`. Those two sub-agents are shown with the generic tool record
  ("Patient Encounters Agent", "Pbm Agent", `query_stats`, `grey`, type
  `tool`). `WiredToolNames` states this.
- The patient and medication chat tools are not part of this model: their
  source is not available. Their callbacks are modelled, since all three
  sub-agents share them through `SubAgent`.
- `if tool_context:` is taken to be true.
- Python dictionaries keep insertion order and Dafny maps do not, so the
  key order of every stored dictionary is not modelled.
- Floats are exact reals, and no arithmetic is done on them.
- pandas dtype coercion is not modelled: a None cell is not turned into
  NaN, and integer columns are not widened.
- Callback.Title: `str.title()` is modelled on ASCII letters only.
- Values.Message: the quoting of a KeyError key follows `repr` only for keys
  without quotes.
- Callback.Session.CollectSearchSources: the order of the deduplicated
  queries is not stated, because the order of `list(set(...))` is
  unspecified. The contract says only that there are no duplicates and that
  the element set is the same.
- Callback.Session: the two ledgers are typed records kept apart from the
  other state keys. `Valid` keeps the ledger keys out of the state map.
  Values of other shapes stored under the ledger keys by code outside this
  model are not represented.
- PbmDataAgent.StatefulChat: requires that a stored conversation id is a
  string. Only the modelled code writes that key, and it writes only
  strings.
- PbmDataAgent.DataChatBackend.ChatStream: a stream that fails part-way is
  modelled as the messages it delivered followed by the exception. The
  model does not capture when the failure happens relative to the
  classification.
- DataAgentHelper.HandleTextResponse: its own contract gives the text's
  length. The full text is characterised by `JoinAppend` and `JoinPart`.
- Callback.SubAgentRoundTrip: `loads` is any function, so the lemma assumes
  it gives the record back. A real `json.dumps`/`json.loads` round trip
  turns integer keys into strings. The row indices of a data table
  (`Index(i)`) therefore reach the orchestrator as `Name("0")`, `Name("1")`,
  … and the record does not arrive unchanged. The abstract `loads` could
  also return `Index` keys, which `json.loads` never does.
- PbmDataAgent.StatefulChat: constructing `DataChatServiceClient()`
  (`src/agents/pbm_data_agent.py:49`) is not modelled as a step that can
  fail. In the code it can raise before the `try`, and that exception
  propagates.
- DataAgentHelper.ValueToDict: that a JSON null in the vega configuration,
  or an unset configuration, arrives as `None` follows the proto-plus marshalling of `Struct` values.
  This is library behaviour outside the repository.
