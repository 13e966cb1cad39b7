/** The grounding metadata that search results attach to session events, and
    what the search-sources callback collects from them: web sources and
    citation supports in event order, every search query, and the last
    search entry point. */
module Grounding {
  import opened Values

  datatype WebSource = WebSource(uri: Option<string>, title: Option<string>, domain: Option<string>)

  /** A grounding chunk; `web` is absent for non-web chunks. */
  datatype GroundingChunk = GroundingChunk(web: Option<WebSource>)

  datatype Segment = Segment(startIndex: Option<int>, endIndex: Option<int>, text: Option<string>)

  datatype GroundingSupport = GroundingSupport(segment: Option<Segment>, groundingChunkIndices: Option<seq<int>>)

  datatype SearchEntryPoint = SearchEntryPoint(renderedContent: Option<string>)

  /** The metadata of one event; an empty sequence is a repeated field left unset. */
  datatype GroundingInfo = GroundingInfo(
    groundingChunks: seq<GroundingChunk>,
    groundingSupports: seq<GroundingSupport>,
    webSearchQueries: seq<string>,
    searchEntryPoint: Option<SearchEntryPoint>)

  /** A session event, reduced to its grounding metadata. */
  datatype Event = Event(groundingMetadata: Option<GroundingInfo>)

  // ---------------------------------------------------------------------
  // The stored records
  // ---------------------------------------------------------------------

  function SourceValue(w: WebSource): Value {
    Dict(map[Name("uri") := OptStr(w.uri), Name("title") := OptStr(w.title), Name("domain") := OptStr(w.domain)])
  }

  /** A support record; unset chunk indices become the empty list. */
  function SupportValue(seg: Segment, indices: Option<seq<int>>): (r: Value)
    ensures r.Dict? && Name("grounding_chunk_indices") in r.fields
    ensures indices.None? ==> r.fields[Name("grounding_chunk_indices")] == List([])
  {
    var ids := indices.GetOr([]);
    var items := seq(|ids|, i requires 0 <= i < |ids| => Int(ids[i]));
    assert ids == [] ==> items == [];
    Dict(map[
      Name("segment") := Dict(map[
        Name("start_index") := OptInt(seg.startIndex),
        Name("end_index") := OptInt(seg.endIndex),
        Name("text") := OptStr(seg.text)]),
      Name("grounding_chunk_indices") := List(items)])
  }

  function EntryValue(e: SearchEntryPoint): Value {
    Dict(map[Name("rendered_content") := OptStr(e.renderedContent)])
  }

  // ---------------------------------------------------------------------
  // What the collectors hold after a prefix of the events
  // ---------------------------------------------------------------------

  /** The source records of the chunks that have a web source, in order. */
  function WebSources(chunks: seq<GroundingChunk>): seq<Value> {
    if chunks == [] then []
    else
      var last := chunks[|chunks| - 1];
      WebSources(chunks[..|chunks| - 1]) + (if last.web.Some? then [SourceValue(last.web.value)] else [])
  }

  /** The support records of the supports that have a segment, in order. */
  function SegmentSupports(supports: seq<GroundingSupport>): seq<Value> {
    if supports == [] then []
    else
      var last := supports[|supports| - 1];
      SegmentSupports(supports[..|supports| - 1])
        + (if last.segment.Some? then [SupportValue(last.segment.value, last.groundingChunkIndices)] else [])
  }

  function Sources(events: seq<Event>): seq<Value> {
    if events == [] then []
    else
      var g := events[|events| - 1].groundingMetadata;
      Sources(events[..|events| - 1]) + (if g.Some? then WebSources(g.value.groundingChunks) else [])
  }

  function Supports(events: seq<Event>): seq<Value> {
    if events == [] then []
    else
      var g := events[|events| - 1].groundingMetadata;
      Supports(events[..|events| - 1]) + (if g.Some? then SegmentSupports(g.value.groundingSupports) else [])
  }

  /** Every search query, before deduplication. */
  function Queries(events: seq<Event>): seq<string> {
    if events == [] then []
    else
      var g := events[|events| - 1].groundingMetadata;
      Queries(events[..|events| - 1]) + (if g.Some? then g.value.webSearchQueries else [])
  }

  predicate HasEntryPoint(e: Event) {
    e.groundingMetadata.Some? && e.groundingMetadata.value.searchEntryPoint.Some?
  }

  /** The entry point record of the last event that has one. */
  function LastEntryPoint(events: seq<Event>): Option<Value> {
    if events == [] then None
    else if HasEntryPoint(events[|events| - 1]) then
      Some(EntryValue(events[|events| - 1].groundingMetadata.value.searchEntryPoint.value))
    else LastEntryPoint(events[..|events| - 1])
  }

  /** At least one collector is non-empty, so the metadata is written. */
  predicate AnyGrounding(events: seq<Event>) {
    Sources(events) != [] || Queries(events) != [] || LastEntryPoint(events).Some? || Supports(events) != []
  }

  predicate Distinct(xs: seq<string>) {
    forall i, j :: 0 <= i < j < |xs| ==> xs[i] != xs[j]
  }

  /** The `grounding_metadata` record, with `queries` the deduplicated queries. */
  function GroundingValue(events: seq<Event>, queries: seq<string>): Value {
    Dict(map[
      Name("sources") := List(Sources(events)),
      Name("web_search_queries") := List(seq(|queries|, i requires 0 <= i < |queries| => Str(queries[i]))),
      Name("search_entry_point") := LastEntryPoint(events).GetOr(Null),
      Name("grounding_supports") := List(Supports(events))])
  }

  /** The chunk loop of the collector: appends the web sources in order. */
  method AppendWebSources(sources: seq<Value>, chunks: seq<GroundingChunk>) returns (r: seq<Value>)
    ensures r == sources + WebSources(chunks)
  {
    r := sources;
    for j := 0 to |chunks|
      invariant r == sources + WebSources(chunks[..j])
    {
      assert chunks[..j + 1][..j] == chunks[..j];
      if chunks[j].web.Some? {
        r := r + [SourceValue(chunks[j].web.value)];
      }
    }
    assert chunks[..|chunks|] == chunks;
  }

  /** The support loop of the collector: appends the supports that have a segment. */
  method AppendSegmentSupports(supports: seq<Value>, items: seq<GroundingSupport>) returns (r: seq<Value>)
    ensures r == supports + SegmentSupports(items)
  {
    r := supports;
    for j := 0 to |items|
      invariant r == supports + SegmentSupports(items[..j])
    {
      assert items[..j + 1][..j] == items[..j];
      if items[j].segment.Some? {
        r := r + [SupportValue(items[j].segment.value, items[j].groundingChunkIndices)];
      }
    }
    assert items[..|items|] == items;
  }

  // ---------------------------------------------------------------------
  // Deduplication: `list(set(queries))`
  // ---------------------------------------------------------------------

  /** Python's set gives no order; this keeps one occurrence of each query. */
  method Deduplicate(queries: seq<string>) returns (r: seq<string>)
    ensures Distinct(r)
    ensures (set q | q in r) == (set q | q in queries)
  {
    r := [];
    for i := 0 to |queries|
      invariant Distinct(r)
      invariant (set q | q in r) == (set q | q in queries[..i])
    {
      assert queries[..i + 1] == queries[..i] + [queries[i]];
      if queries[i] !in r {
        assert (set q | q in r + [queries[i]]) == (set q | q in r) + {queries[i]};
        r := r + [queries[i]];
      }
    }
    assert queries[..|queries|] == queries;
  }

  // ---------------------------------------------------------------------
  // Properties
  // ---------------------------------------------------------------------

  /** Sources from later events follow those of earlier ones; none is dropped or merged. */
  lemma {:induction false} SourcesAppend(a: seq<Event>, b: seq<Event>)
    ensures Sources(a + b) == Sources(a) + Sources(b)
    decreases |b|
  {
    if b == [] {
      assert a + b == a;
    } else {
      var init := b[..|b| - 1];
      assert (a + b)[..|a + b| - 1] == a + init;
      assert (a + b)[|a + b| - 1] == b[|b| - 1];
      SourcesAppend(a, init);
      var g := b[|b| - 1].groundingMetadata;
      var tail := if g.Some? then WebSources(g.value.groundingChunks) else [];
      calc {
        Sources(a + b);
        Sources(a + init) + tail;
        (Sources(a) + Sources(init)) + tail;
        Sources(a) + (Sources(init) + tail);
      }
    }
  }

  lemma {:induction false} SupportsAppend(a: seq<Event>, b: seq<Event>)
    ensures Supports(a + b) == Supports(a) + Supports(b)
    decreases |b|
  {
    if b == [] {
      assert a + b == a;
    } else {
      var init := b[..|b| - 1];
      assert (a + b)[..|a + b| - 1] == a + init;
      assert (a + b)[|a + b| - 1] == b[|b| - 1];
      SupportsAppend(a, init);
      var g := b[|b| - 1].groundingMetadata;
      var tail := if g.Some? then SegmentSupports(g.value.groundingSupports) else [];
      calc {
        Supports(a + b);
        Supports(a + init) + tail;
        (Supports(a) + Supports(init)) + tail;
        Supports(a) + (Supports(init) + tail);
      }
    }
  }

  lemma {:induction false} QueriesAppend(a: seq<Event>, b: seq<Event>)
    ensures Queries(a + b) == Queries(a) + Queries(b)
    decreases |b|
  {
    if b == [] {
      assert a + b == a;
    } else {
      var init := b[..|b| - 1];
      assert (a + b)[..|a + b| - 1] == a + init;
      assert (a + b)[|a + b| - 1] == b[|b| - 1];
      QueriesAppend(a, init);
      var g := b[|b| - 1].groundingMetadata;
      var tail := if g.Some? then g.value.webSearchQueries else [];
      calc {
        Queries(a + b);
        Queries(a + init) + tail;
        (Queries(a) + Queries(init)) + tail;
        Queries(a) + (Queries(init) + tail);
      }
    }
  }

  /** A record is a web source exactly when some chunk holds its web source. */
  lemma {:induction false} WebSourcesMembers(chunks: seq<GroundingChunk>, v: Value)
    ensures v in WebSources(chunks) <==>
            exists j :: 0 <= j < |chunks| && chunks[j].web.Some? && v == SourceValue(chunks[j].web.value)
    decreases |chunks|
  {
    if chunks != [] {
      var init := chunks[..|chunks| - 1];
      WebSourcesMembers(init, v);
      assert forall j :: 0 <= j < |init| ==> init[j] == chunks[j];
      if v in WebSources(chunks) && v !in WebSources(init) {
        assert v == SourceValue(chunks[|chunks| - 1].web.value);
      }
    }
  }

  /** A record is collected as a source exactly when some event with metadata
      has a web chunk with that source. */
  lemma {:induction false} SourcesMembers(events: seq<Event>, v: Value)
    ensures v in Sources(events) <==>
            exists i, j :: 0 <= i < |events| && events[i].groundingMetadata.Some?
                           && 0 <= j < |events[i].groundingMetadata.value.groundingChunks|
                           && events[i].groundingMetadata.value.groundingChunks[j].web.Some?
                           && v == SourceValue(events[i].groundingMetadata.value.groundingChunks[j].web.value)
    decreases |events|
  {
    if events != [] {
      var init := events[..|events| - 1];
      var last := events[|events| - 1];
      SourcesMembers(init, v);
      assert forall i :: 0 <= i < |init| ==> init[i] == events[i];
      if last.groundingMetadata.Some? {
        WebSourcesMembers(last.groundingMetadata.value.groundingChunks, v);
      }
      if v in Sources(events) && v !in Sources(init) {
        assert last.groundingMetadata.Some? && v in WebSources(last.groundingMetadata.value.groundingChunks);
        var j :| 0 <= j < |last.groundingMetadata.value.groundingChunks|
                 && last.groundingMetadata.value.groundingChunks[j].web.Some?
                 && v == SourceValue(last.groundingMetadata.value.groundingChunks[j].web.value);
        assert events[|events| - 1] == last;
      }
    }
  }

  /** The stored entry point is that of the last event carrying one, and
      there is none exactly when no event carries one. */
  lemma {:induction false} LastEntryPointWins(events: seq<Event>)
    ensures LastEntryPoint(events).None? <==> forall i :: 0 <= i < |events| ==> !HasEntryPoint(events[i])
    ensures LastEntryPoint(events).Some? ==>
            exists i :: 0 <= i < |events| && HasEntryPoint(events[i])
                        && LastEntryPoint(events) == Some(EntryValue(events[i].groundingMetadata.value.searchEntryPoint.value))
                        && forall k :: i < k < |events| ==> !HasEntryPoint(events[k])
    decreases |events|
  {
    if events != [] {
      var init := events[..|events| - 1];
      LastEntryPointWins(init);
      assert forall i :: 0 <= i < |init| ==> init[i] == events[i];
      if !HasEntryPoint(events[|events| - 1]) && LastEntryPoint(init).Some? {
        var i :| 0 <= i < |init| && HasEntryPoint(init[i])
                 && LastEntryPoint(init) == Some(EntryValue(init[i].groundingMetadata.value.searchEntryPoint.value))
                 && forall k :: i < k < |init| ==> !HasEntryPoint(init[k]);
        assert forall k :: i < k < |events| ==> !HasEntryPoint(events[k]) by {
          forall k | i < k < |events| ensures !HasEntryPoint(events[k]) {
            if k < |init| { assert events[k] == init[k]; }
          }
        }
      }
    }
  }
}
