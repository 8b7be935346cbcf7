/**
 * The routers that go with the string-status server: `index_mcp/routers/index.py`,
 * `index_mcp/routers/status.py` and the top-level `routers/search.py`. What the unmodelled
 * indexer answers (a chunk count, a list of rows, or the text of what it raised) is an input.
 */
module LegacyRouters {
  import opened Wrappers
  import LegacyServer

  /** An `HTTPException`. */
  datatype HttpError = HttpError(statusCode: nat, detail: string)

  // ---------------------------------------------------------------------------
  // POST /index  (index_mcp/routers/index.py)
  // ---------------------------------------------------------------------------

  datatype IndexRequest = IndexRequest(projectPath: string, forceReindex: bool)
  datatype ScanTask = ScanTask(projectPath: string, forceReindex: bool)
  datatype Accepted = Accepted(task: ScanTask, message: string)

  const SCAN_CONFLICT_DETAIL: string := "An indexing scan is already in progress."

  /**
   * `trigger_index`: only "Scanning" is refused (409); otherwise `_perform_scan` is
   * scheduled on the configured path, whatever path the request named.
   */
  function TriggerIndex(status: string, configured: string, request: IndexRequest): (r: Result<Accepted, HttpError>)
    ensures r.Failure? <==> status == LegacyServer.SCANNING
    ensures r.Failure? ==> r.error == HttpError(409, SCAN_CONFLICT_DETAIL)
    ensures r.Success? ==> r.value.task == ScanTask(configured, request.forceReindex)
    ensures r.Success? ==> r.value.message == "Indexing process initiated for " + configured + " in the background."
  {
    if status == LegacyServer.SCANNING then Failure(HttpError(409, SCAN_CONFLICT_DETAIL))
    else Success(Accepted(ScanTask(configured, request.forceReindex),
      "Indexing process initiated for " + configured + " in the background."))
  }

  /** A scheduled scan, run while the status is still the one the router saw, starts ("Error" and "Idle" included). */
  lemma ScheduledScanStarts(f: LegacyServer.LegacyFields, configured: string, request: IndexRequest, now: int)
    requires TriggerIndex(f.status, configured, request).Success?
    ensures var task := TriggerIndex(f.status, configured, request).value.task;
      LegacyServer.BeginScan(f, configured, task.projectPath, now).1
  {
  }

  // ---------------------------------------------------------------------------
  // GET /status/{project_path}  (index_mcp/routers/status.py)
  // ---------------------------------------------------------------------------

  /** An `IndexingStatusResponse`; fields left at their default are None. */
  datatype StatusResponse = StatusResponse(
    projectPath: string,
    status: string,
    lastScanStartTime: Option<int>,
    lastScanEndTime: Option<int>,
    indexedChunkCount: Option<nat>,
    errorMessage: Option<string>)

  const NOT_FOUND: string := "Not Found"
  const INVALID_PATH: string := "Invalid project path provided: "
  const NOT_MANAGED: string := "Status requested for a path not managed by this server instance."
  const COUNT_FAILED: string := "Failed to retrieve chunk count: "

  /** The statuses in which the index is not stable and no count is asked for. */
  predicate Unstable(status: string)
  {
    status == LegacyServer.INITIALIZING || status == LegacyServer.ERROR ||
    status == LegacyServer.SCANNING || status == LegacyServer.IDLE
  }

  /**
   * `get_indexing_status` over the server's fields, given `Path.resolve` (`resolve`: the
   * resolved path, or the text it raised) and what `get_indexed_chunk_count(project_path)`
   * returns or raises (`count`); the second component is `current_error` afterwards.
   */
  function Status(f: LegacyServer.LegacyFields, configured: string, requested: string,
                  resolve: string -> Result<string, string>, count: Result<nat, string>): (r: (StatusResponse, Option<string>))
    ensures resolve(requested).Failure? || resolve(configured).Failure? ==>
      r == (StatusResponse(requested, LegacyServer.ERROR, None, None, None, Some(INVALID_PATH + requested)), f.currentError)
    ensures resolve(requested).Success? && resolve(configured).Success? && resolve(requested).value != resolve(configured).value ==>
      r == (StatusResponse(requested, NOT_FOUND, None, None, None, Some(NOT_MANAGED)), f.currentError)
    ensures resolve(requested).Success? && resolve(configured).Success? && resolve(requested).value == resolve(configured).value ==>
      var (resp, err) := r;
      resp.projectPath == configured && resp.status == f.status &&
      resp.lastScanStartTime == f.lastScanStartTime && resp.lastScanEndTime == f.lastScanEndTime &&
      resp.errorMessage == err &&
      (resp.indexedChunkCount.Some? <==> !Unstable(f.status) && count.Success?) &&
      (resp.indexedChunkCount.Some? ==> resp.indexedChunkCount == Some(count.value)) &&
      err == (if !Unstable(f.status) && count.Failure? then Some(COUNT_FAILED + count.error) else f.currentError)
  {
    var rq := resolve(requested);
    var sv := resolve(configured);
    if rq.Failure? || sv.Failure? then
      (StatusResponse(requested, LegacyServer.ERROR, None, None, None, Some(INVALID_PATH + requested)), f.currentError)
    else if rq.value != sv.value then
      (StatusResponse(requested, NOT_FOUND, None, None, None, Some(NOT_MANAGED)), f.currentError)
    else
      var chunkCount := if !Unstable(f.status) && count.Success? then Some(count.value) else None;
      var err := if !Unstable(f.status) && count.Failure? then Some(COUNT_FAILED + count.error) else f.currentError;
      (StatusResponse(configured, f.status, f.lastScanStartTime, f.lastScanEndTime, chunkCount, err), err)
  }

  /** `get_indexing_status` on the server: a failed count is written back to its `current_error`. */
  method GetIndexingStatus(server: LegacyServer.MCPServer, requested: string,
                           resolve: string -> Result<string, string>, count: Result<nat, string>) returns (resp: StatusResponse)
    modifies server
    ensures var (expected, err) := Status(old(server.Fields()), server.projectPath, requested, resolve, count);
      resp == expected && server.Fields() == old(server.Fields()).(currentError := err)
    ensures server.calls == old(server.calls)
  {
    var rq := resolve(requested);
    var sv := resolve(server.projectPath);
    if rq.Failure? || sv.Failure? {
      return StatusResponse(requested, LegacyServer.ERROR, None, None, None, Some(INVALID_PATH + requested));
    }
    if rq.value != sv.value {
      return StatusResponse(requested, NOT_FOUND, None, None, None, Some(NOT_MANAGED));
    }
    var chunkCount: Option<nat> := None;
    if !Unstable(server.status) {
      match count {
        case Success(n) =>
          chunkCount := Some(n);
        case Failure(e) =>
          server.currentError := Some(COUNT_FAILED + e);
      }
    }
    return StatusResponse(server.projectPath, server.status, server.lastScanStartTime, server.lastScanEndTime,
      chunkCount, server.currentError);
  }

  // ---------------------------------------------------------------------------
  // POST /search  (routers/search.py)
  // ---------------------------------------------------------------------------

  const SEARCH_WHILE_SCANNING: string := "Search unavailable: Indexing is currently in progress."
  const SEARCH_AFTER_ERROR: string := "Search unavailable due to indexing error: "
  const SEARCH_NOT_BUILT: string := "Search unavailable: Index not yet built or server initializing."
  const SEARCH_FAILED: string := "Search failed: "

  /** `str()` of an optional message, as an f-string renders it. */
  function Rendered(m: Option<string>): string
  {
    if m.Some? then m.value else "None"
  }

  /** The status refusals of `search_documents`. */
  function SearchGate(status: string, currentError: Option<string>): (e: Option<HttpError>)
    ensures status == LegacyServer.SCANNING ==> e == Some(HttpError(409, SEARCH_WHILE_SCANNING))
    ensures status == LegacyServer.ERROR ==> e == Some(HttpError(503, SEARCH_AFTER_ERROR + Rendered(currentError)))
    ensures status == LegacyServer.INITIALIZING || status == LegacyServer.IDLE ==> e == Some(HttpError(503, SEARCH_NOT_BUILT))
    ensures e.None? <==> !Unstable(status)
  {
    if status == LegacyServer.SCANNING then Some(HttpError(409, SEARCH_WHILE_SCANNING))
    else if status == LegacyServer.ERROR then Some(HttpError(503, SEARCH_AFTER_ERROR + Rendered(currentError)))
    else if status == LegacyServer.INITIALIZING || status == LegacyServer.IDLE then Some(HttpError(503, SEARCH_NOT_BUILT))
    else None
  }

  /**
   * A row's `metadata_json`: absent or None, a string, or a value of another type
   * (`falsy` says whether Python's truth test rejects it).
   */
  datatype MetadataJson = JsonAbsent | JsonText(text: string) | JsonOther(falsy: bool)

  /** One row as the indexer's `search` hands it over. */
  datatype RawDoc = RawDoc(
    documentId: string,
    filePath: string,
    contentHash: string,
    lastModified: int,
    text: string,
    metadataJson: MetadataJson)

  /** The parsed metadata: `{}`, the value `json.loads` read from this text, or the error marker. */
  datatype Metadata = EmptyObject | Decoded(source: string) | InvalidMarker

  datatype SearchResultItem = SearchResultItem(
    documentId: string,
    filePath: string,
    contentHash: string,
    lastModified: int,
    text: string,
    metadata: Metadata)

  /**
   * The metadata rule: a missing or falsy value gives `{}`; a string that `json.loads`
   * accepts (`decodes`) gives its value; a string it rejects (JSONDecodeError) or a
   * value of another type (TypeError) gives `{"error": "invalid or missing metadata format"}`.
   */
  function ParseMetadata(m: MetadataJson, decodes: string -> bool): (p: Metadata)
    ensures p == EmptyObject <==> m.JsonAbsent? || m == JsonText("") || m == JsonOther(true)
    ensures p.Decoded? <==> m.JsonText? && m.text != "" && decodes(m.text)
    ensures p.Decoded? ==> p.source == m.text
  {
    match m
    case JsonAbsent => EmptyObject
    case JsonText(s) => if s == "" then EmptyObject else if decodes(s) then Decoded(s) else InvalidMarker
    case JsonOther(falsy) => if falsy then EmptyObject else InvalidMarker
  }

  function ReshapedDoc(d: RawDoc, decodes: string -> bool): SearchResultItem
  {
    SearchResultItem(d.documentId, d.filePath, d.contentHash, d.lastModified, d.text, ParseMetadata(d.metadataJson, decodes))
  }

  /**
   * `search_documents`: the status refusals, then one item per row in order with the
   * fields copied and the metadata parsed; a failing search (`found.Failure?`, its text)
   * is 500 "Search failed: …".
   */
  method SearchDocuments(status: string, currentError: Option<string>, found: Result<seq<RawDoc>, string>,
                         decodes: string -> bool) returns (r: Result<seq<SearchResultItem>, HttpError>)
    ensures SearchGate(status, currentError).Some? ==> r == Failure(SearchGate(status, currentError).value)
    ensures SearchGate(status, currentError).None? && found.Failure? ==> r == Failure(HttpError(500, SEARCH_FAILED + found.error))
    ensures SearchGate(status, currentError).None? && found.Success? ==>
      r.Success? && |r.value| == |found.value| &&
      forall i :: 0 <= i < |found.value| ==> r.value[i] == ReshapedDoc(found.value[i], decodes)
  {
    var gate := SearchGate(status, currentError);
    if gate.Some? {
      return Failure(gate.value);
    }
    if found.Failure? {
      return Failure(HttpError(500, SEARCH_FAILED + found.error));
    }
    var raw := found.value;
    var items: seq<SearchResultItem> := [];
    var i := 0;
    while i < |raw|
      invariant 0 <= i <= |raw|
      invariant |items| == i
      invariant forall j :: 0 <= j < i ==> items[j] == ReshapedDoc(raw[j], decodes)
    {
      var d := raw[i];
      var metadata := ParseMetadata(d.metadataJson, decodes);
      items := items + [SearchResultItem(d.documentId, d.filePath, d.contentHash, d.lastModified, d.text, metadata)];
      i := i + 1;
    }
    return Success(items);
  }
}
