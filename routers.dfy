/**
 * The HTTP routers of `vector_index_mcp/routers/`: which statuses each endpoint refuses and
 * with which code, what `trigger_index` schedules, how `search_documents` reshapes the
 * indexer's rows, and how `get_indexing_status` picks its error message.
 * A background task is returned as a value rather than run.
 */
module Routers {
  import opened Wrappers
  import Index
  import Server

  /** An `HTTPException`. */
  datatype HttpError = HttpError(statusCode: nat, detail: string)

  const INITIALIZING_DETAIL: string := "Server is initializing, please try again later."
  const SCAN_CONFLICT_DETAIL: string := "A scan is already in progress."
  const INTERNAL_ERROR_DETAIL: string := "Internal Server Error"

  /** The 500 detail for a server in ERROR: the stored exception when there is one. */
  function InitFailedDetail(initializationError: Option<string>): string
  {
    if initializationError.Some? then "Server initialization failed: " + initializationError.value
    else "Server initialization failed."
  }

  /** The refusals `trigger_index` and `search_documents` share: INITIALIZING and ERROR. */
  function ReadinessGate(f: Server.ServerFields): (e: Option<HttpError>)
    ensures e.None? <==> f.status != Server.Initializing && f.status != Server.Error
    ensures f.status == Server.Initializing ==> e == Some(HttpError(503, INITIALIZING_DETAIL))
    ensures f.status == Server.Error ==> e == Some(HttpError(500, InitFailedDetail(f.initializationError)))
  {
    if f.status == Server.Initializing then Some(HttpError(503, INITIALIZING_DETAIL))
    else if f.status == Server.Error then Some(HttpError(500, InitFailedDetail(f.initializationError)))
    else None
  }

  // ---------------------------------------------------------------------------
  // POST /index
  // ---------------------------------------------------------------------------

  /** The body of a POST /index request. */
  datatype IndexRequest = IndexRequest(projectPath: string, forceReindex: bool)

  /** The scan handed to `background_tasks.add_task`, and the 202 response's message. */
  datatype ScanTask = ScanTask(projectPath: string, forceReindex: bool)
  datatype Accepted = Accepted(task: ScanTask, message: string)

  /**
   * `trigger_index` as written: past the status checks it looks up `_perform_scan` on the
   * server, which this `MCPServer` does not define, so every admitted request ends in an
   * unhandled AttributeError, which the framework answers with a bare 500.
   */
  function TriggerIndexAsWritten(f: Server.ServerFields, configured: string, request: IndexRequest): (r: Result<Accepted, HttpError>)
    ensures r.Failure?
  {
    match ReadinessGate(f)
    case Some(e) => Failure(e)
    case None =>
      if f.status == Server.Scanning then Failure(HttpError(409, SCAN_CONFLICT_DETAIL))
      else Failure(HttpError(500, INTERNAL_ERROR_DETAIL))
  }

  /**
   * `trigger_index` as intended: INITIALIZING is 503, ERROR is 500, SCANNING is 409;
   * from WATCHING or READY the server's scan is scheduled on the configured path,
   * whatever path the request named, with `force_reindex` passed on.
   */
  function TriggerIndex(f: Server.ServerFields, configured: string, request: IndexRequest): (r: Result<Accepted, HttpError>)
    ensures f.status == Server.Initializing ==> r == Failure(HttpError(503, INITIALIZING_DETAIL))
    ensures f.status == Server.Error ==> r == Failure(HttpError(500, InitFailedDetail(f.initializationError)))
    ensures f.status == Server.Scanning ==> r == Failure(HttpError(409, SCAN_CONFLICT_DETAIL))
    ensures r.Success? <==> f.status == Server.Watching || f.status == Server.Ready
    ensures r.Success? ==> r.value.task == ScanTask(configured, request.forceReindex)
    ensures r.Success? ==> r.value.message == "Indexing process initiated for " + configured + " in the background."
  {
    match ReadinessGate(f)
    case Some(e) => Failure(e)
    case None =>
      if f.status == Server.Scanning then Failure(HttpError(409, SCAN_CONFLICT_DETAIL))
      else Success(Accepted(ScanTask(configured, request.forceReindex),
        "Indexing process initiated for " + configured + " in the background."))
  }

  /** For a server that is WATCHING, the router as written refuses what the intended one schedules. */
  lemma UndefinedScanAttribute(f: Server.ServerFields, configured: string, request: IndexRequest)
    requires f.status == Server.Watching
    ensures TriggerIndexAsWritten(f, configured, request) == Failure(HttpError(500, INTERNAL_ERROR_DETAIL))
    ensures TriggerIndex(f, configured, request).Success?
  {
  }

  /**
   * A scheduled scan, run while the server is still in the status the router saw, passes
   * the scan's checks and starts: the router always names the configured path and only
   * admits statuses other than SCANNING.
   */
  lemma ScheduledScanStarts(f: Server.ServerFields, configured: string, request: IndexRequest, now: int)
    requires TriggerIndex(f, configured, request).Success?
    ensures var task := TriggerIndex(f, configured, request).value.task;
      var begun := Server.BeginScan(f, configured, task.projectPath, now);
      begun.1.None? && begun.0.status == Server.Scanning
  {
  }

  // ---------------------------------------------------------------------------
  // POST /search
  // ---------------------------------------------------------------------------

  /** The `metadata` value of a raw search row: a dict, a `FileMetadata`, or anything else. */
  datatype RawMetadata = MetaDict(originalPath: string) | MetaModel(model: Index.FileMetadata) | MetaOther

  /** One row as the indexer's `search` hands it over. */
  datatype RawResult = RawResult(
    documentId: string,
    filePath: string,
    contentHash: string,
    lastModified: int,
    text: string,
    metadata: RawMetadata)

  /** A `SearchResultItem`. */
  datatype SearchResultItem = SearchResultItem(
    documentId: string,
    filePath: string,
    contentHash: string,
    lastModified: int,
    text: string,
    metadata: Index.FileMetadata)

  const METADATA_ERROR: string := "<metadata error>"
  const MISSING_INDEXER_DETAIL: string := "500: Indexer not available despite server being ready."

  /** `r.dict(exclude={'vector'})` of a stored document: its metadata comes back as a dict. */
  function AsRaw(d: Index.IndexedDocument): RawResult
  {
    RawResult(d.documentId, d.filePath, d.contentHash, d.lastModified, d.text, MetaDict(d.metadata.originalPath))
  }

  /** The item `search_documents` builds from one row; metadata of an unexpected kind becomes "<metadata error>". */
  function Reshaped(r: RawResult): (item: SearchResultItem)
    ensures item.documentId == r.documentId && item.filePath == r.filePath && item.contentHash == r.contentHash
    ensures item.lastModified == r.lastModified && item.text == r.text
    ensures item.metadata.originalPath == match r.metadata
      case MetaDict(p) => p
      case MetaModel(m) => m.originalPath
      case MetaOther => METADATA_ERROR
  {
    var metadata := match r.metadata
      case MetaDict(p) => Index.FileMetadata(p)
      case MetaModel(m) => m
      case MetaOther => Index.FileMetadata(METADATA_ERROR);
    SearchResultItem(r.documentId, r.filePath, r.contentHash, r.lastModified, r.text, metadata)
  }

  /** The reshaping loop: one item per row, in order. */
  method ReshapeResults(raw: seq<RawResult>) returns (items: seq<SearchResultItem>)
    ensures |items| == |raw|
    ensures forall i :: 0 <= i < |raw| ==> items[i] == Reshaped(raw[i])
  {
    items := [];
    var i := 0;
    while i < |raw|
      invariant 0 <= i <= |raw|
      invariant |items| == i
      invariant forall j :: 0 <= j < i ==> items[j] == Reshaped(raw[j])
    {
      items := items + [Reshaped(raw[i])];
      i := i + 1;
    }
  }

  /** The indexer's rows are always well-formed: their items carry the stored document's fields and metadata. */
  lemma StoredRowsReshape(d: Index.IndexedDocument)
    ensures Reshaped(AsRaw(d)) ==
      SearchResultItem(d.documentId, d.filePath, d.contentHash, d.lastModified, d.text, d.metadata)
  {
  }

  /**
   * `search_documents`: INITIALIZING is 503 and ERROR is 500, any other status searches
   * (SCANNING included); a missing indexer or a failing search is 500 "Search failed: …"
   * (the missing-indexer HTTPException is raised inside the `try` and wrapped like any other).
   */
  method SearchDocuments(server: Server.MCPServer, query: string, topK: nat) returns (r: Result<seq<SearchResultItem>, HttpError>)
    ensures ReadinessGate(server.Fields()).Some? ==> r == Failure(ReadinessGate(server.Fields()).value)
    ensures ReadinessGate(server.Fields()).None? && !server.hasIndexer ==>
      r == Failure(HttpError(500, Server.SEARCH_FAILED + MISSING_INDEXER_DETAIL))
    ensures ReadinessGate(server.Fields()).None? && server.hasIndexer ==>
      var found := server.fileWatcher.indexer.Search(query, topK);
      (found.Failure? ==> r == Failure(HttpError(500, Server.SEARCH_FAILED + found.error))) &&
      (found.Success? ==> (r.Success? && |r.value| == |found.value| &&
        forall i :: 0 <= i < |found.value| ==> r.value[i] == Reshaped(AsRaw(found.value[i]))))
  {
    var gate := ReadinessGate(server.Fields());
    if gate.Some? {
      return Failure(gate.value);
    }
    if !server.hasIndexer {
      return Failure(HttpError(500, Server.SEARCH_FAILED + MISSING_INDEXER_DETAIL));
    }
    var found := server.fileWatcher.indexer.Search(query, topK);
    if found.Failure? {
      return Failure(HttpError(500, Server.SEARCH_FAILED + found.error));
    }
    var raw := seq(|found.value|, i requires 0 <= i < |found.value| => AsRaw(found.value[i]));
    var items := ReshapeResults(raw);
    return Success(items);
  }

  // ---------------------------------------------------------------------------
  // GET /status/{project_path}
  // ---------------------------------------------------------------------------

  /** An `IndexingStatusResponse`. */
  datatype StatusResponse = StatusResponse(
    projectPath: string,
    status: string,
    lastScanStartTime: Option<int>,
    lastScanEndTime: Option<int>,
    indexedChunkCount: Option<nat>,
    errorMessage: Option<string>)

  const NOT_MANAGED_DETAIL: string := "Project path not found or not managed by this server."
  const COUNT_FAILED: string := "Failed to retrieve chunk count: "
  const READY_WITHOUT_INDEXER: string := "Server is READY but indexer is missing."
  const UNKNOWN_SERVER_ERROR: string := "Unknown server error."

  /**
   * The error message of a status response: a failed count first (`countFailure` is its
   * text), then READY without an indexer, then ERROR with the stored exception's text.
   */
  function StatusErrorMessage(countFailure: Option<string>, f: Server.ServerFields): (m: Option<string>)
    ensures countFailure.Some? ==> m == Some(COUNT_FAILED + countFailure.value)
    ensures countFailure.None? && f.status == Server.Ready && !f.hasIndexer ==> m == Some(READY_WITHOUT_INDEXER)
    ensures countFailure.None? && f.status == Server.Error ==>
      m == Some(if f.initializationError.Some? then f.initializationError.value else UNKNOWN_SERVER_ERROR)
    ensures m.None? <==> countFailure.None? && f.status != Server.Error && !(f.status == Server.Ready && !f.hasIndexer)
  {
    if countFailure.Some? then Some(COUNT_FAILED + countFailure.value)
    else if f.status == Server.Ready && !f.hasIndexer then Some(READY_WITHOUT_INDEXER)
    else if f.status == Server.Error then
      Some(if f.initializationError.Some? then f.initializationError.value else UNKNOWN_SERVER_ERROR)
    else None
  }

  /**
   * `get_indexing_status`: 404 unless the request path and the configured one have the
   * same `os.path.abspath` (`abspath`, an oracle over the working directory); otherwise the
   * configured path, the status name, the scan times, the chunk count when there is an
   * indexer, and the error message. The count itself never raises here, since
   * `get_indexed_chunk_count` answers 0 on any failure.
   */
  function GetIndexingStatus(server: Server.MCPServer, requested: string, abspath: string -> string): (r: Result<StatusResponse, HttpError>)
    reads server, server.fileWatcher, server.fileWatcher.indexer
    ensures abspath(requested) != abspath(server.projectPath) ==> r == Failure(HttpError(404, NOT_MANAGED_DETAIL))
    ensures abspath(requested) == abspath(server.projectPath) ==>
      r.Success? && r.value.projectPath == server.projectPath && r.value.status == Server.StatusName(server.status) &&
      r.value.lastScanStartTime == server.lastScanStartTime && r.value.lastScanEndTime == server.lastScanEndTime &&
      r.value.indexedChunkCount == (if server.hasIndexer then Some(server.fileWatcher.indexer.ChunkCount(None)) else None) &&
      r.value.errorMessage == StatusErrorMessage(None, server.Fields())
  {
    if abspath(requested) != abspath(server.projectPath) then Failure(HttpError(404, NOT_MANAGED_DETAIL))
    else
      var count := if server.hasIndexer then Some(server.fileWatcher.indexer.ChunkCount(None)) else None;
      Success(StatusResponse(server.projectPath, Server.StatusName(server.status), server.lastScanStartTime,
        server.lastScanEndTime, count, StatusErrorMessage(None, server.Fields())))
  }
}
