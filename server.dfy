/**
 * The server of `vector_index_mcp/mcp_server.py`: the status enum, dependency
 * initialisation, the watcher-thread flag, the single-flight project scan and the
 * status and search queries. The scan is cut at its first `await`: `BeginScan` is
 * what happens before it (the checks and the switch to SCANNING, which other requests
 * can observe while the scan runs), `EndScan` what happens after it.
 * Times are readings of an abstract integer clock, passed in.
 */
module Server {
  import opened Wrappers
  import Chunker
  import Index
  import Watcher

  /** `ServerStatus`. */
  datatype ServerStatus = Initializing | Scanning | Watching | Ready | Error

  /** `ServerStatus.name`. */
  function StatusName(s: ServerStatus): string
  {
    match s
    case Initializing => "INITIALIZING"
    case Scanning => "SCANNING"
    case Watching => "WATCHING"
    case Ready => "READY"
    case Error => "ERROR"
  }

  /** The exceptions `_scan_project_files` lets out, with their text. */
  datatype Raised = ValueError(message: string) | RuntimeError(message: string) | Reraised(message: string)

  /**
   * The server's own fields: `hasIndexer` is `self.indexer is not None`,
   * `initializationError` the text of the stored exception, `watcherAlive` the
   * watcher thread's `is_alive()`.
   */
  datatype ServerFields = ServerFields(
    status: ServerStatus,
    hasIndexer: bool,
    initializationError: Option<string>,
    lastScanStartTime: Option<int>,
    lastScanEndTime: Option<int>,
    currentError: Option<string>,
    watcherAlive: bool)

  /** The fields `__init__` leaves. */
  const INITIAL: ServerFields := ServerFields(Initializing, false, None, None, None, None, false)

  const UNSUPPORTED_PATH: string := "Scan requested for unsupported path: "
  const SCAN_IN_PROGRESS: string := "Scan request ignored: another scan is already in progress."
  const SCAN_FAILED: string := "Indexing scan failed: "
  const INITIALIZATION_ERROR: string := "Initialization Error: "
  const INDEXER_NOT_AVAILABLE: string := "Indexer not available. Please initialize the server or check its status."
  const SEARCH_FAILED: string := "Search failed: "
  /** What `self.indexer.clear_index` raises while `self.indexer` is None. */
  const NO_INDEXER_CLEAR: string := "'NoneType' object has no attribute 'clear_index'"

  /** `_start_watcher_thread`: a no-op while the thread is alive, otherwise the thread starts and the server is WATCHING. */
  function StartWatcher(f: ServerFields): (g: ServerFields)
    ensures g.watcherAlive
    ensures f.watcherAlive ==> g == f
    ensures !f.watcherAlive ==> g == f.(watcherAlive := true, status := Watching)
  {
    if f.watcherAlive then f else f.(watcherAlive := true, status := Watching)
  }

  /**
   * `_initialize_dependencies` given what `load_resources` did: on success the indexer is
   * installed, the server passes through READY and starts the watcher; on failure the
   * exception is stored and the server is in ERROR.
   */
  function Initialized(f: ServerFields, load: Result<Index.Loaded, string>): (g: ServerFields)
    ensures load.Success? ==> g.hasIndexer && g.watcherAlive && g.status == (if f.watcherAlive then Ready else Watching)
    ensures load.Success? ==> g.initializationError == f.initializationError && g.currentError == f.currentError
    ensures load.Failure? ==> g == f.(status := Error, initializationError := Some(load.error))
  {
    match load
    case Success(_) => StartWatcher(f.(hasIndexer := true, status := Ready))
    case Failure(e) => f.(initializationError := Some(e), status := Error)
  }

  /**
   * `_scan_project_files` up to its first await: a foreign path is refused with a
   * ValueError and recorded in `current_error`; a scan while SCANNING is refused with a
   * RuntimeError and changes nothing; otherwise, from any other status, the scan starts.
   */
  function BeginScan(f: ServerFields, configured: string, requested: string, now: int): (r: (ServerFields, Option<Raised>))
    ensures requested != configured ==>
      r == (f.(currentError := Some(UNSUPPORTED_PATH + requested)), Some(ValueError(UNSUPPORTED_PATH + requested)))
    ensures requested == configured && f.status == Scanning ==> r == (f, Some(RuntimeError(SCAN_IN_PROGRESS)))
    ensures r.1.None? <==> requested == configured && f.status != Scanning
    ensures r.1.None? ==>
      r.0.status == Scanning && r.0.lastScanStartTime == Some(now) && r.0.lastScanEndTime.None? && r.0.currentError.None? &&
      r.0.hasIndexer == f.hasIndexer && r.0.initializationError == f.initializationError && r.0.watcherAlive == f.watcherAlive
  {
    if requested != configured then
      (f.(currentError := Some(UNSUPPORTED_PATH + requested)), Some(ValueError(UNSUPPORTED_PATH + requested)))
    else if f.status == Scanning then
      (f, Some(RuntimeError(SCAN_IN_PROGRESS)))
    else
      (f.(status := Scanning, lastScanStartTime := Some(now), lastScanEndTime := None, currentError := None), None)
  }

  /** The error `get_current_status` reports: a non-empty `current_error` first, then the initialisation error. */
  function ReportedError(f: ServerFields): Option<string>
  {
    if f.currentError.Some? && f.currentError.value != [] then f.currentError
    else if f.initializationError.Some? then Some(INITIALIZATION_ERROR + f.initializationError.value)
    else None
  }

  /**
   * `_scan_project_files` after its awaits, given the text of what the clear or the walk
   * raised: the end time is set and the server is WATCHING, or in ERROR with the failure
   * recorded (and reported ahead of any initialisation error).
   */
  function EndScan(f: ServerFields, failure: Option<string>, now: int): (g: ServerFields)
    ensures g.status != Scanning && g.lastScanEndTime == Some(now) && g.lastScanStartTime == f.lastScanStartTime
    ensures g.status == Watching <==> failure.None?
    ensures failure.None? ==> g.currentError == f.currentError
    ensures failure.Some? ==> ReportedError(g) == Some(SCAN_FAILED + failure.value)
    ensures g.hasIndexer == f.hasIndexer && g.initializationError == f.initializationError && g.watcherAlive == f.watcherAlive
  {
    match failure
    case None => f.(lastScanEndTime := Some(now), status := Watching)
    case Some(e) => f.(status := Error, currentError := Some(SCAN_FAILED + e), lastScanEndTime := Some(now))
  }

  /** What the scan's body raised: the clear on a missing indexer, or the walk's ignore check. */
  function ScanFailure(hasIndexer: bool, forceReindex: bool, scan: Watcher.ScanState): (e: Option<string>)
    ensures e.Some? <==> (forceReindex && !hasIndexer) || scan.error.Some?
  {
    if forceReindex && !hasIndexer then Some(NO_INDEXER_CLEAR) else scan.error
  }

  /** The calls the scan makes on the indexer: the clear first when re-indexing, then the walk's. */
  function ScanRequests(projectPath: string, hasIndexer: bool, forceReindex: bool, scan: Watcher.ScanState): (rs: seq<Index.Request>)
    ensures forceReindex && hasIndexer ==> rs == [Index.ClearRequest(Some(projectPath))] + scan.requests
    ensures !forceReindex ==> rs == scan.requests
    ensures forceReindex && !hasIndexer ==> rs == []
  {
    if !forceReindex then scan.requests
    else if hasIndexer then [Index.ClearRequest(Some(projectPath))] + scan.requests
    else []
  }

  /** Once a scan has started, a second request for it is refused and changes nothing, until the first ends. */
  lemma SingleFlight(f: ServerFields, configured: string, now: int, later: int)
    requires BeginScan(f, configured, configured, now).1.None?
    ensures var g := BeginScan(f, configured, configured, now).0;
      BeginScan(g, configured, configured, later) == (g, Some(RuntimeError(SCAN_IN_PROGRESS)))
  {
  }

  /** A scan that starts and completes reports only the initialisation error, its own having been cleared. */
  lemma CompletedScanReports(f: ServerFields, configured: string, start: int, end: int)
    requires BeginScan(f, configured, configured, start).1.None?
    ensures var g := EndScan(BeginScan(f, configured, configured, start).0, None, end);
      g.status == Watching && g.lastScanStartTime == Some(start) && g.lastScanEndTime == Some(end) &&
      ReportedError(g) == if f.initializationError.Some? then Some(INITIALIZATION_ERROR + f.initializationError.value) else None
  {
  }

  // Finding: the watcher is constructed with a keyword it does not declare.

  /** The keyword parameters of `FileWatcher.__init__`. */
  const WATCHER_PARAMETERS: seq<string> := ["project_path", "indexer", "ignore_patterns"]

  /** The keywords `__init__` passes to `FileWatcher` as written. */
  const WATCHER_KEYWORDS_AS_WRITTEN: seq<string> := ["project_path", "indexer", "ignore_patterns", "abs_lancedb_path_to_ignore"]

  /** The keywords the watcher can take, which the constructor below passes. */
  const WATCHER_KEYWORDS: seq<string> := ["project_path", "indexer", "ignore_patterns"]

  /** Python's binding of keyword arguments: the first keyword the callee does not declare raises a TypeError. */
  function UnexpectedKeyword(params: seq<string>, keywords: seq<string>): (r: Option<string>)
    ensures r.None? <==> forall k :: k in keywords ==> k in params
    ensures r.Some? ==> r.value in keywords && r.value !in params
  {
    if keywords == [] then None
    else if keywords[0] !in params then Some(keywords[0])
    else UnexpectedKeyword(params, keywords[1..])
  }

  /** As written, every `MCPServer(...)` raises a TypeError while building its watcher. */
  lemma WatcherKeywordRejectedAsWritten()
    ensures UnexpectedKeyword(WATCHER_PARAMETERS, WATCHER_KEYWORDS_AS_WRITTEN) == Some("abs_lancedb_path_to_ignore")
  {
    assert WATCHER_KEYWORDS_AS_WRITTEN[3..][1..] == [];
  }

  /** Without the extra keyword, the watcher's arguments bind. */
  lemma WatcherKeywordsBind()
    ensures UnexpectedKeyword(WATCHER_PARAMETERS, WATCHER_KEYWORDS) == None
  {
  }

  /** What `get_current_status` returns. */
  datatype StatusReport = StatusReport(
    projectPath: string,
    status: string,
    lastScanStartTime: Option<int>,
    lastScanEndTime: Option<int>,
    indexedChunkCount: Option<nat>,
    errorMessage: Option<string>)

  class MCPServer {
    const projectPath: string
    const fileWatcher: Watcher.FileWatcher
    var status: ServerStatus
    var hasIndexer: bool
    var initializationError: Option<string>
    var lastScanStartTime: Option<int>
    var lastScanEndTime: Option<int>
    var currentError: Option<string>
    var watcherAlive: bool

    function Fields(): ServerFields
      reads this
    {
      ServerFields(status, hasIndexer, initializationError, lastScanStartTime, lastScanEndTime, currentError, watcherAlive)
    }

    /** The watcher holds an indexer exactly when the server does. */
    predicate Valid()
      reads this, fileWatcher
    {
      fileWatcher.Valid() && fileWatcher.attached == hasIndexer
    }

    /**
     * `__init__`: INITIALIZING, no indexer installed yet, and the watcher built with None
     * for its indexer. The indexer object `_initialize_dependencies` will load (with the
     * backend's behaviour `outage`, `embed`, `rank`) is allocated here, detached, so that
     * the watcher can refer to it from the start.
     */
    constructor (projectPath: string, projectRoot: string, ignorePatterns: seq<string>, gitignore: Option<seq<string>>,
                 matches: (seq<string>, string) -> bool, tok: Chunker.Tokenizer,
                 outage: Option<string>, embed: string -> Index.Vector, rank: (Index.Vector, seq<Index.StoredRow>) -> seq<Index.StoredRow>)
      ensures Valid() && Fields() == INITIAL && this.projectPath == projectPath
      ensures fresh(fileWatcher) && fresh(fileWatcher.indexer)
      ensures fileWatcher.knownFiles == map[] && fileWatcher.projectPath == projectPath && !fileWatcher.attached
      ensures fileWatcher.config.patterns == ignorePatterns + (if gitignore.Some? then gitignore.value else [])
      ensures fileWatcher.indexer.State() == Index.Store(None, [], [])
    {
      this.projectPath := projectPath;
      var indexer := new Index.Indexer(outage, embed, rank);
      fileWatcher := new Watcher.FileWatcher(projectPath, projectRoot, indexer, false, ignorePatterns, gitignore, matches, tok);
      status := Initializing;
      hasIndexer := false;
      initializationError := None;
      lastScanStartTime := None;
      lastScanEndTime := None;
      currentError := None;
      watcherAlive := false;
    }

    /** `_start_watcher_thread`. */
    method StartWatcherThread()
      modifies this
      ensures Fields() == StartWatcher(old(Fields()))
    {
      if watcherAlive {
        return;
      }
      watcherAlive := true;
      status := Watching;
    }

    /**
     * `_initialize_dependencies`: `load_resources()` (no re-creation) on the backend `b`;
     * on success the indexer is installed in the server and in the watcher.
     */
    method InitializeDependencies(b: Index.Backend)
      requires Valid()
      modifies this, fileWatcher`attached, fileWatcher.indexer
      ensures Valid()
      ensures var load := Index.LoadOutcome(false, b);
        Fields() == Initialized(old(Fields()), load) &&
        fileWatcher.indexer.table == Index.LoadedTable(false, b)
      ensures fileWatcher.indexer.requests == old(fileWatcher.indexer.requests)
      ensures fileWatcher.indexer.deletes == old(fileWatcher.indexer.deletes)
    {
      var loaded := fileWatcher.indexer.LoadResources(false, b);
      if loaded.Failure? {
        initializationError := Some(loaded.error);
        status := Error;
        return;
      }
      hasIndexer := true;
      fileWatcher.attached := true;
      status := Ready;
      StartWatcherThread();
    }

    /** The part of `_scan_project_files` before its first await. */
    method StartScan(requested: string, now: int) returns (raised: Option<Raised>)
      modifies this
      ensures (Fields(), raised) == BeginScan(old(Fields()), projectPath, requested, now)
    {
      if requested != projectPath {
        currentError := Some(UNSUPPORTED_PATH + requested);
        return Some(ValueError(UNSUPPORTED_PATH + requested));
      }
      if status == Scanning {
        return Some(RuntimeError(SCAN_IN_PROGRESS));
      }
      status := Scanning;
      lastScanStartTime := Some(now);
      lastScanEndTime := None;
      currentError := None;
      return None;
    }

    /**
     * The rest of `_scan_project_files`: the clear when re-indexing, the initial scan over
     * the walk, then the end of the scan; a failure is re-raised.
     */
    method CompleteScan(forceReindex: bool, disk: Watcher.Disk, walk: seq<Watcher.WalkEntry>, now: int) returns (raised: Option<Raised>)
      requires Valid()
      modifies this, fileWatcher`knownFiles, fileWatcher.indexer
      ensures Valid()
      ensures var scan := Watcher.ScanFrom(old(fileWatcher.knownFiles), fileWatcher.config, disk, Watcher.WalkPaths(walk), old(hasIndexer));
        var failure := ScanFailure(old(hasIndexer), forceReindex, scan);
        Fields() == EndScan(old(Fields()), failure, now) &&
        raised == (if failure.Some? then Some(Reraised(failure.value)) else None) &&
        fileWatcher.knownFiles == (if forceReindex && !old(hasIndexer) then old(fileWatcher.knownFiles) else scan.known) &&
        fileWatcher.indexer.State() == Index.StepAll(old(fileWatcher.indexer.State()),
          ScanRequests(projectPath, old(hasIndexer), forceReindex, scan), fileWatcher.indexer.outage, fileWatcher.indexer.embed)
    {
      ghost var s0 := fileWatcher.indexer.State();
      var failure: Option<string> := None;
      if forceReindex {
        if !hasIndexer {
          failure := Some(NO_INDEXER_CLEAR);
        } else {
          fileWatcher.indexer.ClearIndex(Some(projectPath));
          Index.StepAllOne(s0, Index.ClearRequest(Some(projectPath)), fileWatcher.indexer.outage, fileWatcher.indexer.embed);
        }
      }
      if failure.None? {
        ghost var s1 := fileWatcher.indexer.State();
        var r := fileWatcher.InitialScan(disk, walk);
        ghost var scan := Watcher.ScanFrom(old(fileWatcher.knownFiles), fileWatcher.config, disk, Watcher.WalkPaths(walk), old(hasIndexer));
        if forceReindex {
          Index.StepAllAppend(s0, [Index.ClearRequest(Some(projectPath))], scan.requests,
            fileWatcher.indexer.outage, fileWatcher.indexer.embed);
        }
        if r.Failure? {
          failure := Some(r.error);
        }
      }
      lastScanEndTime := Some(now);
      if failure.None? {
        status := Watching;
        return None;
      }
      status := Error;
      currentError := Some(SCAN_FAILED + failure.value);
      return Some(Reraised(failure.value));
    }

    /** `_scan_project_files`, start to end, with the clock reading `start` at its start and `end` at its end. */
    method ScanProjectFiles(requested: string, forceReindex: bool, disk: Watcher.Disk, walk: seq<Watcher.WalkEntry>,
                            start: int, end: int) returns (raised: Option<Raised>)
      requires Valid()
      modifies this, fileWatcher`knownFiles, fileWatcher.indexer
      ensures Valid()
      ensures var begun := BeginScan(old(Fields()), projectPath, requested, start);
        begun.1.Some? ==>
          Fields() == begun.0 && raised == begun.1 && fileWatcher.knownFiles == old(fileWatcher.knownFiles) &&
          fileWatcher.indexer.State() == old(fileWatcher.indexer.State())
      ensures var begun := BeginScan(old(Fields()), projectPath, requested, start);
        var scan := Watcher.ScanFrom(old(fileWatcher.knownFiles), fileWatcher.config, disk, Watcher.WalkPaths(walk), old(hasIndexer));
        var failure := ScanFailure(old(hasIndexer), forceReindex, scan);
        begun.1.None? ==>
          Fields() == EndScan(begun.0, failure, end) &&
          raised == (if failure.Some? then Some(Reraised(failure.value)) else None) &&
          fileWatcher.knownFiles == (if forceReindex && !old(hasIndexer) then old(fileWatcher.knownFiles) else scan.known) &&
          fileWatcher.indexer.State() == Index.StepAll(old(fileWatcher.indexer.State()),
            ScanRequests(projectPath, old(hasIndexer), forceReindex, scan), fileWatcher.indexer.outage, fileWatcher.indexer.embed)
    {
      raised := StartScan(requested, start);
      if raised.Some? {
        return;
      }
      raised := CompleteScan(forceReindex, disk, walk, end);
    }

    /** `get_current_status`. */
    function CurrentStatus(): (r: StatusReport)
      reads this, fileWatcher, fileWatcher.indexer
      ensures r.projectPath == projectPath && r.status == StatusName(status)
      ensures r.lastScanStartTime == lastScanStartTime && r.lastScanEndTime == lastScanEndTime
      ensures r.indexedChunkCount.Some? <==> hasIndexer
      ensures hasIndexer ==> r.indexedChunkCount == Some(fileWatcher.indexer.ChunkCount(None))
      ensures currentError.Some? && currentError.value != [] ==> r.errorMessage == currentError
      ensures (currentError.None? || currentError.value == []) && initializationError.Some? ==>
        r.errorMessage == Some(INITIALIZATION_ERROR + initializationError.value)
      ensures r.errorMessage.None? <==> (currentError.None? || currentError.value == []) && initializationError.None?
    {
      StatusReport(projectPath, StatusName(status), lastScanStartTime, lastScanEndTime,
        if hasIndexer then Some(fileWatcher.indexer.ChunkCount(None)) else None,
        ReportedError(Fields()))
    }

    /** `perform_search`: refused only without an indexer, whatever the status; a failing search becomes "Search failed: …". */
    function PerformSearch(query: string, topK: nat): (r: Result<seq<Index.IndexedDocument>, string>)
      reads this, fileWatcher, fileWatcher.indexer
      ensures !hasIndexer ==> r == Failure(INDEXER_NOT_AVAILABLE)
      ensures hasIndexer ==> (r.Success? <==> fileWatcher.indexer.Search(query, topK).Success?)
      ensures hasIndexer && r.Success? ==> r.value == fileWatcher.indexer.Search(query, topK).value
      ensures hasIndexer && r.Failure? ==> r.error == SEARCH_FAILED + fileWatcher.indexer.Search(query, topK).error
    {
      if !hasIndexer then Failure(INDEXER_NOT_AVAILABLE)
      else
        match fileWatcher.indexer.Search(query, topK)
        case Success(results) => Success(results)
        case Failure(e) => Failure(SEARCH_FAILED + e)
    }
  }
}
