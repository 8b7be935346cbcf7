/**
 * The older server of `index_mcp/mcp_server.py`, whose status is a string. Its indexer and
 * watcher (`index_mcp/indexer.py`, `index_mcp/file_watcher.py`) are not part of this model:
 * the server records the calls it makes on them and takes what they raise as inputs.
 * `_perform_scan` is synchronous but runs as a background task, so a second request can
 * arrive while one runs; it is cut, like the newer server's scan, into `BeginScan` and
 * `EndScan` around the blocking calls. Times are readings of an abstract integer clock.
 */
module LegacyServer {
  import opened Wrappers

  const IDLE: string := "Idle - Initial Scan Required"
  const WATCHING: string := "Watching"
  const SCANNING: string := "Scanning"
  const ERROR: string := "Error"
  const INITIALIZING: string := "Initializing"

  const UNSUPPORTED_PATH: string := "Scan requested for unsupported path: "
  const INDEXING_FAILED: string := "Indexing failed: "

  /** A call the server makes on its (unmodelled) indexer or watcher. */
  datatype Call = ClearIndex(projectPath: string) | InitialScan

  /** The server's own fields; `watcherAlive` is the watcher thread's `is_alive()`. */
  datatype LegacyFields = LegacyFields(
    status: string,
    lastScanStartTime: Option<int>,
    lastScanEndTime: Option<int>,
    currentError: Option<string>,
    watcherAlive: bool)

  /** `_start_watcher_thread`: a no-op while the thread is alive, otherwise the thread starts and the status is "Watching". */
  function StartWatcher(f: LegacyFields): (g: LegacyFields)
    ensures g.watcherAlive
    ensures f.watcherAlive ==> g == f
    ensures !f.watcherAlive ==> g == f.(watcherAlive := true, status := WATCHING)
  {
    if f.watcherAlive then f else f.(watcherAlive := true, status := WATCHING)
  }

  /**
   * `_perform_scan` up to its blocking calls, with whether the scan goes ahead: a foreign
   * path puts the server in "Error" and returns; a scan while "Scanning" returns with
   * nothing changed; otherwise the scan starts. Nothing is raised.
   */
  function BeginScan(f: LegacyFields, configured: string, requested: string, now: int): (r: (LegacyFields, bool))
    ensures requested != configured ==> r == (f.(currentError := Some(UNSUPPORTED_PATH + requested), status := ERROR), false)
    ensures requested == configured && f.status == SCANNING ==> r == (f, false)
    ensures r.1 <==> requested == configured && f.status != SCANNING
    ensures r.1 ==> r.0 == f.(status := SCANNING, lastScanStartTime := Some(now), lastScanEndTime := None, currentError := None)
  {
    if requested != configured then
      (f.(currentError := Some(UNSUPPORTED_PATH + requested), status := ERROR), false)
    else if f.status == SCANNING then
      (f, false)
    else
      (f.(status := SCANNING, lastScanStartTime := Some(now), lastScanEndTime := None, currentError := None), true)
  }

  /** What the scan's body raised: the clear (when re-indexing) before the walk, which then does not run. */
  function ScanFailure(forceReindex: bool, clearRaises: Option<string>, scanRaises: Option<string>): (e: Option<string>)
    ensures e.None? <==> (!forceReindex || clearRaises.None?) && scanRaises.None?
    ensures forceReindex && clearRaises.Some? ==> e == clearRaises
  {
    if forceReindex && clearRaises.Some? then clearRaises else scanRaises
  }

  /** The calls the scan makes: `clear_index(project_path)` first when re-indexing, then `initial_scan()` unless the clear raised. */
  function ScanCalls(projectPath: string, forceReindex: bool, clearRaises: Option<string>): (cs: seq<Call>)
    ensures InitialScan in cs <==> !forceReindex || clearRaises.None?
    ensures ClearIndex(projectPath) in cs <==> forceReindex
    ensures forceReindex ==> cs[0] == ClearIndex(projectPath)
  {
    if !forceReindex then [InitialScan]
    else if clearRaises.Some? then [ClearIndex(projectPath)]
    else [ClearIndex(projectPath), InitialScan]
  }

  /** `_perform_scan` after its blocking calls: "Watching", or "Error" with the failure recorded; the exception is swallowed. */
  function EndScan(f: LegacyFields, failure: Option<string>, now: int): (g: LegacyFields)
    ensures g.status != SCANNING && g.lastScanEndTime == Some(now) && g.lastScanStartTime == f.lastScanStartTime
    ensures g.status == WATCHING <==> failure.None?
    ensures failure.Some? ==> g.status == ERROR && g.currentError == Some(INDEXING_FAILED + failure.value)
    ensures failure.None? ==> g.currentError == f.currentError
    ensures g.watcherAlive == f.watcherAlive
  {
    match failure
    case None => f.(lastScanEndTime := Some(now), status := WATCHING)
    case Some(e) => f.(status := ERROR, currentError := Some(INDEXING_FAILED + e), lastScanEndTime := Some(now))
  }

  /** A started scan refuses a second one, which leaves every field as it was. */
  lemma SingleFlight(f: LegacyFields, configured: string, now: int, later: int)
    requires BeginScan(f, configured, configured, now).1
    ensures var g := BeginScan(f, configured, configured, now).0;
      BeginScan(g, configured, configured, later) == (g, false)
  {
  }

  class MCPServer {
    const projectPath: string
    var status: string
    var lastScanStartTime: Option<int>
    var lastScanEndTime: Option<int>
    var currentError: Option<string>
    var watcherAlive: bool
    /** The calls made so far on the indexer and the watcher. */
    ghost var calls: seq<Call>

    function Fields(): LegacyFields
      reads this
    {
      LegacyFields(status, lastScanStartTime, lastScanEndTime, currentError, watcherAlive)
    }

    /** `__init__`: "Idle - Initial Scan Required", then the watcher thread starts and the server is "Watching". */
    constructor (projectPath: string)
      ensures this.projectPath == projectPath && calls == []
      ensures Fields() == LegacyFields(WATCHING, None, None, None, true)
    {
      this.projectPath := projectPath;
      status := IDLE;
      lastScanStartTime := None;
      lastScanEndTime := None;
      currentError := None;
      watcherAlive := false;
      calls := [];
      new;
      StartWatcherThread();
    }

    /** `_start_watcher_thread`. */
    method StartWatcherThread()
      modifies this
      ensures Fields() == StartWatcher(old(Fields())) && calls == old(calls)
    {
      if watcherAlive {
        return;
      }
      watcherAlive := true;
      status := WATCHING;
    }

    /** The part of `_perform_scan` before the clear and the walk; `started` says whether they follow. */
    method StartScan(requested: string, now: int) returns (started: bool)
      modifies this
      ensures (Fields(), started) == BeginScan(old(Fields()), projectPath, requested, now) && calls == old(calls)
    {
      if requested != projectPath {
        currentError := Some(UNSUPPORTED_PATH + requested);
        status := ERROR;
        return false;
      }
      if status == SCANNING {
        return false;
      }
      status := SCANNING;
      lastScanStartTime := Some(now);
      lastScanEndTime := None;
      currentError := None;
      return true;
    }

    /** The rest of `_perform_scan`, given what `clear_index` and `initial_scan` raise (None: they return). */
    method CompleteScan(forceReindex: bool, clearRaises: Option<string>, scanRaises: Option<string>, now: int)
      modifies this
      ensures Fields() == EndScan(old(Fields()), ScanFailure(forceReindex, clearRaises, scanRaises), now)
      ensures calls == old(calls) + ScanCalls(projectPath, forceReindex, clearRaises)
    {
      var failure: Option<string> := None;
      if forceReindex {
        calls := calls + [ClearIndex(projectPath)];
        failure := clearRaises;
      }
      if failure.None? {
        calls := calls + [InitialScan];
        failure := scanRaises;
      }
      lastScanEndTime := Some(now);
      if failure.None? {
        status := WATCHING;
        return;
      }
      status := ERROR;
      currentError := Some(INDEXING_FAILED + failure.value);
    }

    /** `_perform_scan`, start to end, with the clock reading `start` at its start and `end` at its end. */
    method PerformScan(requested: string, forceReindex: bool, clearRaises: Option<string>, scanRaises: Option<string>,
                       start: int, end: int)
      modifies this
      ensures var begun := BeginScan(old(Fields()), projectPath, requested, start);
        !begun.1 ==> Fields() == begun.0 && calls == old(calls)
      ensures var begun := BeginScan(old(Fields()), projectPath, requested, start);
        begun.1 ==> (Fields() == EndScan(begun.0, ScanFailure(forceReindex, clearRaises, scanRaises), end) &&
          calls == old(calls) + ScanCalls(projectPath, forceReindex, clearRaises))
    {
      var started := StartScan(requested, start);
      if started {
        CompleteScan(forceReindex, clearRaises, scanRaises, end);
      }
    }
  }
}
