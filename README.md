# vector-index-mcp: the incremental indexing coordinator

This project models the part of vector-index-mcp that keeps a vector index of a project's
files in step with the files on disk:

- the sliding-window chunker;
- the guard and return logic of the LanceDB indexer (the table as a sequence of rows, the SQL
  filters it builds and what they select);
- the file watcher's change registry (`known_files`), its create / modify / delete / move
  rules and the initial scan;
- the two MCP server classes: the newer one, whose status is an enum, and the older one,
  whose status is a string;
- the HTTP routers of both;
- the settings singleton.

The files and what they hold:

| file | module | models |
|---|---|---|
| `wrappers.dfy` | `Wrappers` | `Option` and `Result` |
| `chunker.dfy` | `Chunker` | `content_extractor.py` (both copies are identical) |
| `index.dfy` | `Index` | `vector_index_mcp/indexer.py` |
| `watcher.dfy` | `Watcher` | `vector_index_mcp/file_watcher.py` (the top-level `file_watcher.py` differs only in its imports) |
| `server.dfy` | `Server` | `vector_index_mcp/mcp_server.py` |
| `routers.dfy` | `Routers` | `vector_index_mcp/routers/index.py`, `search.py`, `status.py` |
| `legacy_server.dfy` | `LegacyServer` | `index_mcp/mcp_server.py` |
| `legacy_routers.dfy` | `LegacyRouters` | `index_mcp/routers/index.py`, `index_mcp/routers/status.py`, `routers/search.py` |
| `config.dfy` | `Config` | `vector_index_mcp/config.py` |

How the model is built:

- **Classes and state.** Each class whose fields the source updates in place is a Dafny `class`:
  `Index.Indexer`, `Watcher.FileWatcher`, `Watcher.ProjectEventHandler`, both `MCPServer`s and
  `Config.SettingsHolder`. Each method's `ensures` ties the new state to a pure transition function
  of the old state:
  - `Index.Step` / `Index.StepAll` for the table;
  - `Watcher.CreateEffect`, `ModifyEffect`, `DeleteEffect`, `MoveEffect` and `ScanFrom` for the registry
    and the calls made on the indexer;
  - `Server.BeginScan` / `Server.EndScan` and `LegacyServer.BeginScan` / `LegacyServer.EndScan`
    for the server fields.

  The properties are proved as lemmas about those functions.
- **The file system** is an oracle (`Watcher.Disk`) that is fixed for the length of one call:
  - path resolution;
  - "is a directory";
  - the SHA-256 hex digest, or "" on a read error;
  - the modification time, or 0;
  - the decoded text.
- **The embedding model and the nearest-neighbour ranking** are uninterpreted functions
  (`embed`, `rank`). A backend that fails is an `outage` text that every table call raises.
- **The tokenizer** is an abstract `encode` / `decode` pair. `encode` answers None when no
  encoding could be loaded.
- **Times** are readings of an abstract integer clock, passed in as arguments.
- **Awaited calls** run synchronously. A call to one of the indexer's `async def` methods that
  the source makes without `await` (directly, or through `asyncio.to_thread`) is also read as a
  call that runs to completion. As written, such a call only creates a coroutine that never runs;
  the "## Left out" lines of the members concerned say what the source then does. A scan is cut at its first `await`: `BeginScan` holds the
  checks and the switch to scanning, which concurrent requests observe, and `EndScan` holds what
  follows.

## Model

| member | source | states |
|---|---|---|
| Chunker.ChunkContent | vector_index_mcp/content_extractor.py:37-93 | empty text gives no chunks; the method fails exactly when the text is non-empty and the overlap is not smaller than the chunk size; otherwise the chunks are the token windows (or, without a tokenizer, the character windows), and the whole text itself when there are no windows |
| Chunker.NextStart | vector_index_mcp/content_extractor.py:55-58 | the next window start is always past the current one (the forced minimal progress) |
| Chunker.WindowAt | vector_index_mcp/content_extractor.py:48-60 | window k exists exactly when `start + k*step` is inside the sequence, and it is the slice from there of width `size` (cut at the end) |
| Chunker.WindowCount | vector_index_mcp/content_extractor.py:48-60 | no windows exactly for an empty sequence; n windows with `(n-1)*step < len <= n*step` |
| Chunker.WindowsCover | vector_index_mcp/content_extractor.py:48-60 | when the step is at most the width, every element lies in window `i / step` at offset `i % step` |
| Chunker.LastWindowEnds | vector_index_mcp/content_extractor.py:48-60 | the last window runs to the end of the sequence |
| Chunker.WindowsOverlap | vector_index_mcp/content_extractor.py:48-60 | a full window and the next one share exactly `size - step` elements |
| Chunker.CharChunkAt | vector_index_mcp/content_extractor.py:75-93 | character path: chunk k is `content[k*s : min(k*s + 4*chunk_size, len)]` with `s = 4*chunk_size - 4*overlap`, and exists exactly while `k*s < len` |
| Chunker.TokenChunkAt | vector_index_mcp/content_extractor.py:43-68 | token path: chunk k is the decoded token window k; text with no tokens gives itself as the one chunk |
| Chunker.ChunkBounds | vector_index_mcp/content_extractor.py:37-93 | with valid arguments, non-empty text gives at least one chunk and empty text none; character chunks are at most `4*chunk_size` long |
| Chunker.CharChunksCover | vector_index_mcp/content_extractor.py:75-91 | every character `i` of the text is in character chunk `i / s` at offset `i % s` |
| Chunker.CharChunksEnd | vector_index_mcp/content_extractor.py:75-91 | the last character chunk reaches the end of the text |
| Chunker.CharChunksOverlap | vector_index_mcp/content_extractor.py:79-88 | consecutive full character chunks share exactly `4*overlap` characters |
| Index.PrefixFilter | vector_index_mcp/indexer.py:425-430 | the corrected filter: none for a missing or empty project path, else `file_path LIKE '…%'` with every character of the path escaped by `EscapedChar` (a backslash, `%` and `_` behind a backslash, a quote doubled) |
| Index.PrefixFilterSelectsPrefix | vector_index_mcp/indexer.py:425-436 | the corrected prefix filter selects a file path if and only if the project path is a prefix of it |
| Index.CountWherePrefix | vector_index_mcp/indexer.py:425-438 | counting under the corrected prefix filter counts exactly the rows under the project path |
| Index.RemoveConditionSelectsPath | vector_index_mcp/indexer.py:345-348 | the corrected remove condition (quotes doubled) selects a row if and only if its file path equals the given path, for every path |
| Index.RemoveCondition | vector_index_mcp/indexer.py:346-348 | the corrected condition (quotes doubled): the literal of `file_path = '…'` reads back as exactly the given path |
| Index.RemoveDeletesExactlyPath | vector_index_mcp/indexer.py:345-348 | deleting on the remove condition drops exactly that file's rows and keeps the others in order |
| Index.BackslashPathMissedAsWritten | vector_index_mcp/indexer.py:427-430 | as written, the prefix filter for the project path `a\b` does not select the path `a\b` itself |
| Index.QuotedPathUnreadableAsWritten | vector_index_mcp/indexer.py:346-348 | as written, the remove condition for the file `it's` is not a readable clause |
| Index.SegmentsAgreeWithoutBackslash | vector_index_mcp/indexer.py:427-430 | for a project path without a backslash, the corrected and the as-written LIKE segments are the same text |
| Index.ConditionsAgreeWithoutQuote | vector_index_mcp/indexer.py:346 | for a path without a quote, the corrected and the as-written conditions are the same text |
| Index.LoadOutcome | vector_index_mcp/indexer.py:62-212 | a load error is raised as is; if not re-creating, an opened table is kept, a failing row count is raised, and an index is built exactly when it has at least 256 rows (its failure raised); else the table is created empty, and an invalid or failed creation raises |
| Index.LoadedTable | vector_index_mcp/indexer.py:62-212 | after a successful load, the outcome's rows; after a failed one, the opened table when a table was opened (its row count or its index build then raised), and no table otherwise |
| Index.Indexer.LoadResources | vector_index_mcp/indexer.py:62-212 | the table afterwards is `LoadedTable`'s; the result reports whether an index was built, or the error raised |
| Index.Step | vector_index_mcp/indexer.py:297-355 | every call is recorded; with no table nothing changes; a failing backend leaves the rows; upserts never delete |
| Index.StepAllAppend | vector_index_mcp/indexer.py:297-355 | running two call sequences one after the other is running their concatenation |
| Index.RemoveThenRows | vector_index_mcp/indexer.py:329-352 | after a remove, the file has no rows and every other file's rows are unchanged |
| Index.UpsertsAppend | vector_index_mcp/indexer.py:297-327 | upserts on a working table append their embedded rows in order and issue no delete |
| Index.UpsertsInert | vector_index_mcp/indexer.py:310-327 | upserts with no table or with a failing backend leave the table as it was |
| Index.ClearLeavesUnselected | vector_index_mcp/indexer.py:448-486 | a clear leaves exactly the rows outside the filter, and issues a delete if and only if some row matched |
| Index.Indexer.AddOrUpdateDocument | vector_index_mcp/indexer.py:297-327 | the new state is one upsert step |
| Index.Indexer.RemoveDocument | vector_index_mcp/indexer.py:329-355 | returns True exactly when a table is open and the backend works; then none of the file's rows remain |
| Index.Indexer.ChunkCount | vector_index_mcp/indexer.py:409-446 | 0 with no table or on error; all rows with no project path; else the number of rows under the project path |
| Index.Indexer.ClearIndex | vector_index_mcp/indexer.py:448-486 | the new state is one clear step |
| Index.Indexer.Search | vector_index_mcp/indexer.py:357-407 | an error with no table; nothing for an empty query; "Search operation failed: …" on a failing backend; else the first `top_k` rows in ranking order, without their vectors |
| Index.FilteredCount | vector_index_mcp/indexer.py:425-438 | the filtered count is every row without a project path and the prefix count with one |
| Watcher.RelativeTo | vector_index_mcp/file_watcher.py:67 | "." for the root itself; the rest of the path below the root; None exactly for a path outside it |
| Watcher.DocIdInjective | vector_index_mcp/file_watcher.py:101 | distinct (file, chunk index) pairs get distinct `path::i` ids |
| Watcher.ShouldIgnore | vector_index_mcp/file_watcher.py:60-72 | a failed resolve raises; directories and paths outside the root are ignored; otherwise the patterns decide |
| Watcher.PlanFor | vector_index_mcp/file_watcher.py:77-87 | a file is unusable exactly when its hash is empty or it cannot be opened; else its hash, mtime and chunks are taken |
| Watcher.ChunkDocs | vector_index_mcp/file_watcher.py:100-112 | one document per chunk, in order, with id `path::i`, the file's hash and mtime, and the chunk count |
| Watcher.IndexRequests | vector_index_mcp/file_watcher.py:80-113 | no call without an indexer or for an unusable file; one remove for a file with no chunks; else one call per chunk |
| Watcher.IndexRequestsUpsertChunks | vector_index_mcp/file_watcher.py:100-113 | a file with chunks gets one upsert per chunk, in chunk order, with id `path::i`, chunk index `i`, the chunk count, the chunk's text and the file as original path |
| Watcher.Decide | vector_index_mcp/file_watcher.py:153-174 | "unknown" exactly for a path not in the registry; "changed" exactly when the hash or the mtime differs from the stored one |
| Watcher.EffectsKeepHashes | vector_index_mcp/file_watcher.py:92-119 | no event stores an empty hash in the registry |
| Watcher.DetachedEventsCallNothing | vector_index_mcp/file_watcher.py:89-205 | without an indexer no event makes a backend call; a modification or a deletion leaves the registry as it was, and a creation records at most a file without chunks |
| Watcher.HashFailureUnreachable | vector_index_mcp/file_watcher.py:170-174 | with no empty hash stored, the "hash calculation failed" branch is never taken |
| Watcher.UnchangedModifyIsNoop | vector_index_mcp/file_watcher.py:145-189 | a known file with unchanged hash and mtime causes no call and no registry change |
| Watcher.ChangedModifyRemovesFirst | vector_index_mcp/file_watcher.py:176-182 | any other modification of a file that is not ignored starts with the removal of its rows |
| Watcher.IndexStepRows | vector_index_mcp/file_watcher.py:74-125 | on a working backend, indexing a usable file appends its embedded chunks (or removes its rows when it has none) and leaves other files' rows unchanged |
| Watcher.ModifyReplacesRows | vector_index_mcp/file_watcher.py:145-189 | after a re-indexing modification, the file's rows are exactly its current embedded chunks, and other files' rows are unchanged |
| Watcher.DeleteForgetsFile | vector_index_mcp/file_watcher.py:191-199 | deleting a known file forgets it and leaves none of its rows |
| Watcher.MoveRows | vector_index_mcp/file_watcher.py:232-237 | a move of a known file drops the source's rows and registry entry; a destination with chunks gets them appended to any rows it already had, and one without chunks is left with no rows |
| Watcher.ScanAllAppend | vector_index_mcp/file_watcher.py:130-136 | scanning two path lists one after the other is scanning their concatenation |
| Watcher.ScanAllErrored | vector_index_mcp/file_watcher.py:133 | once an ignore check has raised, no later path changes anything |
| Watcher.ScanStopsAt | vector_index_mcp/file_watcher.py:133 | a scan whose ignore check raises at some path ends in the state reached there |
| Watcher.ScanRecords | vector_index_mcp/file_watcher.py:127-137 | a completed scan records every eligible walked file with its current info (without an indexer, only those without chunks) and leaves every other registry entry as it was |
| Watcher.ScanCountsEligible | vector_index_mcp/file_watcher.py:129-136 | with an indexer, a completed scan counts exactly the walked paths that are not ignored and are usable; without one it counts none |
| Watcher.DetachedScanCallsNothing | vector_index_mcp/file_watcher.py:127-137 | a scan without an indexer makes no backend call |
| Watcher.ScanDirsIsScanAll | vector_index_mcp/file_watcher.py:130-132 | scanning the walk directory by directory is scanning all its paths in order |
| Watcher.FileWatcher.constructor | vector_index_mcp/file_watcher.py:23-39 | an empty registry; the patterns are the given ones followed by the `.gitignore` lines |
| Watcher.FileWatcher.ProcessAndIndexFile | vector_index_mcp/file_watcher.py:74-125 | returns True exactly when there is an indexer and the file is usable; the registry follows `KnownAfter` and the indexer's state the calls of `IndexRequests` |
| Watcher.FileWatcher.IndexChunks | vector_index_mcp/file_watcher.py:100-113 | the indexer's state is that of one upsert per chunk document, in chunk order |
| Watcher.FileWatcher.ProcessCreation | vector_index_mcp/file_watcher.py:139-143 | the registry and the indexer's state follow `CreateEffect`; the ignore check's exception is passed on |
| Watcher.FileWatcher.ProcessModification | vector_index_mcp/file_watcher.py:145-189 | the registry and the indexer's state follow `ModifyEffect` |
| Watcher.FileWatcher.ProcessDeletion | vector_index_mcp/file_watcher.py:191-205 | the registry and the indexer's state follow `DeleteEffect` |
| Watcher.FileWatcher.ScanFile | vector_index_mcp/file_watcher.py:132-136 | the registry, the count and the indexer's state follow `ScanNext` for the path; the ignore check's exception is returned |
| Watcher.FileWatcher.ScanEntry | vector_index_mcp/file_watcher.py:131-136 | the registry, the count and the indexer's state follow `ScanAll` over the directory's files |
| Watcher.FileWatcher.ScanWalk | vector_index_mcp/file_watcher.py:130-136 | the registry, the count and the indexer's state follow `ScanDirs` over the walk |
| Watcher.FileWatcher.InitialScan | vector_index_mcp/file_watcher.py:127-137 | the registry and the indexer's state follow `ScanFrom` over the walk; the result is Success(the number of files the scan counted), which the source only logs at line 137 (it returns None), or the raised error |
| Watcher.ProjectEventHandler.OnCreated | vector_index_mcp/file_watcher.py:220-222 | a directory event changes nothing; otherwise it is a creation |
| Watcher.ProjectEventHandler.OnModified | vector_index_mcp/file_watcher.py:224-226 | a directory event changes nothing; otherwise it is a modification |
| Watcher.ProjectEventHandler.OnDeleted | vector_index_mcp/file_watcher.py:228-230 | a directory event changes nothing; otherwise it is a deletion |
| Watcher.ProjectEventHandler.OnMoved | vector_index_mcp/file_watcher.py:232-237 | a directory event changes nothing; otherwise it is the source's deletion followed by the destination's creation |
| Server.StartWatcher | vector_index_mcp/mcp_server.py:92-111 | a no-op while the thread is alive; otherwise the thread starts and the status becomes WATCHING |
| Server.Initialized | vector_index_mcp/mcp_server.py:68-90 | after a successful load the indexer is installed and the watcher runs; after a failure the exception is stored and the status is ERROR |
| Server.BeginScan | vector_index_mcp/mcp_server.py:127-144 | a foreign path raises ValueError and records the error; a scan while SCANNING raises RuntimeError and changes nothing; otherwise the scan starts and its times and errors are reset |
| Server.EndScan | vector_index_mcp/mcp_server.py:151-164 | the end time is set; the status is WATCHING exactly when nothing failed, else ERROR with "Indexing scan failed: …" reported first |
| Server.ScanFailure | vector_index_mcp/mcp_server.py:145-159 | the scan fails exactly when re-indexing with no indexer or when the walk raised |
| Server.ScanRequests | vector_index_mcp/mcp_server.py:146-152 | without re-indexing, only the walk's calls; when re-indexing, the clear of the project path comes before them; when re-indexing with no indexer, no call at all, since the clear raises before the walk |
| Server.SingleFlight | vector_index_mcp/mcp_server.py:136-141 | once a scan has started, a second one is refused and changes nothing |
| Server.CompletedScanReports | vector_index_mcp/mcp_server.py:140-156 | a scan that completes leaves WATCHING, its own times, and only the initialisation error to report |
| Server.UnexpectedKeyword | vector_index_mcp/mcp_server.py:54-59 | keyword binding fails exactly when some keyword is not a declared parameter, and names such a keyword |
| Server.WatcherKeywordRejectedAsWritten | vector_index_mcp/mcp_server.py:54-59 | as written, the watcher's construction rejects `abs_lancedb_path_to_ignore` |
| Server.WatcherKeywordsBind | vector_index_mcp/mcp_server.py:54-57 | without that keyword, the watcher's arguments bind |
| Server.MCPServer.constructor | vector_index_mcp/mcp_server.py:30-64 | INITIALIZING with no indexer, no times and no errors; the watcher has an empty registry and the settings' patterns |
| Server.MCPServer.StartWatcherThread | vector_index_mcp/mcp_server.py:92-111 | the fields follow `StartWatcher` |
| Server.MCPServer.InitializeDependencies | vector_index_mcp/mcp_server.py:68-90 | the fields follow `Initialized` applied to the load's outcome; the indexer's table is the loaded one |
| Server.MCPServer.StartScan | vector_index_mcp/mcp_server.py:127-144 | the fields and the raised exception follow `BeginScan` |
| Server.MCPServer.CompleteScan | vector_index_mcp/mcp_server.py:145-164 | the fields follow `EndScan`; the registry and the indexer's state follow the clear and the initial scan; a failure is re-raised |
| Server.MCPServer.ScanProjectFiles | vector_index_mcp/mcp_server.py:113-164 | a refused scan changes only what `BeginScan` says; an admitted one ends as `EndScan` says, with the calls the scan made |
| Server.MCPServer.CurrentStatus | vector_index_mcp/mcp_server.py:184-214 | the path, status name and times; a chunk count (the count read as awaited) exactly when there is an indexer; a non-empty `current_error` is reported before the initialisation error |
| Server.MCPServer.PerformSearch | vector_index_mcp/mcp_server.py:216-247 | refused without an indexer, whatever the status; otherwise the indexer's results (the search read as awaited), or "Search failed: …" |
| Routers.ReadinessGate | vector_index_mcp/routers/index.py:42-52 | INITIALIZING is 503, ERROR is 500 with the stored exception, every other status passes |
| Routers.TriggerIndex | vector_index_mcp/routers/index.py:28-73 | corrected router: INITIALIZING 503, ERROR 500, SCANNING 409; it accepts exactly from WATCHING or READY and schedules the scan on the configured path |
| Routers.TriggerIndexAsWritten | vector_index_mcp/routers/index.py:42-69 | as written, every request fails, because the scheduled `_perform_scan` does not exist on this server |
| Routers.UndefinedScanAttribute | vector_index_mcp/routers/index.py:65-69 | for a WATCHING server, the router as written answers 500 where the corrected one schedules the scan |
| Routers.ScheduledScanStarts | vector_index_mcp/routers/index.py:39-69 | a scan the corrected router schedules passes the scan's own checks and starts |
| Routers.Reshaped | vector_index_mcp/routers/search.py:46-64 | the fields are copied; dict or model metadata is kept, and anything else becomes "<metadata error>" |
| Routers.ReshapeResults | vector_index_mcp/routers/search.py:45-64 | one item per row, in order |
| Routers.StoredRowsReshape | vector_index_mcp/routers/search.py:47-53 | rows the indexer stores always keep their own metadata |
| Routers.SearchDocuments | vector_index_mcp/routers/search.py:14-72 | the readiness refusals; a missing indexer or a failing search is 500 "Search failed: …"; otherwise one reshaped item per result |
| Routers.StatusErrorMessage | vector_index_mcp/routers/status.py:41-64 | a count failure first, then READY with no indexer, then ERROR with the stored exception; none exactly otherwise |
| Routers.GetIndexingStatus | vector_index_mcp/routers/status.py:31-74 | 404 unless the absolute paths match; else the configured path, status name, times, chunk count (when there is an indexer) and error message |
| LegacyServer.StartWatcher | index_mcp/mcp_server.py:38-53 | a no-op while the thread is alive; otherwise the thread starts and the status is "Watching" |
| LegacyServer.BeginScan | index_mcp/mcp_server.py:58-74 | a foreign path sets "Error" and the error and stops; "Scanning" stops with nothing changed; otherwise the scan starts |
| LegacyServer.ScanFailure | index_mcp/mcp_server.py:75-87 | the scan fails exactly when the clear (when re-indexing) or the walk raised, and the clear's failure comes first |
| LegacyServer.ScanCalls | index_mcp/mcp_server.py:76-82 | the clear is called exactly when re-indexing, and first; the walk runs unless the clear raised |
| LegacyServer.EndScan | index_mcp/mcp_server.py:83-91 | the end time is set; "Watching" exactly when nothing failed, else "Error" with "Indexing failed: …" |
| LegacyServer.SingleFlight | index_mcp/mcp_server.py:66-71 | once a scan has started, a second one is refused and changes nothing |
| LegacyServer.MCPServer.constructor | index_mcp/mcp_server.py:18-36 | no times and no errors, the watcher thread running, status "Watching" |
| LegacyServer.MCPServer.StartWatcherThread | index_mcp/mcp_server.py:38-53 | the fields follow `StartWatcher` |
| LegacyServer.MCPServer.StartScan | index_mcp/mcp_server.py:58-74 | the fields and whether the scan goes on follow `BeginScan` |
| LegacyServer.MCPServer.CompleteScan | index_mcp/mcp_server.py:75-91 | the fields follow `EndScan`, and the calls made follow `ScanCalls`; nothing is raised |
| LegacyServer.MCPServer.PerformScan | index_mcp/mcp_server.py:55-91 | a refused scan changes only what `BeginScan` says and makes no call; an admitted one ends as `EndScan` says |
| LegacyRouters.TriggerIndex | index_mcp/routers/index.py:28-62 | only "Scanning" is refused (409); otherwise the scan is scheduled on the configured path |
| LegacyRouters.ScheduledScanStarts | index_mcp/routers/index.py:39-58 | a scan the router schedules starts, from "Error" and "Idle" too |
| LegacyRouters.Status | index_mcp/routers/status.py:30-81 | unresolvable paths give "Error"; different paths give "Not Found"; otherwise the server's fields, a count exactly in a stable status with a working count, and a failed count written into the error |
| LegacyRouters.GetIndexingStatus | index_mcp/routers/status.py:30-81 | the response is `Status`'s, and the server's `current_error` becomes the new error |
| LegacyRouters.SearchGate | routers/search.py:22-36 | "Scanning" is 409; "Error" is 503 with the stored error; "Initializing" and "Idle" are 503; the other statuses pass |
| LegacyRouters.ParseMetadata | routers/search.py:48-55 | missing or falsy metadata gives `{}`; decodable text gives its value; anything else gives the error marker |
| LegacyRouters.SearchDocuments | routers/search.py:15-76 | the status refusals; a failing search is 500 "Search failed: …"; otherwise one item per row with its metadata parsed |
| Config.EmbeddingDim | vector_index_mcp/config.py:20-29 | 384 for all-MiniLM-L6-v2, 768 for all-mpnet-base-v2, and a ValueError naming the model for every other name |
| Config.Upper | vector_index_mcp/config.py:56 | the log level upper-cased letter by letter, with no lower-case letter left |
| Config.JoinUnderAbsolute | vector_index_mcp/config.py:44-52 | joining onto an absolute directory gives an absolute path |
| Config.Normalized | vector_index_mcp/config.py:33-56 | the project path is made absolute; the LanceDB URI is kept when absolute, else joined under the project path (and so absolute); a set log level is upper-cased |
| Config.SettingsHolder.GetSettings | vector_index_mcp/config.py:31-58 | the first call builds and normalises the settings; every later call returns the same ones |

## Findings

| source | as written | input that shows it | evidently intended | confidence | as-written member | corrected member |
|---|---|---|---|---|---|---|
| vector_index_mcp/indexer.py:427-430, 463-466 | the LIKE segment escapes `%` and `_` with a backslash but leaves a backslash in the path unescaped | project path `a\b`: the pattern `a\b%` reads `\b` as a literal `b`, so the path `a\b` itself is not counted or cleared | a path's own backslashes escaped, so that the filter selects exactly the paths below the project path | not executed | Index.BackslashPathMissedAsWritten | Index.PrefixFilterSelectsPrefix |
| vector_index_mcp/indexer.py:346-348 | the file path is pasted into `file_path = '…'` unquoted | file `it's`: the condition `file_path = 'it's'` is not a readable clause, so the delete raises and the file's old rows stay | quotes doubled inside the literal, so that the condition selects exactly that file's rows | not executed | Index.QuotedPathUnreadableAsWritten | Index.RemoveConditionSelectsPath |
| vector_index_mcp/routers/index.py:65-69 | the scheduled task is `server_instance._perform_scan`, which this `MCPServer` does not define (its scan is `_scan_project_files`) | any POST /index while WATCHING or READY: AttributeError, answered with 500 | the server's scan scheduled on the configured path | not executed | Routers.TriggerIndexAsWritten | Routers.TriggerIndex |
| vector_index_mcp/mcp_server.py:54-59 | `FileWatcher(...)` is passed `abs_lancedb_path_to_ignore`, which `FileWatcher.__init__` does not declare | any `MCPServer(project_path)`: TypeError before the server exists | the watcher built from the three arguments it declares | not executed | Server.WatcherKeywordRejectedAsWritten | Server.WatcherKeywordsBind |

The rest of the model uses the corrected definitions:

- `Index.PrefixFilter` and `Index.RemoveCondition`;
- `Routers.TriggerIndex`;
- `Server.MCPServer.constructor`, which builds the watcher without the extra keyword.

## Left out

- Watcher.FileWatcher.constructor: the watcher's own exclusion of the LanceDB storage directory is not modelled. `abs_lancedb_path_to_ignore` is the rejected keyword of the last finding, and nothing in `file_watcher.py` reads it.
- Server.MCPServer.constructor: the constructor allocates the `Index.Indexer` object that `_initialize_dependencies` later loads, so that the watcher holds one object from the start. Whether the source's watcher indexer is still None is the watcher's `attached` flag, which stays false until initialisation succeeds. While it is false, each watcher call on the indexer raises in the source and is caught. The model gives the same outcome: no backend call; a file with chunks is neither recorded nor counted; a file without chunks is recorded but not counted (`Watcher.DetachedEventsCallNothing`, `Watcher.DetachedScanCallsNothing`). The server's `hasIndexer` flag keeps the source's "indexer is None" test for every server-level decision.
- Server.MCPServer.InitializeDependencies: a second initialisation reloads the same indexer object instead of building a new one. So a failed second initialisation leaves the installed indexer with the table `LoadedTable` gives, where the source builds a fresh indexer, drops it, and keeps the old one untouched.
- Server.MCPServer.CurrentStatus: `get_indexed_chunk_count` never raises, because it answers 0 on any failure. So the `except` branch at vector_index_mcp/mcp_server.py:195-197 is not reachable in this model.
- Server.MCPServer.CurrentStatus: vector_index_mcp/mcp_server.py:194 passes the coroutine function `get_indexed_chunk_count` to `asyncio.to_thread`, so as written `indexed_chunk_count` is a coroutine object that never runs, not a number. The model reads the call as awaited and reports the count.
- Routers.GetIndexingStatus: the count-failure branch at vector_index_mcp/routers/status.py:47-50 cannot happen, for the same reason. `Routers.StatusErrorMessage` still states it. The router calls the coroutine `get_indexed_chunk_count` at vector_index_mcp/routers/status.py:46 without `await`, so as written it holds a coroutine object rather than a number. The model reads the call as awaited.
- Routers.SearchDocuments: the indexer's `search` is a coroutine that the router calls without `await`. The model reads the call as awaited.
- Routers.SearchDocuments: `SearchRequest.top_k` (vector_index_mcp/models.py:99) accepts any integer, and the model takes a natural number. What LanceDB's `limit` does with a negative or zero `top_k` is decided inside LanceDB, which is not part of this model.
- `asyncio.to_thread` and the watcher thread are not modelled as concurrency. `watcherAlive` stands for `is_alive()`, and the Observer's start, stop and join, and `shutdown`, are left out.
- Times are integers from an abstract clock, and `time.time()` floats are not modelled.
- Server.MCPServer.PerformSearch: the source allows any `top_k`, including a negative one; the model takes `top_k` as a natural number.
- Server.MCPServer.PerformSearch: vector_index_mcp/mcp_server.py:242 passes the coroutine function `search` to `asyncio.to_thread`, so as written `results` is a coroutine object, and `len(results)` at line 243 raises TypeError. So every search with an indexer answers "Search failed: object of type 'coroutine' has no len()". The model reads the call as awaited and returns the indexer's results.
- Index.Indexer.Search: `top_k` is a natural number, where the source's `int` (vector_index_mcp/models.py:99) can be negative. LanceDB's `limit` with a negative or zero value is not modelled.
- Index.Indexer.rank: the backend's nearest-first ordering is unconstrained. The backend is taken to reorder a subset of the table's rows for the query vector, and no lemma depends on that.
- Index.Step: a remove and a clear use the corrected conditions of the Findings. For a file `it's`, the source's delete as written raises, and the old rows stay. For a project path `a\b`, the clear as written leaves the rows of `a\b` itself.
- Index.Indexer.RemoveDocument: uses the corrected condition. For a file `it's`, the source as written returns False and keeps the file's rows.
- Index.Indexer.ChunkCount: uses the corrected prefix filter. For a project path `a\b`, the count as written misses the rows of `a\b` itself.
- Index.Indexer.ClearIndex: uses the corrected prefix filter. For a project path `a\b`, the clear as written leaves the rows of `a\b` itself.
- Index.Indexer.ClearIndex: `clear_index` is a plain function that calls the async table's `count_rows` and `delete` without `await` (vector_index_mcp/indexer.py:470-473). As written, `count_before` is a coroutine, `count_before > 0` raises TypeError, and the handler at line 482 catches it, so the clear removes nothing. The model reads both calls as awaited.
- Watcher.ModifyEffect: the remove uses the corrected condition. For a file `it's`, the source's delete as written raises inside `remove_document`, which returns False; re-indexing goes on, so the old rows stay beside the new ones.
- Watcher.DeleteEffect: the remove uses the corrected condition. For a file `it's`, the source's delete as written raises inside `remove_document`, which returns False; the registry still forgets the file, and its rows stay.
- Watcher.FileWatcher.ProcessModification: follows `Watcher.ModifyEffect`, with the same corrected condition.
- Watcher.FileWatcher.ProcessDeletion: follows `Watcher.DeleteEffect`, with the same corrected condition.
- Index: the embedding model, LanceDB's vector search, `create_vector_index` (reduced to succeeding or raising) and `generate_embedding` are uninterpreted. `IndexedDocument`'s vector and the search result's score are not kept.
- Index: the backend's LIKE matcher is modelled only for `%`, `_` and backslash escapes, and the `=` comparison only for single-quoted literals.
- Chunker.ChunkContent: a decode that raises partway through the token loop (which makes the source fall back to characters) is not modelled. `decode` is total here.
- Config: the `.env` file, `TESTING_MODE`, case-insensitive variable names and pydantic's parsing of the integer and list fields are not modelled. Only the four string fields come from the environment. `os.getcwd()` and `os.path.abspath` are inputs.
- Config.Upper: upper-cases ASCII letters only, where Python's `str.upper` covers all of Unicode.
- Config: `chunk_size` and `chunk_overlap` (1000 and 200) are carried but unused, because the chunker is always called with its own defaults (512 and 128). `watch_delay` and `debounce_period` are not modelled.
- Watcher: the ignore patterns are matched by an uninterpreted gitwildmatch matcher, and the `.gitignore` lines are an input. A `.gitignore` that cannot be read counts as absent. When no patterns are given, Python extends a fresh list; when they are given, it extends the caller's list in place. That aliasing is not modelled.
- Watcher: `_process_and_index_file` catches exceptions from the indexer. The modelled indexer reports its failures as ignored calls instead of raising.
- Watcher.FileWatcher.ProcessAndIndexFile: the watcher calls the indexer's `async def` methods `remove_document` and `add_or_update_document` without `await` (vector_index_mcp/file_watcher.py:97, 113, 179, 197). As written, with an indexer present, each call only creates a coroutine that never runs, so no watcher event and no initial scan changes the table, while the registry and the scan count are updated as modelled. The model reads the calls as awaited. The same holds for `Watcher.FileWatcher.ProcessModification`, `Watcher.FileWatcher.ProcessDeletion` and `Watcher.FileWatcher.InitialScan`.
- LegacyServer: `index_mcp/indexer.py` and `index_mcp/file_watcher.py` are not part of this model. What their `clear_index` and `initial_scan` raise is an input, and the calls made on them are recorded.
- LegacyRouters: the indexer answers of the older routers (the chunk count, the search rows, their metadata JSON) are inputs. `json.loads` is an oracle that says whether a text decodes, and `Path.resolve` is an oracle.
- `vector_index_mcp/main.py`, `main_mcp.py`, `cli.py`, `dependencies.py`, the top-level `mcp_server.py` and `indexer.py`, and the tests are not part of this model.
