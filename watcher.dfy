/**
 * The change registry of `vector_index_mcp/file_watcher.py`: the ignore rule, the per-file
 * index step, the create/modify/delete rules and their event dispatch, and the initial scan.
 * The file system is an oracle (`Disk`) fixed for the duration of one call; the vector
 * backend is an `Index.Indexer`.
 */
module Watcher {
  import opened Wrappers
  import Chunker
  import Index

  /** What `known_files` stores per path. */
  datatype FileInfo = FileInfo(hash: string, lastModified: int)

  /**
   * The file system as the watcher sees it during one call:
   * `resolve` is `Path.resolve()` (the absolute path, or the text it raised),
   * `isDir` is asked of resolved paths, `hash` is `_calculate_hash` (hex SHA-256, "" when the file cannot be read),
   * `mtime` is `_get_last_modified` (0 when unavailable), `read` is the decoded text (None when opening raises).
   */
  datatype Disk = Disk(
    resolve: string -> Result<string, string>,
    isDir: string -> bool,
    hash: string -> string,
    mtime: string -> int,
    read: string -> Option<string>)

  /** A watchdog file-system event. */
  datatype FsEvent = FsEvent(srcPath: string, destPath: string, isDirectory: bool)

  /** One `os.walk` entry: a directory and the names of the files in it. */
  datatype WalkEntry = WalkEntry(root: string, files: seq<string>)

  /**
   * What the watcher was built with: the resolved project root, the ignore patterns,
   * the gitwildmatch matcher (abstract) and the tokenizer `chunk_content` uses.
   */
  datatype WatchConfig = WatchConfig(
    projectRoot: string,
    patterns: seq<string>,
    matches: (seq<string>, string) -> bool,
    tok: Chunker.Tokenizer)

  // ---------------------------------------------------------------------------
  // Paths and document ids.
  // ---------------------------------------------------------------------------

  /** `os.path.join(a, b)` for POSIX paths. */
  function JoinPath(a: string, b: string): string
  {
    if |b| > 0 && b[0] == '/' then b
    else if a == [] || a[|a| - 1] == '/' then a + b
    else a + "/" + b
  }

  /** A directory with its trailing separator. */
  function DirPrefix(root: string): string
  {
    if root != [] && root[|root| - 1] == '/' then root else root + "/"
  }

  /**
   * `PurePath.relative_to` on resolved paths: "." for the root itself, the rest of the path
   * for one below it, None for a path outside it.
   */
  function RelativeTo(abs: string, root: string): (r: Option<string>)
    ensures r == Some(".") <== abs == root
    ensures r.Some? && abs != root ==> r.value != [] && abs == DirPrefix(root) + r.value
    ensures r.None? <==> abs != root && forall rel :: rel != [] ==> DirPrefix(root) + rel != abs
  {
    if abs == root then Some(".")
    else
      var base := DirPrefix(root);
      if |abs| > |base| && abs[..|base|] == base then
        assert abs == base + abs[|base|..];
        Some(abs[|base|..])
      else
        assert forall rel :: rel != [] ==> base + rel != abs by {
          forall rel | rel != [] ensures base + rel != abs {
            PrefixOfAppend(base, rel);
          }
        }
        None
  }

  lemma PrefixOfAppend(a: string, b: string)
    ensures (a + b)[..|a|] == a
  {
  }

  function Digit(d: nat): char
    requires d < 10
  {
    "0123456789"[d]
  }

  lemma DigitInjective(d: nat, e: nat)
    requires d < 10 && e < 10 && Digit(d) == Digit(e)
    ensures d == e
  {
  }

  /** Python's `str(n)` for a natural number. */
  function NatToString(n: nat): (s: string)
    ensures |s| >= 1 && forall k :: 0 <= k < |s| ==> '0' <= s[k] <= '9'
    ensures n >= 10 <==> |s| >= 2
    decreases n
  {
    if n < 10 then [Digit(n)] else NatToString(n / 10) + [Digit(n % 10)]
  }

  lemma {:induction false} NatToStringInjective(a: nat, b: nat)
    requires NatToString(a) == NatToString(b)
    ensures a == b
    decreases a
  {
    var s := NatToString(a);
    if a >= 10 && b >= 10 {
      assert a / 10 == b / 10 by {
        assert s[..|s| - 1] == NatToString(a / 10) && s[..|s| - 1] == NatToString(b / 10);
        NatToStringInjective(a / 10, b / 10);
      }
      assert a % 10 == b % 10 by {
        assert Digit(a % 10) == s[|s| - 1] == Digit(b % 10);
        DigitInjective(a % 10, b % 10);
      }
    } else if a < 10 && b < 10 {
      assert Digit(a) == s[0] == Digit(b);
      DigitInjective(a, b);
    }
  }

  /** The id of chunk `i` of `path`. */
  function DocId(path: string, i: nat): string
  {
    path + "::" + NatToString(i)
  }

  lemma ColonBeforeDigits(p: string, s: string)
    ensures var id := p + "::" + s; id[|id| - |s| - 1] == ':'
  {
  }

  /** Distinct (file, chunk) pairs get distinct ids: the digits after the last `::` fix both. */
  lemma DocIdInjective(p: string, i: nat, q: string, j: nat)
    requires DocId(p, i) == DocId(q, j)
    ensures p == q && i == j
  {
    var s, t := NatToString(i), NatToString(j);
    var id := DocId(p, i);
    if |s| < |t| {
      ColonBeforeDigits(p, s);
    } else if |t| < |s| {
      ColonBeforeDigits(q, t);
    }
    assert s == id[|id| - |s|..] == t;
    NatToStringInjective(i, j);
    assert p == id[..|p|] == q;
  }

  // ---------------------------------------------------------------------------
  // The per-file index step.
  // ---------------------------------------------------------------------------

  /** `_should_ignore`: directories and paths outside the root are ignored; otherwise the patterns decide. */
  function ShouldIgnore(c: WatchConfig, disk: Disk, path: string): (r: Result<bool, string>)
    ensures r.Failure? <==> disk.resolve(path).Failure?
    ensures r.Success? && disk.isDir(disk.resolve(path).value) ==> r.value
    ensures r.Success? && RelativeTo(disk.resolve(path).value, c.projectRoot).None? ==> r.value
  {
    match disk.resolve(path)
    case Failure(e) => Failure(e)
    case Success(abs) =>
      if disk.isDir(abs) then Success(true)
      else
        match RelativeTo(abs, c.projectRoot)
        case None => Success(true)
        case Some(rel) => Success(c.matches(c.patterns, rel))
  }

  /** What `_process_and_index_file` reads from disk: nothing usable, or the file's info and chunks. */
  datatype IndexPlan = Unreadable | Readable(info: FileInfo, chunks: seq<string>)

  function PlanFor(c: WatchConfig, disk: Disk, path: string): (p: IndexPlan)
    ensures p.Unreadable? <==> disk.hash(path) == [] || disk.read(path).None?
    ensures p.Readable? ==> p.info == FileInfo(disk.hash(path), disk.mtime(path)) && p.info.hash != []
    ensures p.Readable? ==>
      p.chunks == Chunker.Chunks(disk.read(path).value, Chunker.DEFAULT_CHUNK_SIZE, Chunker.DEFAULT_OVERLAP, c.tok).value
  {
    var fileHash := disk.hash(path);
    var lastModified := disk.mtime(path);
    if fileHash == [] then Unreadable
    else
      match disk.read(path)
      case None => Unreadable
      case Some(content) =>
        Readable(FileInfo(fileHash, lastModified),
          Chunker.Chunks(content, Chunker.DEFAULT_CHUNK_SIZE, Chunker.DEFAULT_OVERLAP, c.tok).value)
  }

  /** The documents of a file's chunks, in chunk order. */
  function ChunkDocs(path: string, info: FileInfo, chunks: seq<string>): (docs: seq<Index.IndexedDocument>)
    ensures |docs| == |chunks|
    ensures forall i :: 0 <= i < |chunks| ==>
      docs[i].documentId == DocId(path, i) && docs[i].filePath == path && docs[i].chunkIndex == i
      && docs[i].totalChunks == |chunks| && docs[i].text == chunks[i] && docs[i].metadata.originalPath == path
      && docs[i].contentHash == info.hash && docs[i].lastModified == info.lastModified
  {
    seq(|chunks|, i requires 0 <= i < |chunks| =>
      Index.IndexedDocument(DocId(path, i), path, info.hash, info.lastModified, i, |chunks|, chunks[i], Index.FileMetadata(path)))
  }

  /**
   * The backend calls of one index step: a remove for a file without chunks, else one
   * upsert per chunk. With no indexer (`attached` false) the first of them raises, so none is made.
   */
  function IndexRequests(path: string, plan: IndexPlan, attached: bool): (rs: seq<Index.Request>)
    ensures plan.Unreadable? || !attached ==> rs == []
    ensures attached && plan.Readable? && plan.chunks == [] ==> rs == [Index.RemoveRequest(path)]
    ensures attached && plan.Readable? && plan.chunks != [] ==> |rs| == |plan.chunks|
  {
    if !attached then []
    else
      match plan
      case Unreadable => []
      case Readable(info, chunks) =>
        if chunks == [] then [Index.RemoveRequest(path)] else Index.Upserts(ChunkDocs(path, info, chunks))
  }

  /** A file with chunks is indexed by one upsert per chunk, in chunk order, each naming its chunk. */
  lemma IndexRequestsUpsertChunks(path: string, plan: IndexPlan)
    requires plan.Readable? && plan.chunks != []
    ensures var rs := IndexRequests(path, plan, true);
      |rs| == |plan.chunks| &&
      forall i :: 0 <= i < |rs| ==>
        (rs[i].UpsertRequest? && rs[i].doc.documentId == DocId(path, i) && rs[i].doc.chunkIndex == i
         && rs[i].doc.totalChunks == |plan.chunks| && rs[i].doc.text == plan.chunks[i]
         && rs[i].doc.metadata.originalPath == path)
  {
  }

  /**
   * The registry after one index step: a readable file is recorded, except that with no
   * indexer a file with chunks raises before it is recorded (one without chunks is recorded
   * before its remove raises).
   */
  function KnownAfter(known: map<string, FileInfo>, path: string, plan: IndexPlan, attached: bool): map<string, FileInfo>
  {
    if plan.Readable? && (attached || plan.chunks == []) then known[path := plan.info] else known
  }

  /** No stored entry has an empty hash. */
  predicate HashesStored(known: map<string, FileInfo>)
  {
    forall p :: p in known ==> known[p].hash != []
  }

  /** The registry and the backend calls one event produces, and the exception (if any) it ends with. */
  datatype Effect = Effect(known: map<string, FileInfo>, requests: seq<Index.Request>, error: Option<string>)

  /** `process_creation`; `attached` says whether the watcher has an indexer. */
  function CreateEffect(known: map<string, FileInfo>, c: WatchConfig, disk: Disk, path: string, attached: bool): Effect
  {
    match ShouldIgnore(c, disk, path)
    case Failure(e) => Effect(known, [], Some(e))
    case Success(ignored) =>
      if ignored then Effect(known, [], None)
      else
        var plan := PlanFor(c, disk, path);
        Effect(KnownAfter(known, path, plan, attached), IndexRequests(path, plan, attached), None)
  }

  /** The if/elif chain of `process_modification`. */
  datatype Decision = UnknownFile | Changed | HashFailed | Unchanged

  function Decide(known: map<string, FileInfo>, path: string, currentHash: string, currentModified: int): (d: Decision)
    ensures d.UnknownFile? <==> path !in known
    ensures d.Changed? <==> path in known && (currentHash != known[path].hash || currentModified != known[path].lastModified)
  {
    if path !in known then UnknownFile
    else if currentHash != known[path].hash || currentModified != known[path].lastModified then Changed
    else if currentHash == [] then HashFailed
    else Unchanged
  }

  function NeedsUpdate(d: Decision): bool
  {
    d.UnknownFile? || d.Changed?
  }

  /**
   * `process_modification`: an unknown or changed file has its rows removed and is indexed
   * again. With no indexer the remove raises and is caught, and nothing else happens.
   */
  function ModifyEffect(known: map<string, FileInfo>, c: WatchConfig, disk: Disk, path: string, attached: bool): Effect
  {
    match ShouldIgnore(c, disk, path)
    case Failure(e) => Effect(known, [], Some(e))
    case Success(ignored) =>
      if ignored then Effect(known, [], None)
      else if NeedsUpdate(Decide(known, path, disk.hash(path), disk.mtime(path))) && attached then
        var plan := PlanFor(c, disk, path);
        Effect(KnownAfter(known, path, plan, true), [Index.RemoveRequest(path)] + IndexRequests(path, plan, true), None)
      else Effect(known, [], None)
  }

  /**
   * `process_deletion`: no ignore check; only a known path is removed. With no indexer the
   * remove raises and is caught before the entry is deleted.
   */
  function DeleteEffect(known: map<string, FileInfo>, path: string, attached: bool): Effect
  {
    if path in known && attached then Effect(known - {path}, [Index.RemoveRequest(path)], None)
    else Effect(known, [], None)
  }

  /** `on_moved` for a file: deletion of the source, then creation of the destination. */
  function MoveEffect(known: map<string, FileInfo>, c: WatchConfig, disk: Disk, src: string, dest: string, attached: bool): Effect
  {
    var d := DeleteEffect(known, src, attached);
    var cr := CreateEffect(d.known, c, disk, dest, attached);
    Effect(cr.known, d.requests + cr.requests, cr.error)
  }

  // ---------------------------------------------------------------------------
  // The initial scan.
  // ---------------------------------------------------------------------------

  /** The file paths of one walk entry, joined onto its directory. */
  function DirPaths(e: WalkEntry): (ps: seq<string>)
    ensures |ps| == |e.files|
  {
    seq(|e.files|, j requires 0 <= j < |e.files| => JoinPath(e.root, e.files[j]))
  }

  /** Every walked file path, in walk order. */
  function WalkPaths(walk: seq<WalkEntry>): seq<string>
  {
    if walk == [] then [] else WalkPaths(walk[..|walk| - 1]) + DirPaths(walk[|walk| - 1])
  }

  datatype ScanState = ScanState(known: map<string, FileInfo>, requests: seq<Index.Request>, processed: nat, error: Option<string>)

  /** One walked path of `initial_scan`: a path not ignored is indexed and counted when that succeeds; an ignore check that raises ends the scan. */
  function ScanNext(c: WatchConfig, disk: Disk, prev: ScanState, p: string, attached: bool): (next: ScanState)
    ensures next.processed <= prev.processed + 1
  {
    if prev.error.Some? then prev
    else
      match ShouldIgnore(c, disk, p)
      case Failure(e) => prev.(error := Some(e))
      case Success(ignored) =>
        if ignored then prev
        else
          var plan := PlanFor(c, disk, p);
          ScanState(KnownAfter(prev.known, p, plan, attached), prev.requests + IndexRequests(p, plan, attached),
            prev.processed + if attached && plan.Readable? then 1 else 0, None)
  }

  /** The scan continued from `s` over `paths`, in order. */
  function ScanAll(c: WatchConfig, disk: Disk, s: ScanState, paths: seq<string>, attached: bool): (t: ScanState)
    ensures t.processed <= s.processed + |paths|
    decreases |paths|
  {
    if paths == [] then s else ScanNext(c, disk, ScanAll(c, disk, s, paths[..|paths| - 1], attached), paths[|paths| - 1], attached)
  }

  /** `initial_scan` from the registry `known` over the walked paths. */
  function ScanFrom(known: map<string, FileInfo>, c: WatchConfig, disk: Disk, paths: seq<string>, attached: bool): (s: ScanState)
    ensures s.processed <= |paths|
  {
    ScanAll(c, disk, ScanState(known, [], 0, None), paths, attached)
  }

  // ---------------------------------------------------------------------------
  // Properties of the rules.
  // ---------------------------------------------------------------------------

  /** Every rule keeps empty hashes out of the registry. */
  lemma EffectsKeepHashes(known: map<string, FileInfo>, c: WatchConfig, disk: Disk, path: string, dest: string, attached: bool)
    requires HashesStored(known)
    ensures HashesStored(CreateEffect(known, c, disk, path, attached).known)
    ensures HashesStored(ModifyEffect(known, c, disk, path, attached).known)
    ensures HashesStored(DeleteEffect(known, path, attached).known)
    ensures HashesStored(MoveEffect(known, c, disk, path, dest, attached).known)
  {
  }

  /**
   * Without an indexer no event reaches the backend: a modification or a deletion leaves
   * the registry as it was, and a creation records at most a file without chunks.
   */
  lemma DetachedEventsCallNothing(known: map<string, FileInfo>, c: WatchConfig, disk: Disk, path: string, dest: string)
    ensures var e := CreateEffect(known, c, disk, path, false);
      e.requests == [] && (e.known == known || (PlanFor(c, disk, path).Readable? && PlanFor(c, disk, path).chunks == []
        && e.known == known[path := PlanFor(c, disk, path).info]))
    ensures var e := ModifyEffect(known, c, disk, path, false); e.requests == [] && e.known == known
    ensures DeleteEffect(known, path, false) == Effect(known, [], None)
    ensures MoveEffect(known, c, disk, path, dest, false).requests == []
  {
  }

  /** With no empty hash stored, the "hash calculation failed" branch of `process_modification` is never taken. */
  lemma HashFailureUnreachable(known: map<string, FileInfo>, path: string, currentHash: string, currentModified: int)
    requires HashesStored(known)
    ensures Decide(known, path, currentHash, currentModified) != HashFailed
  {
  }

  /** A known file whose hash and mtime are both unchanged: no backend call, no registry change. */
  lemma UnchangedModifyIsNoop(known: map<string, FileInfo>, c: WatchConfig, disk: Disk, path: string, attached: bool)
    requires ShouldIgnore(c, disk, path) == Success(false)
    requires path in known && known[path] == FileInfo(disk.hash(path), disk.mtime(path))
    ensures ModifyEffect(known, c, disk, path, attached) == Effect(known, [], None)
  {
  }

  /** Any other modification of a path that is not ignored starts with the removal of its old rows. */
  lemma ChangedModifyRemovesFirst(known: map<string, FileInfo>, c: WatchConfig, disk: Disk, path: string)
    requires ShouldIgnore(c, disk, path) == Success(false)
    requires path !in known || known[path] != FileInfo(disk.hash(path), disk.mtime(path))
    ensures var e := ModifyEffect(known, c, disk, path, true);
      e.error.None? && |e.requests| >= 1 && e.requests[0] == Index.RemoveRequest(path)
  {
  }

  lemma {:induction false} RowsForEmbedded(docs: seq<Index.IndexedDocument>, embed: string -> Index.Vector, path: string, other: string)
    requires forall i :: 0 <= i < |docs| ==> docs[i].filePath == path
    ensures Index.RowsFor(Index.Embedded(docs, embed), other) == if other == path then Index.Embedded(docs, embed) else []
    decreases |docs|
  {
    if docs != [] {
      var n := |docs| - 1;
      var init := docs[..n];
      var row := Index.StoredRow(docs[n], embed(docs[n].text));
      var e := Index.Embedded(init, embed);
      assert Index.Embedded(docs, embed) == e + [row];
      assert Index.RowsFor(e, other) == if other == path then e else [] by {
        assert forall i :: 0 <= i < |init| ==> init[i].filePath == path;
        RowsForEmbedded(init, embed, path, other);
      }
      assert Index.RowsFor([row], other) == if other == path then [row] else [] by {
        Index.RowsForOne(row, other);
      }
      Index.RowsForAppend(e, [row], other);
    }
  }

  /** The rows an index step leaves for each file on a working backend. */
  lemma IndexStepRows(s: Index.Store, path: string, plan: IndexPlan, other: string, outage: Option<string>, embed: string -> Index.Vector)
    requires s.table.Some? && outage.None? && plan.Readable?
    ensures var t := Index.StepAll(s, IndexRequests(path, plan, true), outage, embed).table.value;
      Index.RowsFor(t, other) ==
        if other != path then Index.RowsFor(s.table.value, other)
        else if plan.chunks == [] then []
        else Index.RowsFor(s.table.value, path) + Index.Embedded(ChunkDocs(path, plan.info, plan.chunks), embed)
  {
    if plan.chunks == [] {
      Index.StepAllOne(s, Index.RemoveRequest(path), outage, embed);
      Index.RemoveThenRows(s, path, other, outage, embed);
    } else {
      var docs := ChunkDocs(path, plan.info, plan.chunks);
      Index.UpsertsAppend(s, docs, outage, embed);
      Index.RowsForAppend(s.table.value, Index.Embedded(docs, embed), other);
      RowsForEmbedded(docs, embed, path, other);
    }
  }

  /**
   * After a modification that re-indexes, the backend holds for the path exactly the
   * embedded chunks of its current content (none for an empty file), and every other
   * file's rows are as they were.
   */
  lemma ModifyReplacesRows(known: map<string, FileInfo>, c: WatchConfig, disk: Disk, path: string, other: string,
                           s: Index.Store, outage: Option<string>, embed: string -> Index.Vector)
    requires ShouldIgnore(c, disk, path) == Success(false)
    requires path !in known || known[path] != FileInfo(disk.hash(path), disk.mtime(path))
    requires PlanFor(c, disk, path).Readable? && s.table.Some? && outage.None?
    ensures var plan := PlanFor(c, disk, path);
      var t := Index.StepAll(s, ModifyEffect(known, c, disk, path, true).requests, outage, embed).table.value;
      Index.RowsFor(t, other) ==
        if other != path then Index.RowsFor(s.table.value, other)
        else Index.Embedded(ChunkDocs(path, plan.info, plan.chunks), embed)
  {
    var plan := PlanFor(c, disk, path);
    assert ModifyEffect(known, c, disk, path, true).requests == [Index.RemoveRequest(path)] + IndexRequests(path, plan, true);
    var removed := Index.StepAll(s, [Index.RemoveRequest(path)], outage, embed);
    Index.StepAllAppend(s, [Index.RemoveRequest(path)], IndexRequests(path, plan, true), outage, embed);
    assert removed.table.Some? && Index.RowsFor(removed.table.value, other) ==
        (if other == path then [] else Index.RowsFor(s.table.value, other)) by {
      Index.StepAllOne(s, Index.RemoveRequest(path), outage, embed);
      Index.RemoveThenRows(s, path, other, outage, embed);
    }
    assert Index.RowsFor(removed.table.value, path) == [] by {
      Index.StepAllOne(s, Index.RemoveRequest(path), outage, embed);
      Index.RemoveThenRows(s, path, path, outage, embed);
    }
    IndexStepRows(removed, path, plan, other, outage, embed);
    if other == path && plan.chunks != [] {
      assert [] + Index.Embedded(ChunkDocs(path, plan.info, plan.chunks), embed)
        == Index.Embedded(ChunkDocs(path, plan.info, plan.chunks), embed);
    }
  }

  /** Deleting a known file leaves none of its rows on a working backend and forgets it. */
  lemma DeleteForgetsFile(known: map<string, FileInfo>, path: string, s: Index.Store, outage: Option<string>, embed: string -> Index.Vector)
    requires path in known && s.table.Some? && outage.None?
    ensures var e := DeleteEffect(known, path, true);
      path !in e.known && Index.RowsFor(Index.StepAll(s, e.requests, outage, embed).table.value, path) == []
  {
    Index.StepAllOne(s, Index.RemoveRequest(path), outage, embed);
    Index.RemoveThenRows(s, path, path, outage, embed);
  }

  /**
   * A move of a known file to a readable, not ignored destination: the source's rows are
   * gone, and the destination's new rows are appended to any it already had (creation
   * issues no remove); a destination without chunks is left with no rows.
   */
  lemma MoveRows(known: map<string, FileInfo>, c: WatchConfig, disk: Disk, src: string, dest: string,
                 s: Index.Store, outage: Option<string>, embed: string -> Index.Vector)
    requires src in known && src != dest && s.table.Some? && outage.None?
    requires ShouldIgnore(c, disk, dest) == Success(false) && PlanFor(c, disk, dest).Readable?
    ensures var plan := PlanFor(c, disk, dest);
      var e := MoveEffect(known, c, disk, src, dest, true);
      var t := Index.StepAll(s, e.requests, outage, embed).table.value;
      src !in e.known && e.known[dest] == plan.info && e.error.None? &&
      Index.RowsFor(t, src) == [] &&
      Index.RowsFor(t, dest) ==
        if plan.chunks == [] then []
        else Index.RowsFor(s.table.value, dest) + Index.Embedded(ChunkDocs(dest, plan.info, plan.chunks), embed)
  {
    var plan := PlanFor(c, disk, dest);
    var d := Index.StepAll(s, [Index.RemoveRequest(src)], outage, embed);
    Index.StepAllAppend(s, [Index.RemoveRequest(src)], IndexRequests(dest, plan, true), outage, embed);
    Index.StepAllOne(s, Index.RemoveRequest(src), outage, embed);
    Index.RemoveThenRows(s, src, src, outage, embed);
    Index.RemoveThenRows(s, src, dest, outage, embed);
    IndexStepRows(d, dest, plan, src, outage, embed);
    IndexStepRows(d, dest, plan, dest, outage, embed);
  }

  lemma {:induction false} ScanAllAppend(c: WatchConfig, disk: Disk, s: ScanState, a: seq<string>, b: seq<string>, attached: bool)
    ensures ScanAll(c, disk, s, a + b, attached) == ScanAll(c, disk, ScanAll(c, disk, s, a, attached), b, attached)
    decreases |b|
  {
    if b == [] {
      assert a + b == a;
    } else {
      assert (a + b)[..|a + b| - 1] == a + b[..|b| - 1];
      assert (a + b)[|a + b| - 1] == b[|b| - 1];
      ScanAllAppend(c, disk, s, a, b[..|b| - 1], attached);
    }
  }

  /** Once an ignore check has raised, no later path changes anything. */
  lemma {:induction false} ScanAllErrored(c: WatchConfig, disk: Disk, s: ScanState, paths: seq<string>, attached: bool)
    requires s.error.Some?
    ensures ScanAll(c, disk, s, paths, attached) == s
    decreases |paths|
  {
    if paths != [] {
      ScanAllErrored(c, disk, s, paths[..|paths| - 1], attached);
    }
  }

  /** The scan over one more path is one more step. */
  lemma ScanAdvance(c: WatchConfig, disk: Disk, s: ScanState, paths: seq<string>, f: nat, attached: bool)
    requires f < |paths|
    ensures ScanAll(c, disk, s, paths[..f + 1], attached) == ScanNext(c, disk, ScanAll(c, disk, s, paths[..f], attached), paths[f], attached)
  {
    assert paths[..f + 1][..f] == paths[..f];
  }

  lemma TakeDrop<T>(xs: seq<T>, k: nat)
    requires k <= |xs|
    ensures xs[..k] + xs[k..] == xs
  {
  }

  /** A scan that has raised at path `f` ends there. */
  lemma ScanStopsAt(c: WatchConfig, disk: Disk, s: ScanState, paths: seq<string>, f: nat, attached: bool)
    requires f < |paths| && ScanAll(c, disk, s, paths[..f + 1], attached).error.Some?
    ensures ScanAll(c, disk, s, paths, attached) == ScanAll(c, disk, s, paths[..f + 1], attached)
  {
    var done, rest := paths[..f + 1], paths[f + 1..];
    var stopped := ScanAll(c, disk, s, done, attached);
    TakeDrop(paths, f + 1);
    assert ScanAll(c, disk, s, done + rest, attached) == ScanAll(c, disk, stopped, rest, attached) by {
      ScanAllAppend(c, disk, s, done, rest, attached);
    }
    assert ScanAll(c, disk, stopped, rest, attached) == stopped by {
      ScanAllErrored(c, disk, stopped, rest, attached);
    }
  }

  /** A step that has not raised follows one that had not, and counts the path when it is eligible and an indexer is present. */
  lemma ScanNextCounts(c: WatchConfig, disk: Disk, prev: ScanState, p: string, attached: bool)
    requires ScanNext(c, disk, prev, p, attached).error.None?
    ensures prev.error.None?
    ensures ScanNext(c, disk, prev, p, attached).processed == prev.processed + if attached && Eligible(c, disk, p) then 1 else 0
  {
  }

  /** The scanned files eligible for indexing: not ignored and readable. */
  predicate Eligible(c: WatchConfig, disk: Disk, p: string)
  {
    ShouldIgnore(c, disk, p) == Success(false) && PlanFor(c, disk, p).Readable?
  }

  /** The eligible files a scan records: all of them with an indexer, only those without chunks without one. */
  predicate Recorded(c: WatchConfig, disk: Disk, p: string, attached: bool)
  {
    Eligible(c, disk, p) && (attached || PlanFor(c, disk, p).chunks == [])
  }

  /**
   * A scan that completes records every walked file it indexes with its current info, and
   * leaves every other entry of the registry as it was.
   */
  lemma {:induction false} ScanRecords(known: map<string, FileInfo>, c: WatchConfig, disk: Disk, paths: seq<string>, q: string, attached: bool)
    requires ScanFrom(known, c, disk, paths, attached).error.None?
    ensures var s := ScanFrom(known, c, disk, paths, attached);
      (q in paths && Recorded(c, disk, q, attached) ==> q in s.known && s.known[q] == PlanFor(c, disk, q).info) &&
      (!(q in paths && Recorded(c, disk, q, attached)) ==> (q in s.known <==> q in known) && (q in known ==> s.known[q] == known[q]))
    decreases |paths|
  {
    if paths != [] {
      var init := paths[..|paths| - 1];
      var p := paths[|paths| - 1];
      assert forall x :: x in paths <==> x in init || x == p;
      ScanRecords(known, c, disk, init, q, attached);
    }
  }

  /** A scan without an indexer makes no backend call. */
  lemma {:induction false} DetachedScanCallsNothing(c: WatchConfig, disk: Disk, s: ScanState, paths: seq<string>)
    ensures ScanAll(c, disk, s, paths, false).requests == s.requests
    decreases |paths|
  {
    if paths != [] {
      DetachedScanCallsNothing(c, disk, s, paths[..|paths| - 1]);
    }
  }

  /** The indices of the eligible paths among the first `n`. */
  function EligibleAt(c: WatchConfig, disk: Disk, paths: seq<string>, n: nat): set<nat>
    requires n <= |paths|
  {
    set i: nat | i < n && Eligible(c, disk, paths[i])
  }

  /** The indices below `n` at which `b` holds. */
  function TrueIndices(b: seq<bool>, n: nat): set<nat>
    requires n <= |b|
  {
    set i: nat | i < n && b[i]
  }

  lemma TrueIndicesStep(b: seq<bool>, n: nat)
    requires n < |b|
    ensures |TrueIndices(b, n + 1)| == |TrueIndices(b, n)| + if b[n] then 1 else 0
  {
    var before, after := TrueIndices(b, n), TrueIndices(b, n + 1);
    assert n !in before;
    if b[n] {
      assert after == before + {n} by {
        assert forall i :: i in after <==> i in before || i == n;
      }
    } else {
      assert after == before by {
        assert forall i :: i in after <==> i in before;
      }
    }
  }

  lemma EligibleAtStep(c: WatchConfig, disk: Disk, paths: seq<string>, n: nat)
    requires n < |paths|
    ensures |EligibleAt(c, disk, paths, n + 1)| == |EligibleAt(c, disk, paths, n)| + if Eligible(c, disk, paths[n]) then 1 else 0
  {
    var b := seq(|paths|, i requires 0 <= i < |paths| => Eligible(c, disk, paths[i]));
    assert EligibleAt(c, disk, paths, n + 1) == TrueIndices(b, n + 1);
    assert EligibleAt(c, disk, paths, n) == TrueIndices(b, n);
    TrueIndicesStep(b, n);
  }

  lemma EligibleAtPrefix(c: WatchConfig, disk: Disk, paths: seq<string>, n: nat)
    requires n <= |paths|
    ensures EligibleAt(c, disk, paths[..n], n) == EligibleAt(c, disk, paths, n)
  {
  }

  /** A scan that completes counts exactly the eligible walked paths with an indexer, and none without one. */
  lemma {:induction false} ScanCountsEligible(known: map<string, FileInfo>, c: WatchConfig, disk: Disk, paths: seq<string>, attached: bool)
    requires ScanFrom(known, c, disk, paths, attached).error.None?
    ensures ScanFrom(known, c, disk, paths, attached).processed == if attached then |EligibleAt(c, disk, paths, |paths|)| else 0
    decreases |paths|
  {
    if paths != [] {
      var n := |paths| - 1;
      var before := ScanFrom(known, c, disk, paths[..n], attached);
      var e := if attached && Eligible(c, disk, paths[n]) then 1 else 0;
      assert before.error.None? && ScanFrom(known, c, disk, paths, attached).processed == before.processed + e by {
        assert ScanFrom(known, c, disk, paths, attached) == ScanNext(c, disk, before, paths[n], attached);
        ScanNextCounts(c, disk, before, paths[n], attached);
      }
      assert before.processed == if attached then |EligibleAt(c, disk, paths, n)| else 0 by {
        ScanCountsEligible(known, c, disk, paths[..n], attached);
        EligibleAtPrefix(c, disk, paths, n);
      }
      EligibleAtStep(c, disk, paths, n);
    }
  }

  // ---------------------------------------------------------------------------
  // The watcher.
  // ---------------------------------------------------------------------------

  class FileWatcher {
    const projectPath: string
    const config: WatchConfig
    const indexer: Index.Indexer
    /** Whether the watcher's `indexer` is an indexer rather than None; while it is None, every call on it raises. */
    var attached: bool
    var knownFiles: map<string, FileInfo>

    predicate Valid()
      reads this
    {
      HashesStored(knownFiles)
    }

    /**
     * `__init__`: the ignore patterns are the configured ones followed by the `.gitignore`
     * lines when that file could be read (`gitignore`); `projectRoot` is the resolved project path,
     * and `attached` says whether the indexer passed in is one rather than None.
     */
    constructor (projectPath: string, projectRoot: string, indexer: Index.Indexer, attached: bool, ignorePatterns: seq<string>,
                 gitignore: Option<seq<string>>, matches: (seq<string>, string) -> bool, tok: Chunker.Tokenizer)
      ensures Valid() && knownFiles == map[]
      ensures this.projectPath == projectPath && this.indexer == indexer && this.attached == attached
      ensures config == WatchConfig(projectRoot, ignorePatterns + (if gitignore.Some? then gitignore.value else []), matches, tok)
    {
      this.projectPath := projectPath;
      this.indexer := indexer;
      this.attached := attached;
      var patterns := ignorePatterns;
      if gitignore.Some? {
        patterns := patterns + gitignore.value;
      }
      config := WatchConfig(projectRoot, patterns, matches, tok);
      knownFiles := map[];
    }

    /** `_process_and_index_file`: True when the file was read and every indexer call returned. */
    method ProcessAndIndexFile(disk: Disk, path: string) returns (ok: bool)
      requires Valid()
      modifies this`knownFiles, indexer
      ensures Valid()
      ensures var plan := PlanFor(config, disk, path);
        ok == (attached && plan.Readable?) && knownFiles == KnownAfter(old(knownFiles), path, plan, attached) &&
        indexer.State() == Index.StepAll(old(indexer.State()), IndexRequests(path, plan, attached), indexer.outage, indexer.embed)
    {
      var fileHash := disk.hash(path);
      var lastModified := disk.mtime(path);
      if fileHash == [] {
        return false;
      }
      var content := disk.read(path);
      if content.None? {
        return false;
      }
      var chunked := Chunker.ChunkContent(content.value, Chunker.DEFAULT_CHUNK_SIZE, Chunker.DEFAULT_OVERLAP, config.tok);
      assert chunked.Success?;
      var chunks := chunked.value;
      var totalChunks := |chunks|;
      var info := FileInfo(fileHash, lastModified);
      if totalChunks == 0 {
        knownFiles := knownFiles[path := info];
        if !attached {
          return false;
        }
        var _ := indexer.RemoveDocument(path);
        Index.StepAllOne(old(indexer.State()), Index.RemoveRequest(path), indexer.outage, indexer.embed);
        return true;
      }
      if !attached {
        return false;
      }
      IndexChunks(path, info, chunks);
      knownFiles := knownFiles[path := info];
      return true;
    }

    /** The loop of `_process_and_index_file` that upserts one document per chunk, in chunk order. */
    method IndexChunks(path: string, info: FileInfo, chunks: seq<string>)
      modifies indexer
      ensures indexer.State() ==
        Index.StepAll(old(indexer.State()), Index.Upserts(ChunkDocs(path, info, chunks)), indexer.outage, indexer.embed)
    {
      ghost var docs := ChunkDocs(path, info, chunks);
      var totalChunks := |chunks|;
      var i := 0;
      while i < totalChunks
        invariant 0 <= i <= totalChunks
        invariant indexer.State() == Index.StepAll(old(indexer.State()), Index.Upserts(docs[..i]), indexer.outage, indexer.embed)
      {
        var document := Index.IndexedDocument(DocId(path, i), path, info.hash, info.lastModified, i, totalChunks,
          chunks[i], Index.FileMetadata(path));
        assert document == docs[i];
        indexer.AddOrUpdateDocument(document);
        Index.UpsertsAdvance(old(indexer.State()), docs, i, indexer.outage, indexer.embed);
        i := i + 1;
      }
      Index.TakeAll(docs);
    }

    /** `process_creation`; `err` is the exception raised by the ignore check, if any. */
    method ProcessCreation(disk: Disk, path: string) returns (err: Option<string>)
      requires Valid()
      modifies this`knownFiles, indexer
      ensures Valid()
      ensures var e := CreateEffect(old(knownFiles), config, disk, path, attached);
        knownFiles == e.known && err == e.error &&
        indexer.State() == Index.StepAll(old(indexer.State()), e.requests, indexer.outage, indexer.embed)
    {
      var ignored := ShouldIgnore(config, disk, path);
      if ignored.Failure? {
        return Some(ignored.error);
      }
      if ignored.value {
        return None;
      }
      var _ := ProcessAndIndexFile(disk, path);
      return None;
    }

    /** `process_modification`. */
    method ProcessModification(disk: Disk, path: string) returns (err: Option<string>)
      requires Valid()
      modifies this`knownFiles, indexer
      ensures Valid()
      ensures var e := ModifyEffect(old(knownFiles), config, disk, path, attached);
        knownFiles == e.known && err == e.error &&
        indexer.State() == Index.StepAll(old(indexer.State()), e.requests, indexer.outage, indexer.embed)
    {
      var ignored := ShouldIgnore(config, disk, path);
      if ignored.Failure? {
        return Some(ignored.error);
      }
      if ignored.value {
        return None;
      }
      var currentHash := disk.hash(path);
      var currentModified := disk.mtime(path);
      var needsUpdate := false;
      if path !in knownFiles {
        needsUpdate := true;
      } else if currentHash != knownFiles[path].hash || currentModified != knownFiles[path].lastModified {
        needsUpdate := true;
      } else if currentHash == [] {
        needsUpdate := false;
      }
      if needsUpdate {
        if !attached {
          return None;
        }
        ghost var s0 := indexer.State();
        var _ := indexer.RemoveDocument(path);
        Index.StepAllOne(s0, Index.RemoveRequest(path), indexer.outage, indexer.embed);
        ghost var s1 := indexer.State();
        var _ := ProcessAndIndexFile(disk, path);
        Index.StepAllAppend(s0, [Index.RemoveRequest(path)], IndexRequests(path, PlanFor(config, disk, path), true),
          indexer.outage, indexer.embed);
      }
      return None;
    }

    /** `process_deletion`. */
    method ProcessDeletion(path: string)
      requires Valid()
      modifies this`knownFiles, indexer
      ensures Valid()
      ensures var e := DeleteEffect(old(knownFiles), path, attached);
        knownFiles == e.known && indexer.State() == Index.StepAll(old(indexer.State()), e.requests, indexer.outage, indexer.embed)
    {
      if path in knownFiles && attached {
        var _ := indexer.RemoveDocument(path);
        Index.StepAllOne(old(indexer.State()), Index.RemoveRequest(path), indexer.outage, indexer.embed);
        knownFiles := knownFiles - {path};
      }
    }

    /** The registry, the backend and the count agree with the scan state `s`. */
    ghost predicate Reflects(s0: Index.Store, s: ScanState, processed: nat)
      reads this, indexer
    {
      knownFiles == s.known && processed == s.processed &&
      indexer.State() == Index.StepAll(s0, s.requests, indexer.outage, indexer.embed)
    }

    /** The body of `initial_scan`'s inner loop for one walked path. */
    method ScanFile(disk: Disk, ghost s0: Index.Store, ghost prev: ScanState, filePath: string, processedIn: nat)
      returns (processedOut: nat, err: Option<string>)
      requires Valid() && prev.error.None? && Reflects(s0, prev, processedIn)
      modifies this`knownFiles, indexer
      ensures var next := ScanNext(config, disk, prev, filePath, attached);
        Valid() && Reflects(s0, next, processedOut) && err == next.error
    {
      processedOut := processedIn;
      var ignored := ShouldIgnore(config, disk, filePath);
      if ignored.Failure? {
        return processedOut, Some(ignored.error);
      }
      if !ignored.value {
        var ok := ProcessAndIndexFile(disk, filePath);
        Index.StepAllAppend(s0, prev.requests, IndexRequests(filePath, PlanFor(config, disk, filePath), attached),
          indexer.outage, indexer.embed);
        if ok {
          processedOut := processedOut + 1;
        }
      }
      return processedOut, None;
    }

    /** The inner loop of `initial_scan` over the files of one walked directory. */
    method ScanEntry(disk: Disk, ghost s0: Index.Store, ghost prev: ScanState, entry: WalkEntry, processedIn: nat)
      returns (processedOut: nat, err: Option<string>)
      requires Valid() && prev.error.None? && Reflects(s0, prev, processedIn)
      modifies this`knownFiles, indexer
      ensures var next := ScanAll(config, disk, prev, DirPaths(entry), attached);
        Valid() && Reflects(s0, next, processedOut) && err == next.error
    {
      processedOut := processedIn;
      err := None;
      ghost var paths := DirPaths(entry);
      ghost var att := attached;
      var f := 0;
      assert paths[..0] == [];
      while f < |entry.files|
        invariant 0 <= f <= |entry.files|
        invariant err.None? && attached == att
        invariant var s := ScanAll(config, disk, prev, paths[..f], att);
          Valid() && s.error.None? && Reflects(s0, s, processedOut)
      {
        var filePath := JoinPath(entry.root, entry.files[f]);
        ghost var s := ScanAll(config, disk, prev, paths[..f], att);
        assert filePath == paths[f];
        ScanAdvance(config, disk, prev, paths, f, att);
        processedOut, err := ScanFile(disk, s0, s, filePath, processedOut);
        if err.Some? {
          ScanStopsAt(config, disk, prev, paths, f, att);
          return;
        }
        f := f + 1;
      }
      assert paths[..f] == paths;
    }

    /** The outer loop of `initial_scan` over the walked directories, continuing the scan state `init`. */
    method ScanWalk(disk: Disk, ghost s0: Index.Store, ghost init: ScanState, walk: seq<WalkEntry>, processedIn: nat)
      returns (processedOut: nat, err: Option<string>)
      requires Valid() && init.error.None? && Reflects(s0, init, processedIn)
      modifies this`knownFiles, indexer
      ensures var s := ScanDirs(config, disk, init, walk, attached);
        Valid() && Reflects(s0, s, processedOut) && err == s.error
    {
      processedOut := processedIn;
      err := None;
      ghost var att := attached;
      var w := 0;
      assert walk[..0] == [];
      while w < |walk|
        invariant 0 <= w <= |walk| && err.None? && attached == att
        invariant var s := ScanDirs(config, disk, init, walk[..w], att);
          Valid() && s.error.None? && Reflects(s0, s, processedOut)
      {
        ghost var s := ScanDirs(config, disk, init, walk[..w], att);
        ScanDirsAdvance(config, disk, init, walk, w, att);
        processedOut, err := ScanEntry(disk, s0, s, walk[w], processedOut);
        if err.Some? {
          ScanDirsStopsAt(config, disk, init, walk, w + 1, att);
          return;
        }
        w := w + 1;
      }
      assert walk[..w] == walk;
    }

    /** `initial_scan`: Success(number of files indexed), or the exception an ignore check raised. */
    method InitialScan(disk: Disk, walk: seq<WalkEntry>) returns (r: Result<nat, string>)
      requires Valid()
      modifies this`knownFiles, indexer
      ensures var s := ScanFrom(old(knownFiles), config, disk, WalkPaths(walk), attached);
        Valid() && knownFiles == s.known &&
        indexer.State() == Index.StepAll(old(indexer.State()), s.requests, indexer.outage, indexer.embed) &&
        r == if s.error.Some? then Failure(s.error.value) else Success(s.processed)
    {
      ScanDirsIsScanAll(config, disk, ScanState(knownFiles, [], 0, None), walk, attached);
      var processedFiles, err := ScanWalk(disk, indexer.State(), ScanState(knownFiles, [], 0, None), walk, 0);
      if err.Some? {
        return Failure(err.value);
      }
      return Success(processedFiles);
    }
  }

  /** The scan carried on directory by directory over the walk, as the two loops of `initial_scan` run it. */
  function ScanDirs(c: WatchConfig, disk: Disk, s: ScanState, walk: seq<WalkEntry>, attached: bool): ScanState
    decreases |walk|
  {
    if walk == [] then s
    else ScanAll(c, disk, ScanDirs(c, disk, s, walk[..|walk| - 1], attached), DirPaths(walk[|walk| - 1]), attached)
  }

  /** Scanning directory by directory is scanning the walk's paths in order. */
  lemma {:induction false} ScanDirsIsScanAll(c: WatchConfig, disk: Disk, s: ScanState, walk: seq<WalkEntry>, attached: bool)
    ensures ScanDirs(c, disk, s, walk, attached) == ScanAll(c, disk, s, WalkPaths(walk), attached)
    decreases |walk|
  {
    if walk != [] {
      var init := walk[..|walk| - 1];
      ScanDirsIsScanAll(c, disk, s, init, attached);
      ScanAllAppend(c, disk, s, WalkPaths(init), DirPaths(walk[|walk| - 1]), attached);
    }
  }

  /** The scan over one more walked directory is that directory's scan. */
  lemma ScanDirsAdvance(c: WatchConfig, disk: Disk, s: ScanState, walk: seq<WalkEntry>, w: nat, attached: bool)
    requires w < |walk|
    ensures ScanDirs(c, disk, s, walk[..w + 1], attached) ==
      ScanAll(c, disk, ScanDirs(c, disk, s, walk[..w], attached), DirPaths(walk[w]), attached)
  {
    assert walk[..w + 1][..w] == walk[..w];
  }

  /** A scan that has raised within the first `w` directories ends there. */
  lemma {:induction false} ScanDirsStopsAt(c: WatchConfig, disk: Disk, s: ScanState, walk: seq<WalkEntry>, w: nat, attached: bool)
    requires w <= |walk| && ScanDirs(c, disk, s, walk[..w], attached).error.Some?
    ensures ScanDirs(c, disk, s, walk, attached) == ScanDirs(c, disk, s, walk[..w], attached)
    decreases |walk| - w
  {
    if w < |walk| {
      var stopped := ScanDirs(c, disk, s, walk[..w], attached);
      assert ScanDirs(c, disk, s, walk[..w + 1], attached) == stopped by {
        ScanDirsAdvance(c, disk, s, walk, w, attached);
        ScanAllErrored(c, disk, stopped, DirPaths(walk[w]), attached);
      }
      ScanDirsStopsAt(c, disk, s, walk, w + 1, attached);
    } else {
      assert walk[..w] == walk;
    }
  }

  // ---------------------------------------------------------------------------
  // Event dispatch.
  // ---------------------------------------------------------------------------

  class ProjectEventHandler {
    const fileWatcher: FileWatcher

    constructor (fileWatcher: FileWatcher)
      ensures this.fileWatcher == fileWatcher
    {
      this.fileWatcher := fileWatcher;
    }

    /** `on_created`: directory events are dropped. */
    method OnCreated(disk: Disk, event: FsEvent) returns (err: Option<string>)
      requires fileWatcher.Valid()
      modifies fileWatcher`knownFiles, fileWatcher.indexer
      ensures fileWatcher.Valid()
      ensures var e := if event.isDirectory then Effect(old(fileWatcher.knownFiles), [], None)
          else CreateEffect(old(fileWatcher.knownFiles), fileWatcher.config, disk, event.srcPath, fileWatcher.attached);
        fileWatcher.knownFiles == e.known && err == e.error &&
        fileWatcher.indexer.State() == Index.StepAll(old(fileWatcher.indexer.State()), e.requests, fileWatcher.indexer.outage, fileWatcher.indexer.embed)
    {
      err := None;
      if !event.isDirectory {
        err := fileWatcher.ProcessCreation(disk, event.srcPath);
      }
    }

    /** `on_modified`. */
    method OnModified(disk: Disk, event: FsEvent) returns (err: Option<string>)
      requires fileWatcher.Valid()
      modifies fileWatcher`knownFiles, fileWatcher.indexer
      ensures fileWatcher.Valid()
      ensures var e := if event.isDirectory then Effect(old(fileWatcher.knownFiles), [], None)
          else ModifyEffect(old(fileWatcher.knownFiles), fileWatcher.config, disk, event.srcPath, fileWatcher.attached);
        fileWatcher.knownFiles == e.known && err == e.error &&
        fileWatcher.indexer.State() == Index.StepAll(old(fileWatcher.indexer.State()), e.requests, fileWatcher.indexer.outage, fileWatcher.indexer.embed)
    {
      err := None;
      if !event.isDirectory {
        err := fileWatcher.ProcessModification(disk, event.srcPath);
      }
    }

    /** `on_deleted`. */
    method OnDeleted(event: FsEvent)
      requires fileWatcher.Valid()
      modifies fileWatcher`knownFiles, fileWatcher.indexer
      ensures fileWatcher.Valid()
      ensures var e := if event.isDirectory then Effect(old(fileWatcher.knownFiles), [], None)
          else DeleteEffect(old(fileWatcher.knownFiles), event.srcPath, fileWatcher.attached);
        fileWatcher.knownFiles == e.known &&
        fileWatcher.indexer.State() == Index.StepAll(old(fileWatcher.indexer.State()), e.requests, fileWatcher.indexer.outage, fileWatcher.indexer.embed)
    {
      if !event.isDirectory {
        fileWatcher.ProcessDeletion(event.srcPath);
      }
    }

    /** `on_moved`: deletion of the source, then creation of the destination. */
    method OnMoved(disk: Disk, event: FsEvent) returns (err: Option<string>)
      requires fileWatcher.Valid()
      modifies fileWatcher`knownFiles, fileWatcher.indexer
      ensures fileWatcher.Valid()
      ensures var e := if event.isDirectory then Effect(old(fileWatcher.knownFiles), [], None)
          else MoveEffect(old(fileWatcher.knownFiles), fileWatcher.config, disk, event.srcPath, event.destPath, fileWatcher.attached);
        fileWatcher.knownFiles == e.known && err == e.error &&
        fileWatcher.indexer.State() == Index.StepAll(old(fileWatcher.indexer.State()), e.requests, fileWatcher.indexer.outage, fileWatcher.indexer.embed)
    {
      err := None;
      if !event.isDirectory {
        ghost var s0 := fileWatcher.indexer.State();
        fileWatcher.ProcessDeletion(event.srcPath);
        ghost var d := DeleteEffect(old(fileWatcher.knownFiles), event.srcPath, fileWatcher.attached);
        err := fileWatcher.ProcessCreation(disk, event.destPath);
        Index.StepAllAppend(s0, d.requests, CreateEffect(d.known, fileWatcher.config, disk, event.destPath, fileWatcher.attached).requests,
          fileWatcher.indexer.outage, fileWatcher.indexer.embed);
      }
    }
  }
}
