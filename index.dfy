/**
 * The guard and return logic of `vector_index_mcp/indexer.py`. The vector backend
 * (LanceDB with a sentence-transformer embedding) is abstract: a table is a sequence
 * of stored rows, the embedding and the nearest-neighbour query are uninterpreted
 * functions, and `outage` stands for a backend whose every table call raises.
 */
module Index {
  import opened Wrappers

  type Vector = seq<real>

  datatype FileMetadata = FileMetadata(originalPath: string)

  /** One chunk as written to the table (the `IndexedDocument` schema, vector aside). */
  datatype IndexedDocument = IndexedDocument(
    documentId: string,
    filePath: string,
    contentHash: string,
    lastModified: int,
    chunkIndex: int,
    totalChunks: int,
    text: string,
    metadata: FileMetadata)

  datatype StoredRow = StoredRow(doc: IndexedDocument, vector: Vector)

  /** A call received by the indexer, in arrival order. */
  datatype Request =
    | RemoveRequest(path: string)
    | UpsertRequest(doc: IndexedDocument)
    | ClearRequest(projectPath: Option<string>)

  // ---------------------------------------------------------------------------
  // SQL text of the filters and how the backend reads it.
  // ---------------------------------------------------------------------------

  /** Python's `s.replace(c, r)` for a one-character `c`. */
  function ReplaceChar(s: string, c: char, r: string): (t: string)
  {
    if s == [] then [] else (if s[0] == c then r else [s[0]]) + ReplaceChar(s[1..], c, r)
  }

  /** Replacing `c` by a text without `c` leaves no `c`. */
  lemma {:induction false} ReplaceCharRemoves(s: string, c: char, r: string)
    requires c !in r
    ensures c !in ReplaceChar(s, c, r)
  {
    if s != [] {
      ReplaceCharRemoves(s[1..], c, r);
    }
  }

  lemma {:induction false} ReplaceCharAppend(a: string, b: string, c: char, r: string)
    ensures ReplaceChar(a + b, c, r) == ReplaceChar(a, c, r) + ReplaceChar(b, c, r)
  {
    if a != [] {
      var h := if a[0] == c then r else [a[0]];
      assert (a + b)[0] == a[0];
      assert (a + b)[1..] == a[1..] + b;
      assert ReplaceChar(a + b, c, r) == h + ReplaceChar(a[1..] + b, c, r);
      ReplaceCharAppend(a[1..], b, c, r);
      assert ReplaceChar(a, c, r) == h + ReplaceChar(a[1..], c, r);
    } else {
      assert a + b == b;
    }
  }

  /** The body of a single-quoted SQL literal: `''` stands for one quote; a lone quote ends the literal early (None). */
  function SqlLiteral(body: string): Option<string>
  {
    if body == [] then Some([])
    else if body[0] == '\'' then
      if |body| >= 2 && body[1] == '\'' then
        match SqlLiteral(body[2..]) case Some(v) => Some(['\''] + v) case None => None
      else None
    else match SqlLiteral(body[1..]) case Some(v) => Some([body[0]] + v) case None => None
  }

  lemma SqlLiteralCons(x: char, t: string)
    requires x != '\'' && SqlLiteral(t).Some?
    ensures SqlLiteral([x] + t) == Some([x] + SqlLiteral(t).value)
  {
    assert ([x] + t)[0] == x && ([x] + t)[1..] == t;
  }

  lemma SqlLiteralQuote(t: string)
    requires SqlLiteral(t).Some?
    ensures SqlLiteral("''" + t) == Some("'" + SqlLiteral(t).value)
  {
    assert ("''" + t)[0] == '\'' && ("''" + t)[1] == '\'' && ("''" + t)[2..] == t;
  }

  /**
   * SQL LIKE with backslash as escape: `%` matches any run, `_` any one character,
   * `\c` the character c; a trailing lone backslash matches itself.
   */
  function Like(pat: string, s: string): bool
    decreases |pat|, |s|
  {
    if pat == [] then s == []
    else if pat[0] == '%' then Like(pat[1..], s) || (s != [] && Like(pat, s[1..]))
    else if pat[0] == '_' then s != [] && Like(pat[1..], s[1..])
    else if pat[0] == '\\' && |pat| >= 2 then s != [] && s[0] == pat[1] && Like(pat[2..], s[1..])
    else s != [] && s[0] == pat[0] && Like(pat[1..], s[1..])
  }

  const LIKE_HEAD: string := "file_path LIKE '"
  const EQ_HEAD: string := "file_path = '"

  /** A `WHERE` clause as the backend parses it. */
  datatype Clause = Equals(value: string) | LikePattern(pattern: string)

  function ParseBody(clause: string, head: string): Option<string>
  {
    if |clause| > |head| && clause[..|head|] == head && clause[|clause| - 1] == '\'' then
      SqlLiteral(clause[|head|..|clause| - 1])
    else None
  }

  /** None is a clause the backend rejects (it raises). */
  function ParseClause(clause: string): Option<Clause>
  {
    match ParseBody(clause, LIKE_HEAD)
    case Some(p) => Some(LikePattern(p))
    case None =>
      match ParseBody(clause, EQ_HEAD)
      case Some(v) => Some(Equals(v))
      case None => None
  }

  function ClauseHolds(c: Clause, filePath: string): bool
  {
    match c
    case Equals(v) => filePath == v
    case LikePattern(p) => Like(p, filePath)
  }

  predicate IsPrefix(p: string, s: string) { |p| <= |s| && s[..|p|] == p }

  /** The characters `'`, `%`, `_` (and, in the corrected filter, `\`) as they appear inside the SQL literal. */
  function EscapedChar(c: char, escapeBackslash: bool): string
  {
    if c == '\'' then "''"
    else if c == '%' then "\\%"
    else if c == '_' then "\\_"
    else if c == '\\' && escapeBackslash then "\\\\"
    else [c]
  }

  function EscapedEach(p: string, escapeBackslash: bool): string
  {
    if p == [] then [] else EscapedChar(p[0], escapeBackslash) + EscapedEach(p[1..], escapeBackslash)
  }

  /** The prefix segment as indexer.py builds it: quotes doubled, then `%` and `_` backslash-prefixed. */
  function LikeSegmentAsWritten(p: string): string
  {
    ReplaceChar(ReplaceChar(ReplaceChar(p, '\'', "''"), '%', "\\%"), '_', "\\_")
  }

  /** The corrected segment: backslashes doubled first, then the same three replacements. */
  function LikeSegment(p: string): string
  {
    LikeSegmentAsWritten(ReplaceChar(p, '\\', "\\\\"))
  }

  lemma SegmentAsWrittenAppend(a: string, b: string)
    ensures LikeSegmentAsWritten(a + b) == LikeSegmentAsWritten(a) + LikeSegmentAsWritten(b)
  {
    ReplaceCharAppend(a, b, '\'', "''");
    var qa, qb := ReplaceChar(a, '\'', "''"), ReplaceChar(b, '\'', "''");
    ReplaceCharAppend(qa, qb, '%', "\\%");
    ReplaceCharAppend(ReplaceChar(qa, '%', "\\%"), ReplaceChar(qb, '%', "\\%"), '_', "\\_");
  }

  lemma ReplaceOne(x: char, c: char, r: string)
    ensures ReplaceChar([x], c, r) == if x == c then r else [x]
  {
    assert [x][1..] == [];
  }

  lemma ReplaceTwo(x: char, y: char, c: char, r: string)
    ensures ReplaceChar([x, y], c, r) == (if x == c then r else [x]) + (if y == c then r else [y])
  {
    assert [x, y][1..] == [y];
    ReplaceOne(y, c, r);
  }

  lemma SegmentAsWrittenOne(x: char)
    ensures LikeSegmentAsWritten([x]) == EscapedChar(x, false)
  {
    ReplaceOne(x, '\'', "''");
    if x == '\'' {
      ReplaceTwo('\'', '\'', '%', "\\%");
      ReplaceTwo('\'', '\'', '_', "\\_");
    } else {
      ReplaceOne(x, '%', "\\%");
      if x == '%' {
        ReplaceTwo('\\', '%', '_', "\\_");
      } else {
        ReplaceOne(x, '_', "\\_");
      }
    }
  }

  lemma SegmentOne(x: char)
    ensures LikeSegment([x]) == EscapedChar(x, true)
  {
    ReplaceOne(x, '\\', "\\\\");
    if x == '\\' {
      SegmentAsWrittenAppend([x], [x]);
      assert [x] + [x] == [x, x];
      SegmentAsWrittenOne(x);
    } else {
      SegmentAsWrittenOne(x);
    }
  }

  /** The chained replacements escape each character on its own. */
  lemma {:induction false} SegmentIsPerChar(p: string, escapeBackslash: bool)
    ensures (if escapeBackslash then LikeSegment(p) else LikeSegmentAsWritten(p)) == EscapedEach(p, escapeBackslash)
  {
    if p != [] {
      SegmentIsPerChar(p[1..], escapeBackslash);
      assert p == [p[0]] + p[1..];
      if escapeBackslash {
        ReplaceCharAppend([p[0]], p[1..], '\\', "\\\\");
        SegmentAsWrittenAppend(ReplaceChar([p[0]], '\\', "\\\\"), ReplaceChar(p[1..], '\\', "\\\\"));
        SegmentOne(p[0]);
      } else {
        SegmentAsWrittenAppend([p[0]], p[1..]);
        SegmentAsWrittenOne(p[0]);
      }
    } else {
      assert ReplaceChar(p, '\\', "\\\\") == [];
    }
  }

  /** `get_indexed_chunk_count` / `clear_index`: no filter for a missing or empty path, else the prefix LIKE clause. */
  function PrefixFilter(projectPath: Option<string>): (f: Option<string>)
    ensures f.None? <==> projectPath.None? || projectPath.value == []
    ensures f.Some? ==> f.value == LIKE_HEAD + EscapedEach(projectPath.value, true) + "%'"
  {
    match projectPath
    case Some(p) =>
      if p == [] then None
      else
        SegmentIsPerChar(p, true);
        Some(LIKE_HEAD + LikeSegment(p) + "%'")
    case None => None
  }

  /** `remove_document`'s condition; the corrected form doubles quotes inside the literal, which reads back as the path. */
  function RemoveCondition(path: string): (c: string)
    ensures ParseBody(c, EQ_HEAD) == Some(path)
  {
    UnquoteDoubled(path);
    ParseWrapped(EQ_HEAD, ReplaceChar(path, '\'', "''"));
    EQ_HEAD + ReplaceChar(path, '\'', "''") + "'"
  }

  /** `remove_document`'s condition as written: the path is pasted into the literal unescaped. */
  function RemoveConditionAsWritten(path: string): string
  {
    EQ_HEAD + path + "'"
  }

  /** A filter, if any, that the backend can read, holds of the path. None clause: every row. */
  function Selects(filter: Option<string>, filePath: string): bool
  {
    match filter
    case None => true
    case Some(f) => ParseClause(f).Some? && ClauseHolds(ParseClause(f).value, filePath)
  }

  function CountWhere(rows: seq<StoredRow>, filter: Option<string>): nat
  {
    if rows == [] then 0 else (if Selects(filter, rows[0].doc.filePath) then 1 else 0) + CountWhere(rows[1..], filter)
  }

  function DeleteWhere(rows: seq<StoredRow>, filter: Option<string>): (r: seq<StoredRow>)
    ensures forall x :: x in r <==> x in rows && !Selects(filter, x.doc.filePath)
  {
    if rows == [] then []
    else (if Selects(filter, rows[0].doc.filePath) then [] else [rows[0]]) + DeleteWhere(rows[1..], filter)
  }

  /** The rows whose file path is exactly `path`, in table order. */
  function RowsFor(rows: seq<StoredRow>, path: string): (r: seq<StoredRow>)
  {
    if rows == [] then []
    else (if rows[0].doc.filePath == path then [rows[0]] else []) + RowsFor(rows[1..], path)
  }

  /** The rows of one file are exactly the rows whose path is that file's. */
  lemma {:induction false} RowsForMembers(rows: seq<StoredRow>, path: string)
    ensures forall x :: x in RowsFor(rows, path) <==> x in rows && x.doc.filePath == path
  {
    if rows != [] {
      RowsForMembers(rows[1..], path);
      assert rows == [rows[0]] + rows[1..];
    }
  }

  function CountWithPrefix(rows: seq<StoredRow>, p: string): nat
  {
    if rows == [] then 0 else (if IsPrefix(p, rows[0].doc.filePath) then 1 else 0) + CountWithPrefix(rows[1..], p)
  }

  // ---------------------------------------------------------------------------
  // What the filters select.
  // ---------------------------------------------------------------------------

  lemma {:induction false} LikePercentMatchesAll(s: string)
    ensures Like("%", s)
  {
    if s != [] {
      LikePercentMatchesAll(s[1..]);
    }
  }

  /** The unquoted LIKE pattern of the corrected segment: each of `%`, `_`, `\` behind a backslash. */
  function LikeEscaped(p: string): string
  {
    if p == [] then []
    else LikeEscapedChar(p[0]) + LikeEscaped(p[1..])
  }

  /** One character of a LIKE pattern matching it literally: `%`, `_` and `\\` are backslash-escaped. */
  function LikeEscapedChar(c: char): string
  {
    if c in {'%', '_', '\\'} then ['\\', c] else [c]
  }

  /** Unquoting one escaped character in front of a readable literal. */
  lemma UnquoteChar(c: char, tail: string)
    requires SqlLiteral(tail).Some?
    ensures SqlLiteral(EscapedChar(c, true) + tail) == Some(LikeEscapedChar(c) + SqlLiteral(tail).value)
  {
    if c == '\'' {
      assert EscapedChar(c, true) == "''" && LikeEscapedChar(c) == "'";
      SqlLiteralQuote(tail);
    } else if c in {'%', '_', '\\'} {
      assert EscapedChar(c, true) == ['\\', c] && LikeEscapedChar(c) == ['\\', c];
      UnquoteBackslashed(c, tail);
    } else {
      assert EscapedChar(c, true) == [c] && LikeEscapedChar(c) == [c];
      SqlLiteralCons(c, tail);
    }
  }

  lemma UnquoteBackslashed(c: char, tail: string)
    requires c != '\'' && SqlLiteral(tail).Some?
    ensures SqlLiteral(['\\', c] + tail) == Some(['\\', c] + SqlLiteral(tail).value)
  {
    var v := SqlLiteral(tail).value;
    assert ['\\', c] + tail == ['\\'] + ([c] + tail);
    SqlLiteralCons(c, tail);
    SqlLiteralCons('\\', [c] + tail);
    assert ['\\'] + ([c] + v) == ['\\', c] + v;
  }

  lemma AppendAssoc<T>(a: seq<T>, b: seq<T>, c: seq<T>)
    ensures (a + b) + c == a + (b + c)
  {
  }

  lemma {:induction false} UnquoteSegment(p: string, rest: string)
    requires SqlLiteral(rest).Some?
    ensures SqlLiteral(EscapedEach(p, true) + rest) == Some(LikeEscaped(p) + SqlLiteral(rest).value)
  {
    if p != [] {
      var tail := EscapedEach(p[1..], true) + rest;
      var v := LikeEscaped(p[1..]) + SqlLiteral(rest).value;
      assert SqlLiteral(tail) == Some(v) by {
        UnquoteSegment(p[1..], rest);
      }
      assert SqlLiteral(EscapedChar(p[0], true) + tail) == Some(LikeEscapedChar(p[0]) + v) by {
        UnquoteChar(p[0], tail);
      }
      AppendAssoc(EscapedChar(p[0], true), EscapedEach(p[1..], true), rest);
      AppendAssoc(LikeEscapedChar(p[0]), LikeEscaped(p[1..]), SqlLiteral(rest).value);
    } else {
      assert EscapedEach(p, true) + rest == rest;
      assert LikeEscaped(p) + SqlLiteral(rest).value == SqlLiteral(rest).value;
    }
  }

  lemma {:induction false} LikeEscapedIsPrefix(p: string, s: string)
    ensures Like(LikeEscaped(p) + "%", s) <==> IsPrefix(p, s)
  {
    if p == [] {
      assert LikeEscaped(p) + "%" == "%";
      LikePercentMatchesAll(s);
    } else {
      var pat := LikeEscaped(p) + "%";
      var tail := LikeEscaped(p[1..]) + "%";
      if p[0] in {'%', '_', '\\'} {
        assert pat == ['\\', p[0]] + tail;
        assert pat[2..] == tail;
      } else {
        assert pat == [p[0]] + tail;
        assert pat[1..] == tail;
      }
      if s != [] {
        LikeEscapedIsPrefix(p[1..], s[1..]);
        assert IsPrefix(p, s) <==> s[0] == p[0] && IsPrefix(p[1..], s[1..]) by {
          if IsPrefix(p, s) { assert s[1..][..|p| - 1] == s[..|p|][1..]; }
          if s[0] == p[0] && IsPrefix(p[1..], s[1..]) {
            assert s[..|p|] == [s[0]] + s[1..][..|p| - 1];
          }
        }
      }
    }
  }

  /** The corrected prefix filter selects exactly the file paths that start with the project path. */
  lemma PrefixFilterSelectsPrefix(p: string, filePath: string)
    requires p != []
    ensures Selects(PrefixFilter(Some(p)), filePath) <==> IsPrefix(p, filePath)
  {
    var body := EscapedEach(p, true) + "%";
    assert PrefixFilter(Some(p)).value == LIKE_HEAD + body + "'" by {
      SegmentIsPerChar(p, true);
      assert "%'" == "%" + "'";
      AppendAssoc(LIKE_HEAD + EscapedEach(p, true), "%", "'");
      AppendAssoc(LIKE_HEAD, EscapedEach(p, true), "%");
    }
    assert SqlLiteral(body) == Some(LikeEscaped(p) + "%") by {
      assert SqlLiteral("%") == Some("%") by { SqlLiteralCons('%', []); assert ['%'] + [] == "%"; }
      UnquoteSegment(p, "%");
    }
    ParseWrapped(LIKE_HEAD, body);
    LikeEscapedIsPrefix(p, filePath);
  }

  /** A clause `head + body + "'"` reads its body as a literal. */
  lemma ParseWrapped(head: string, body: string)
    ensures ParseBody(head + body + "'", head) == SqlLiteral(body)
  {
    var c := head + body + "'";
    assert c[..|head|] == head && c[|c| - 1] == '\'';
    assert c[|head|..|c| - 1] == body;
  }

  lemma {:induction false} CountWherePrefix(rows: seq<StoredRow>, p: string)
    requires p != []
    ensures CountWhere(rows, PrefixFilter(Some(p))) == CountWithPrefix(rows, p)
  {
    if rows != [] {
      PrefixFilterSelectsPrefix(p, rows[0].doc.filePath);
      CountWherePrefix(rows[1..], p);
    }
  }

  lemma {:induction false} UnquoteDoubled(v: string)
    ensures SqlLiteral(ReplaceChar(v, '\'', "''")) == Some(v)
  {
    if v != [] {
      UnquoteDoubled(v[1..]);
      var t := ReplaceChar(v[1..], '\'', "''");
      if v[0] == '\'' {
        assert ReplaceChar(v, '\'', "''") == "''" + t;
        assert ("''" + t)[0] == '\'' && ("''" + t)[1] == '\'';
        assert ("''" + t)[2..] == t;
        assert v == ['\''] + v[1..];
      } else {
        assert ReplaceChar(v, '\'', "''") == [v[0]] + t;
        assert ([v[0]] + t)[0] == v[0];
        assert ([v[0]] + t)[1..] == t;
        assert v == [v[0]] + v[1..];
      }
    }
  }

  /** The corrected remove condition selects exactly the rows of that file, whatever its name. */
  lemma RemoveConditionSelectsPath(path: string, filePath: string)
    ensures Selects(Some(RemoveCondition(path)), filePath) <==> filePath == path
  {
    var c := RemoveCondition(path);
    var body := ReplaceChar(path, '\'', "''");
    UnquoteDoubled(path);
    assert c[..|EQ_HEAD|] == EQ_HEAD && c[|c| - 1] == '\'';
    assert c[|EQ_HEAD|..|c| - 1] == body;
    assert ParseBody(c, EQ_HEAD) == Some(path);
    NotLikeHead(c);
  }

  lemma NotLikeHead(c: string)
    requires |c| > |EQ_HEAD| && c[..|EQ_HEAD|] == EQ_HEAD
    ensures ParseBody(c, LIKE_HEAD).None?
  {
    assert c[10] == '=';
    if |c| > |LIKE_HEAD| {
      assert c[..|LIKE_HEAD|][10] == c[10];
    }
  }

  // Findings: the filters as written.

  /** A project path holding a backslash: the as-written prefix filter does not select the path itself. */
  lemma BackslashPathMissedAsWritten()
    ensures var p := "a\\b";
      IsPrefix(p, p) && SqlLiteral(LikeSegmentAsWritten(p) + "%") == Some(p + "%") && !Like(p + "%", p)
  {
    var p := "a\\b";
    assert p + "%" == "a\\b%";
    BackslashSegmentReads();
    BackslashNotMatched();
  }

  lemma BackslashSegmentReads()
    ensures SqlLiteral(LikeSegmentAsWritten("a\\b") + "%") == Some("a\\b%")
  {
    var p := "a\\b";
    SegmentAsWrittenPlain(p);
    assert p + "%" == "a\\b%";
    SqlLiteralWithoutQuote("a\\b%");
  }

  /** A path without quote, `%` or `_` is its own as-written segment. */
  lemma SegmentAsWrittenPlain(p: string)
    requires '\'' !in p && '%' !in p && '_' !in p
    ensures LikeSegmentAsWritten(p) == p
  {
    ReplaceAbsent(p, '\'', "''");
    ReplaceAbsent(p, '%', "\\%");
    ReplaceAbsent(p, '_', "\\_");
  }

  lemma BackslashNotMatched()
    ensures !Like("a\\b%", "a\\b")
  {
    assert "a\\b%"[1..] == "\\b%" && "a\\b"[1..] == "\\b";
  }

  /** A literal body without quotes reads as itself. */
  lemma {:induction false} SqlLiteralWithoutQuote(s: string)
    requires '\'' !in s
    ensures SqlLiteral(s) == Some(s)
  {
    if s != [] {
      assert s == [s[0]] + s[1..];
      SqlLiteralWithoutQuote(s[1..]);
    }
  }

  /** A file name holding a quote: the as-written remove condition is not a readable clause, so the delete raises. */
  lemma QuotedPathUnreadableAsWritten()
    ensures ParseClause(RemoveConditionAsWritten("it's")).None?
  {
    var c := RemoveConditionAsWritten("it's");
    assert c[..|EQ_HEAD|] == EQ_HEAD && c[|c| - 1] == '\'';
    assert c[|EQ_HEAD|..|c| - 1] == "it's";
    assert SqlLiteral("it's") == None by {
      assert "it's"[1..] == "t's" && "t's"[1..] == "'s" && "'s"[1] == 's';
    }
    NotLikeHead(c);
  }

  /** For a project path without a backslash the corrected prefix filter is the one as written. */
  lemma {:induction false} SegmentsAgreeWithoutBackslash(p: string)
    requires '\\' !in p
    ensures LikeSegment(p) == LikeSegmentAsWritten(p)
  {
    SegmentIsPerChar(p, true);
    SegmentIsPerChar(p, false);
    EscapedEachAgree(p);
  }

  lemma {:induction false} EscapedEachAgree(p: string)
    requires '\\' !in p
    ensures EscapedEach(p, true) == EscapedEach(p, false)
  {
    if p != [] {
      assert p == [p[0]] + p[1..];
      EscapedEachAgree(p[1..]);
    }
  }

  lemma {:induction false} ReplaceAbsent(s: string, c: char, r: string)
    requires c !in s
    ensures ReplaceChar(s, c, r) == s
  {
    if s != [] {
      assert s == [s[0]] + s[1..];
      ReplaceAbsent(s[1..], c, r);
    }
  }

  /** For a file name without a quote the corrected remove condition is the one as written. */
  lemma ConditionsAgreeWithoutQuote(path: string)
    requires '\'' !in path
    ensures RemoveCondition(path) == RemoveConditionAsWritten(path)
  {
    ReplaceAbsent(path, '\'', "''");
  }

  /** The table with every row of `path` dropped, order kept. */
  function Without(rows: seq<StoredRow>, path: string): (r: seq<StoredRow>)
    ensures forall x :: x in r <==> x in rows && x.doc.filePath != path
  {
    if rows == [] then []
    else (if rows[0].doc.filePath == path then [] else [rows[0]]) + Without(rows[1..], path)
  }

  /** Deleting on the remove condition drops exactly the rows of that file. */
  lemma {:induction false} RemoveDeletesExactlyPath(rows: seq<StoredRow>, path: string)
    ensures DeleteWhere(rows, Some(RemoveCondition(path))) == Without(rows, path)
  {
    if rows != [] {
      RemoveConditionSelectsPath(path, rows[0].doc.filePath);
      RemoveDeletesExactlyPath(rows[1..], path);
    }
  }

  lemma {:induction false} DeleteNothingSelected(rows: seq<StoredRow>, filter: Option<string>)
    requires CountWhere(rows, filter) == 0
    ensures DeleteWhere(rows, filter) == rows
  {
    if rows != [] {
      DeleteNothingSelected(rows[1..], filter);
    }
  }

  lemma {:induction false} WithoutAppend(a: seq<StoredRow>, b: seq<StoredRow>, path: string)
    ensures Without(a + b, path) == Without(a, path) + Without(b, path)
  {
    if a == [] {
      assert a + b == b;
    } else {
      assert (a + b)[0] == a[0] && (a + b)[1..] == a[1..] + b;
      WithoutAppend(a[1..], b, path);
    }
  }

  lemma {:induction false} RowsForAppend(a: seq<StoredRow>, b: seq<StoredRow>, path: string)
    ensures RowsFor(a + b, path) == RowsFor(a, path) + RowsFor(b, path)
  {
    if a == [] {
      assert a + b == b;
    } else {
      assert (a + b)[0] == a[0] && (a + b)[1..] == a[1..] + b;
      RowsForAppend(a[1..], b, path);
    }
  }

  lemma RowsForOne(row: StoredRow, path: string)
    ensures RowsFor([row], path) == if row.doc.filePath == path then [row] else []
  {
    assert [row][1..] == [];
  }

  lemma {:induction false} RowsForWithout(rows: seq<StoredRow>, path: string, other: string)
    ensures RowsFor(Without(rows, path), other) == if other == path then [] else RowsFor(rows, other)
  {
    if rows != [] {
      RowsForWithout(rows[1..], path, other);
      var h := if rows[0].doc.filePath == path then [] else [rows[0]];
      assert Without(rows, path) == h + Without(rows[1..], path);
      RowsForAppend(h, Without(rows[1..], path), other);
      if h != [] {
        assert h[1..] == [];
      }
    }
  }

  // ---------------------------------------------------------------------------
  // Loading the table.
  // ---------------------------------------------------------------------------

  const TABLE_NAME: string := "documents"
  const MIN_ROWS_FOR_DEFAULT_INDEX: nat := 256

  /** What `open_table` does with the stored table. */
  datatype OpenOutcome = Opened(rows: seq<StoredRow>) | OpenedFalsey | OpenNotFound | OpenRaised(message: string)

  /** What `create_table(..., mode="overwrite")` does. */
  datatype CreateOutcome = Created | CreatedInvalid | CreateRaised(message: string)

  /**
   * The libraries' side of `load_resources`: model load and connect (None: fine, else the
   * raised text), open, create, then `count_rows` and `create_index` on an opened table
   * (None: fine, else the raised text).
   */
  datatype Backend = Backend(
    startup: Option<string>,
    open: OpenOutcome,
    create: CreateOutcome,
    countRows: Option<string>,
    indexBuild: Option<string>)

  const INIT_FAILED: string := "Fatal error initializing table '" + TABLE_NAME + "'"
  const TABLE_INVALID: string := "Indexer critically failed: self.table for '" + TABLE_NAME
    + "' is not a valid AsyncTable object after all attempts. self.table: None."

  function IndexBuildFailed(e: string): string
  {
    "Failed to create vector index on table '" + TABLE_NAME + "': " + e
  }

  /** The table `load_resources` settles on and whether it asks for a vector index, or the raised error. */
  datatype Loaded = Loaded(rows: seq<StoredRow>, buildsIndex: bool)

  function LoadOutcome(recreate: bool, b: Backend): (r: Result<Loaded, string>)
    ensures r.Success? && r.value.buildsIndex <==>
      b.startup.None? && !recreate && b.open.Opened? && b.countRows.None? &&
      |b.open.rows| >= MIN_ROWS_FOR_DEFAULT_INDEX && b.indexBuild.None?
    ensures r.Success? && !r.value.buildsIndex ==>
      b.startup.None? && if !recreate && b.open.Opened? then
        b.countRows.None? && r.value.rows == b.open.rows && |r.value.rows| < MIN_ROWS_FOR_DEFAULT_INDEX
      else b.create.Created? && r.value.rows == []
    ensures b.startup.Some? ==> r == Failure(b.startup.value)
    ensures b.startup.None? && !recreate && b.open.Opened? && b.countRows.Some? ==> r == Failure(b.countRows.value)
    ensures recreate && b.startup.None? ==> (r.Success? <==> b.create.Created?)
  {
    if b.startup.Some? then Failure(b.startup.value)
    else if !recreate && b.open.Opened? then
      var rows := b.open.rows;
      if b.countRows.Some? then Failure(b.countRows.value)
      else if |rows| >= MIN_ROWS_FOR_DEFAULT_INDEX then
        match b.indexBuild
        case None => Success(Loaded(rows, true))
        case Some(e) => Failure(IndexBuildFailed(e))
      else Success(Loaded(rows, false))
    else
      match b.create
      case Created => Success(Loaded([], false))
      case CreateRaised(_) => Failure(INIT_FAILED)
      case CreatedInvalid =>
        Failure(TABLE_INVALID)
  }

  /**
   * The table `load_resources` leaves, whether it returns or raises: reset first, then the
   * opened table (kept when its row count or its vector index then fails) or the created one.
   */
  function LoadedTable(recreate: bool, b: Backend): (t: Option<seq<StoredRow>>)
    ensures LoadOutcome(recreate, b).Success? ==> t == Some(LoadOutcome(recreate, b).value.rows)
    ensures LoadOutcome(recreate, b).Failure? ==>
      (t.Some? <==> b.startup.None? && !recreate && b.open.Opened?) && (t.Some? ==> t.value == b.open.rows)
  {
    if b.startup.Some? then None
    else if !recreate && b.open.Opened? then Some(b.open.rows)
    else if b.create.Created? then Some([])
    else None
  }

  // ---------------------------------------------------------------------------
  // What each call does to the table.
  // ---------------------------------------------------------------------------

  /** The indexer's observable state: the table, the calls received and the deletes issued (their `WHERE` text). */
  datatype Store = Store(table: Option<seq<StoredRow>>, requests: seq<Request>, deletes: seq<Option<string>>)

  function Embedded(docs: seq<IndexedDocument>, embed: string -> Vector): (rows: seq<StoredRow>)
    ensures |rows| == |docs| && forall i :: 0 <= i < |docs| ==> rows[i] == StoredRow(docs[i], embed(docs[i].text))
  {
    if docs == [] then [] else Embedded(docs[..|docs| - 1], embed) + [StoredRow(docs[|docs| - 1], embed(docs[|docs| - 1].text))]
  }

  /**
   * One call on a backend whose every operation raises `outage` when that is Some:
   * remove issues its delete whenever a table is open, and drops the file's rows when it goes through;
   * upsert appends one embedded row; clear deletes under the prefix filter when some row matches.
   */
  function Step(s: Store, r: Request, outage: Option<string>, embed: string -> Vector): (t: Store)
    ensures t.requests == s.requests + [r]
    ensures t.table.Some? <==> s.table.Some?
    ensures s.table.None? || outage.Some? ==> t.table == s.table
    ensures s.table.None? ==> t.deletes == s.deletes
    ensures r.UpsertRequest? ==> t.deletes == s.deletes
  {
    var requests := s.requests + [r];
    match s.table
    case None => Store(None, requests, s.deletes)
    case Some(rows) =>
      match r
      case RemoveRequest(p) =>
        var deletes := s.deletes + [Some(RemoveCondition(p))];
        if outage.Some? then Store(s.table, requests, deletes)
        else Store(Some(DeleteWhere(rows, Some(RemoveCondition(p)))), requests, deletes)
      case UpsertRequest(doc) =>
        if outage.Some? then Store(s.table, requests, s.deletes)
        else Store(Some(rows + [StoredRow(doc, embed(doc.text))]), requests, s.deletes)
      case ClearRequest(pp) =>
        var filter := PrefixFilter(pp);
        if outage.Some? || CountWhere(rows, filter) == 0 then Store(s.table, requests, s.deletes)
        else Store(Some(DeleteWhere(rows, filter)), requests, s.deletes + [filter])
  }

  /** A sequence of calls, oldest first. */
  function StepAll(s: Store, rs: seq<Request>, outage: Option<string>, embed: string -> Vector): (t: Store)
    ensures t.requests == s.requests + rs
    ensures t.table.Some? <==> s.table.Some?
    decreases |rs|
  {
    if rs == [] then s
    else Step(StepAll(s, rs[..|rs| - 1], outage, embed), rs[|rs| - 1], outage, embed)
  }

  lemma StepAllOne(s: Store, r: Request, outage: Option<string>, embed: string -> Vector)
    ensures StepAll(s, [r], outage, embed) == Step(s, r, outage, embed)
  {
    assert [r][..0] == [];
  }

  lemma {:induction false} StepAllAppend(s: Store, a: seq<Request>, b: seq<Request>, outage: Option<string>, embed: string -> Vector)
    ensures StepAll(s, a + b, outage, embed) == StepAll(StepAll(s, a, outage, embed), b, outage, embed)
    decreases |b|
  {
    if b == [] {
      assert a + b == a;
    } else {
      assert (a + b)[..|a + b| - 1] == a + b[..|b| - 1];
      assert (a + b)[|a + b| - 1] == b[|b| - 1];
      StepAllAppend(s, a, b[..|b| - 1], outage, embed);
    }
  }

  /** Removing a file leaves none of its rows and every other file's rows as they were. */
  lemma RemoveThenRows(s: Store, path: string, other: string, outage: Option<string>, embed: string -> Vector)
    requires s.table.Some? && outage.None?
    ensures var t := Step(s, RemoveRequest(path), outage, embed).table.value;
      RowsFor(t, other) == if other == path then [] else RowsFor(s.table.value, other)
  {
    RemoveDeletesExactlyPath(s.table.value, path);
    RowsForWithout(s.table.value, path, other);
  }

  /** Upserts on a working table append their embedded rows, in order. */
  lemma {:induction false} UpsertsAppend(s: Store, docs: seq<IndexedDocument>, outage: Option<string>, embed: string -> Vector)
    requires s.table.Some? && outage.None?
    ensures StepAll(s, Upserts(docs), outage, embed).table == Some(s.table.value + Embedded(docs, embed))
    ensures StepAll(s, Upserts(docs), outage, embed).deletes == s.deletes
    decreases |docs|
  {
    if docs != [] {
      var init := docs[..|docs| - 1];
      assert Upserts(docs)[..|docs| - 1] == Upserts(init);
      UpsertsAppend(s, init, outage, embed);
      assert s.table.value + Embedded(init, embed) + [StoredRow(docs[|docs| - 1], embed(docs[|docs| - 1].text))]
        == s.table.value + Embedded(docs, embed);
    } else {
      assert s.table.value + Embedded(docs, embed) == s.table.value;
    }
  }

  /** Upserts with no open table, or on a failing backend, leave the table as it was. */
  lemma {:induction false} UpsertsInert(s: Store, docs: seq<IndexedDocument>, outage: Option<string>, embed: string -> Vector)
    requires s.table.None? || outage.Some?
    ensures StepAll(s, Upserts(docs), outage, embed).table == s.table
    ensures StepAll(s, Upserts(docs), outage, embed).deletes == s.deletes
    decreases |docs|
  {
    if docs != [] {
      assert Upserts(docs)[..|docs| - 1] == Upserts(docs[..|docs| - 1]);
      UpsertsInert(s, docs[..|docs| - 1], outage, embed);
    }
  }

  /** A clear with a working table leaves exactly the rows outside the filter, whether or not a delete was issued. */
  lemma ClearLeavesUnselected(s: Store, projectPath: Option<string>, outage: Option<string>, embed: string -> Vector)
    requires s.table.Some? && outage.None?
    ensures var t := Step(s, ClearRequest(projectPath), outage, embed);
      t.table == Some(DeleteWhere(s.table.value, PrefixFilter(projectPath))) &&
      (t.deletes == s.deletes + [PrefixFilter(projectPath)] <==> CountWhere(s.table.value, PrefixFilter(projectPath)) > 0)
  {
    var filter := PrefixFilter(projectPath);
    if CountWhere(s.table.value, filter) == 0 {
      DeleteNothingSelected(s.table.value, filter);
      assert |s.deletes + [filter]| != |s.deletes|;
    }
  }

  function Upserts(docs: seq<IndexedDocument>): (rs: seq<Request>)
    ensures |rs| == |docs| && forall i :: 0 <= i < |docs| ==> rs[i] == UpsertRequest(docs[i])
  {
    seq(|docs|, i requires 0 <= i < |docs| => UpsertRequest(docs[i]))
  }

  /** Upserting one more document of a list is one more step. */
  lemma UpsertsAdvance(s: Store, docs: seq<IndexedDocument>, i: nat, outage: Option<string>, embed: string -> Vector)
    requires i < |docs|
    ensures StepAll(s, Upserts(docs[..i + 1]), outage, embed) ==
      Step(StepAll(s, Upserts(docs[..i]), outage, embed), UpsertRequest(docs[i]), outage, embed)
  {
    assert Upserts(docs[..i + 1])[..i] == Upserts(docs[..i]);
  }

  lemma TakeAll<T>(xs: seq<T>)
    ensures xs[..|xs|] == xs
  {
  }

  // ---------------------------------------------------------------------------
  // The indexer.
  // ---------------------------------------------------------------------------

  class Indexer {
    /** The open table's rows; None until `load_resources` succeeds. */
    var table: Option<seq<StoredRow>>
    /** Every call the indexer has received, oldest first. */
    ghost var requests: seq<Request>
    /** The `WHERE` argument of every delete issued to the table, oldest first. */
    ghost var deletes: seq<Option<string>>
    /** Some(text): every table operation raises with this text. */
    const outage: Option<string>
    const embed: string -> Vector
    /**
     * The backend's nearest-first ordering of the rows for a query vector. The backend is
     * taken to reorder a subset of the table's rows; the model places no constraint on it.
     */
    const rank: (Vector, seq<StoredRow>) -> seq<StoredRow>

    ghost function State(): Store
      reads this
    {
      Store(table, requests, deletes)
    }

    constructor (outage: Option<string>, embed: string -> Vector, rank: (Vector, seq<StoredRow>) -> seq<StoredRow>)
      ensures table == None && requests == [] && deletes == []
      ensures this.outage == outage && this.embed == embed && this.rank == rank
    {
      table := None;
      requests := [];
      deletes := [];
      this.outage := outage;
      this.embed := embed;
      this.rank := rank;
    }

    /**
     * `load_resources`: the table is reset first; a failure before a table is set leaves
     * none, while a failing row count or index build keeps the opened table.
     */
    method LoadResources(recreate: bool, b: Backend) returns (r: Result<bool, string>)
      modifies this
      ensures var o := LoadOutcome(recreate, b);
        table == LoadedTable(recreate, b) &&
        r == (if o.Success? then Success(o.value.buildsIndex) else Failure(o.error))
      ensures requests == old(requests) && deletes == old(deletes)
    {
      table := None;
      if b.startup.Some? {
        return Failure(b.startup.value);
      }
      var tableOpened := false;
      if !recreate {
        match b.open {
          case Opened(rows) =>
            table := Some(rows);
            tableOpened := true;
          case _ =>
        }
      }
      if !tableOpened {
        match b.create {
          case Created =>
            table := Some([]);
          case CreatedInvalid =>
            table := None;
          case CreateRaised(_) =>
            table := None;
            return Failure(INIT_FAILED);
        }
      }
      if table.Some? {
        if tableOpened {
          if b.countRows.Some? {
            return Failure(b.countRows.value);
          }
          if |table.value| >= MIN_ROWS_FOR_DEFAULT_INDEX {
            if b.indexBuild.Some? {
              return Failure(IndexBuildFailed(b.indexBuild.value));
            }
            return Success(true);
          }
        }
        return Success(false);
      }
      return Failure(TABLE_INVALID);
    }

    /** `add_or_update_document`: appends one embedded row; a missing table or a failing backend is logged and ignored. */
    method AddOrUpdateDocument(doc: IndexedDocument)
      modifies this
      ensures State() == Step(old(State()), UpsertRequest(doc), outage, embed)
    {
      requests := requests + [UpsertRequest(doc)];
      if table.None? {
        return;
      }
      if outage.None? {
        table := Some(table.value + [StoredRow(doc, embed(doc.text))]);
      }
    }

    /** `remove_document`: True iff the delete went through; then none of the file's rows is left. */
    method RemoveDocument(path: string) returns (ok: bool)
      modifies this
      ensures ok <==> old(table).Some? && outage.None?
      ensures ok ==> table == Some(Without(old(table).value, path))
      ensures State() == Step(old(State()), RemoveRequest(path), outage, embed)
    {
      requests := requests + [RemoveRequest(path)];
      if table.None? {
        return false;
      }
      var condition := RemoveCondition(path);
      deletes := deletes + [Some(condition)];
      if outage.Some? {
        return false;
      }
      RemoveDeletesExactlyPath(table.value, path);
      table := Some(DeleteWhere(table.value, Some(condition)));
      return true;
    }

    /** `get_indexed_chunk_count`: rows under the project path (all rows with no path); 0 with no table or on error. */
    function ChunkCount(projectPath: Option<string>): (n: nat)
      reads this
      ensures table.None? || outage.Some? ==> n == 0
      ensures table.Some? && outage.None? && (projectPath.None? || projectPath.value == []) ==> n == |table.value|
      ensures table.Some? && outage.None? && projectPath.Some? && projectPath.value != [] ==>
        n == CountWithPrefix(table.value, projectPath.value)
    {
      if table.None? || outage.Some? then 0
      else
        var filter := PrefixFilter(projectPath);
        FilteredCount(table.value, projectPath);
        CountWhere(table.value, filter)
    }

    /**
     * `clear_index`: deletes the rows under the project path (every row with no path),
     * issuing the delete only when some row matches.
     */
    method ClearIndex(projectPath: Option<string>)
      modifies this
      ensures State() == Step(old(State()), ClearRequest(projectPath), outage, embed)
    {
      requests := requests + [ClearRequest(projectPath)];
      if table.None? {
        return;
      }
      var whereClause := PrefixFilter(projectPath);
      if outage.Some? {
        return;
      }
      var countBefore := CountWhere(table.value, whereClause);
      if countBefore > 0 {
        deletes := deletes + [whereClause];
        table := Some(DeleteWhere(table.value, whereClause));
      }
    }

    /** `search`: the first `topK` rows in the backend's order, without their vectors. */
    function Search(query: string, topK: nat): (r: Result<seq<IndexedDocument>, string>)
      reads this
      ensures table.None? ==> r == Failure("Search failed: Index table not available.")
      ensures table.Some? && query == [] ==> r == Success([])
      ensures table.Some? && query != [] && outage.Some? ==> r == Failure("Search operation failed: " + outage.value)
      ensures table.Some? && query != [] && outage.None? ==>
        (var ranked := rank(embed(query), table.value);
         r.Success? && |r.value| == Min(topK, |ranked|) && forall i :: 0 <= i < |r.value| ==> r.value[i] == ranked[i].doc)
    {
      if table.None? then Failure("Search failed: Index table not available.")
      else if query == [] then Success([])
      else if outage.Some? then Failure("Search operation failed: " + outage.value)
      else
        var ranked := rank(embed(query), table.value);
        Success(Docs(ranked[..Min(topK, |ranked|)]))
    }
  }

  function Min(a: int, b: int): int { if a <= b then a else b }

  function Docs(rows: seq<StoredRow>): (ds: seq<IndexedDocument>)
    ensures |ds| == |rows| && forall i :: 0 <= i < |rows| ==> ds[i] == rows[i].doc
  {
    if rows == [] then [] else [rows[0].doc] + Docs(rows[1..])
  }

  /** What the count under `PrefixFilter(projectPath)` is. */
  lemma FilteredCount(rows: seq<StoredRow>, projectPath: Option<string>)
    ensures projectPath.None? || projectPath.value == [] ==> CountWhere(rows, PrefixFilter(projectPath)) == |rows|
    ensures projectPath.Some? && projectPath.value != [] ==>
      CountWhere(rows, PrefixFilter(projectPath)) == CountWithPrefix(rows, projectPath.value)
  {
    CountAllSelected(rows, PrefixFilter(projectPath));
    if projectPath.Some? && projectPath.value != [] {
      CountWherePrefix(rows, projectPath.value);
    }
  }

  lemma {:induction false} CountAllSelected(rows: seq<StoredRow>, filter: Option<string>)
    ensures filter.None? ==> CountWhere(rows, filter) == |rows|
  {
    if rows != [] {
      CountAllSelected(rows[1..], filter);
    }
  }
}
