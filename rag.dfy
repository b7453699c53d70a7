/** The two retrieval tools over a case's search store: mcp_app/tools/rag_query.py
    (query sanitising for FTS5, the raw → sanitised → prefixed fallback
    chain, extra-context lookups and the bounded conversation with the
    chat model) and mcp_app/tools/rag_search.py (a single search with one
    sanitised retry). The chat model, the embedder, the score formatting
    and the file system are parameters. */
module Rag {
  import opened Common
  import opened SqliteDb

  // ---------------------------------------------------------------------
  // fts_sanitize and fts_prefixify
  // ---------------------------------------------------------------------

  /** The class FTS_SAFE_CHARS: ASCII digits and letters and the accented
      Spanish letters. */
  predicate FtsSafe(c: char)
  {
    || ('0' <= c <= '9') || ('A' <= c <= 'Z') || ('a' <= c <= 'z')
    || c == 'Á' || c == 'É' || c == 'Í' || c == 'Ó' || c == 'Ú' || c == 'Ü' || c == 'Ñ'
    || c == 'á' || c == 'é' || c == 'í' || c == 'ó' || c == 'ú' || c == 'ü' || c == 'ñ'
  }

  lemma SafeIsNotSpace()
    ensures forall c :: FtsSafe(c) ==> NotSpace(c)
    ensures !FtsSafe(' ') && !FtsSafe('*')
  {
  }

  /** `fts_sanitize(q)`: every run of unsafe characters becomes one space,
      then the words are re-joined with single spaces; None reads as "". */
  function FtsSanitize(q: Option<string>): string
  {
    var s := if q.Some? then q.value else "";
    Join(SplitWhitespace(SubstituteRuns(s, FtsSafe)), " ")
  }

  /** The sanitised query is the maximal runs of safe characters of the
      input, joined by single spaces. */
  lemma SanitizeWords(q: Option<string>)
    ensures FtsSanitize(q) == Join(Runs(if q.Some? then q.value else "", FtsSafe), " ")
  {
    SafeIsNotSpace();
    SplitSubstituted(if q.Some? then q.value else "", FtsSafe);
  }

  /** Joining non-empty words without spaces by single spaces gives a
      string with no space at either end and no two spaces in a row. */
  lemma {:induction false} JoinWordsShape(ws: seq<string>, keep: char -> bool)
    requires !keep(' ')
    requires forall i :: 0 <= i < |ws| ==> ws[i] != []
    requires forall i, k :: 0 <= i < |ws| && 0 <= k < |ws[i]| ==> keep(ws[i][k])
    ensures var t := Join(ws, " ");
      && KeptOrSpace(t, keep)
      && (t != [] ==> t[0] != ' ' && t[|t| - 1] != ' ')
      && SingleGaps(t, keep)
  {
    if |ws| == 1 {
      var t := Join(ws, " ");
      assert t == ws[0];
      assert forall i :: 0 <= i < |t| ==> keep(t[i]) by {
        forall i | 0 <= i < |t| ensures keep(t[i]) {
          assert t[i] == ws[0][i];
        }
      }
    } else if |ws| > 1 {
      JoinWordsShape(ws[1..], keep);
      var rest := Join(ws[1..], " ");
      var t := Join(ws, " ");
      assert t == ws[0] + " " + rest;
      assert rest != [] by { JoinFirst(ws[1..], " "); }
      forall i | 0 <= i < |t| ensures keep(t[i]) || t[i] == ' ' {
        if i < |ws[0]| {
          assert t[i] == ws[0][i];
        } else if i > |ws[0]| {
          assert t[i] == rest[i - |ws[0]| - 1];
        }
      }
      forall i, j | 0 <= i < j < |t| && j == i + 1 && !keep(t[i]) ensures keep(t[j]) {
        if i > |ws[0]| {
          assert t[i] == rest[i - |ws[0]| - 1];
          assert t[j] == rest[j - |ws[0]| - 1];
        } else if i == |ws[0]| {
          assert t[j] == rest[0];
        }
      }
      assert t[0] == ws[0][0];
      assert t[|t| - 1] == rest[|rest| - 1];
    }
  }

  /** The joined string starts with the first word. */
  lemma JoinFirst(ws: seq<string>, sep: string)
    requires |ws| >= 1
    ensures |Join(ws, sep)| >= |ws[0]| && Join(ws, sep)[..|ws[0]|] == ws[0]
  {
    if |ws| > 1 {
      assert Join(ws, sep) == ws[0] + (sep + Join(ws[1..], sep));
    }
  }

  /** `fts_sanitize` keeps only safe characters and single spaces, with no
      space at either end. */
  lemma SanitizedShape(q: Option<string>)
    ensures var t := FtsSanitize(q);
      && KeptOrSpace(t, FtsSafe)
      && (t != [] ==> t[0] != ' ' && t[|t| - 1] != ' ')
      && SingleGaps(t, FtsSafe)
  {
    SanitizeWords(q);
    SafeIsNotSpace();
    RunsShape(if q.Some? then q.value else "", FtsSafe);
    JoinWordsShape(Runs(if q.Some? then q.value else "", FtsSafe), FtsSafe);
  }

  /** Sanitising a sanitised query changes nothing. */
  lemma SanitizeIdempotent(q: Option<string>)
    ensures FtsSanitize(Some(FtsSanitize(q))) == FtsSanitize(q)
  {
    var ws := Runs(if q.Some? then q.value else "", FtsSafe);
    SanitizeWords(q);
    SanitizeWords(Some(FtsSanitize(q)));
    SafeIsNotSpace();
    RunsShape(if q.Some? then q.value else "", FtsSafe);
    RunsOfJoin(ws, FtsSafe);
  }

  /** Every token with a `*` appended. */
  function Starred(ts: seq<string>): (r: seq<string>)
    ensures |r| == |ts|
  {
    if ts == [] then [] else [ts[0] + "*"] + Starred(ts[1..])
  }

  lemma {:induction false} StarredAt(ts: seq<string>, j: nat)
    requires j < |ts|
    ensures Starred(ts)[j] == ts[j] + "*"
    decreases j
  {
    if j > 0 {
      StarredAt(ts[1..], j - 1);
    }
  }

  /** `fts_prefixify(q)`. */
  function FtsPrefixify(q: string): string
  {
    Join(Starred(SplitWhitespace(q)), " ")
  }

  /** Prefixing keeps the tokens, in order, each with a `*` appended. */
  lemma PrefixifyTokens(q: string)
    ensures SplitWhitespace(FtsPrefixify(q)) == Starred(SplitWhitespace(q))
  {
    var ws := SplitWhitespace(q);
    var st := Starred(ws);
    RunsShape(q, NotSpace);
    forall i | 0 <= i < |st| ensures st[i] != [] && forall k :: 0 <= k < |st[i]| ==> NotSpace(st[i][k]) {
      StarredAt(ws, i);
      forall k | 0 <= k < |st[i]| ensures NotSpace(st[i][k]) {
        if k < |ws[i]| {
          assert st[i][k] == ws[i][k];
        } else {
          assert st[i][k] == '*';
          assert !IsSpace('*');
        }
      }
    }
    assert !NotSpace(' ');
    RunsOfJoin(st, NotSpace);
  }

  /** The runs of starred words joined by spaces are the words themselves,
      for any character class that keeps the words' characters but neither
      `*` nor the space. */
  lemma {:induction false} RunsOfStarred(ws: seq<string>, keep: char -> bool)
    requires !keep('*') && !keep(' ')
    requires forall i :: 0 <= i < |ws| ==> ws[i] != []
    requires forall i, k :: 0 <= i < |ws| && 0 <= k < |ws[i]| ==> keep(ws[i][k])
    ensures Runs(Join(Starred(ws), " "), keep) == ws
  {
    if |ws| == 1 {
      assert Join(Starred(ws), " ") == ws[0] + "*" + "";
      StarredWordRuns(ws[0], "", keep);
    } else if |ws| > 1 {
      StarredStep(ws, keep);
      RunsOfStarred(ws[1..], keep);
      assert [ws[0]] + ws[1..] == ws;
    }
  }

  /** The first starred word of several is the first run. */
  lemma StarredStep(ws: seq<string>, keep: char -> bool)
    requires !keep('*') && !keep(' ')
    requires |ws| > 1 && ws[0] != [] && forall k :: 0 <= k < |ws[0]| ==> keep(ws[0][k])
    ensures Runs(Join(Starred(ws), " "), keep) == [ws[0]] + Runs(Join(Starred(ws[1..]), " "), keep)
  {
    var st := Starred(ws);
    assert st[0] == ws[0] + "*";
    assert st[1..] == Starred(ws[1..]);
    var rest := Join(st[1..], " ");
    assert Join(st, " ") == ws[0] + "*" + (" " + rest);
    StarredWordRuns(ws[0], " " + rest, keep);
    RunsSkipLeading(' ', rest, keep);
  }

  /** A kept word with its `*` is one run, whatever follows the `*`. */
  lemma StarredWordRuns(w: string, t: string, keep: char -> bool)
    requires !keep('*')
    requires w != [] && forall k :: 0 <= k < |w| ==> keep(w[k])
    ensures Runs(w + "*" + t, keep) == [w] + Runs(t, keep)
  {
    assert w + "*" + t == w + ("*" + t);
    RunsConcat(w, "*" + t, keep);
    RunsSkipLeading('*', t, keep);
  }

  /** The seed query of `rag_answer` is prefixed and then handed to
      `_more_context`, which sanitises it again: the `*` are removed and the
      search runs on the plainly sanitised question. */
  lemma SanitizeUndoesPrefix(q: Option<string>)
    ensures FtsSanitize(Some(FtsPrefixify(FtsSanitize(q)))) == FtsSanitize(q)
  {
    var ws := Runs(if q.Some? then q.value else "", FtsSafe);
    SanitizeWords(q);
    SafeIsNotSpace();
    RunsShape(if q.Some? then q.value else "", FtsSafe);
    assert forall i, k :: 0 <= i < |ws| && 0 <= k < |ws[i]| ==> NotSpace(ws[i][k]);
    RunsOfJoin(ws, NotSpace);
    assert SplitWhitespace(FtsSanitize(q)) == ws;
    SanitizeWords(Some(FtsPrefixify(FtsSanitize(q))));
    assert !FtsSafe('*') && !FtsSafe(' ');
    RunsOfStarred(ws, FtsSafe);
  }

  // ---------------------------------------------------------------------
  // Context blocks
  // ---------------------------------------------------------------------

  /** What the tools need besides the store: FTS5 and the similarity, the
      embedder (`embed_texts` / `embed_query`), and `f"{score:.3f}"`. */
  datatype RagEnv = RagEnv(
    search: SearchEnv,
    embed: string -> Result<Vector, string>,
    formatScore: real -> string)

  function BlockHeader(row: Scored, fmt: real -> string): string
  {
    "[chunk:" + IntToString(row.chunkId) + " score=" + fmt(row.score) + "]\n"
  }

  /** `f"[chunk:{cid} score={score:.3f}]\n{content[:n]}"`: the header, then
      at most `n` leading characters of the content. */
  function Block(row: Scored, n: nat, fmt: real -> string): (r: string)
    ensures var h := BlockHeader(row, fmt);
      && StartsWith(r, h)
      && |r| - |h| <= n
      && |r| - |h| <= |row.content|
      && r[|h|..] == row.content[..|r| - |h|]
      && (|row.content| >= n ==> |r| - |h| == n)
  {
    PyPrefix(row.content, n);
    BlockHeader(row, fmt) + PySlice(row.content, 0, n)
  }

  function Blocks(rows: seq<Scored>, n: nat, fmt: real -> string): (r: seq<string>)
    ensures |r| == |rows|
  {
    if rows == [] then [] else [Block(rows[0], n, fmt)] + Blocks(rows[1..], n, fmt)
  }

  lemma {:induction false} BlocksAt(rows: seq<Scored>, n: nat, fmt: real -> string, j: nat)
    requires j < |rows|
    ensures Blocks(rows, n, fmt)[j] == Block(rows[j], n, fmt)
    decreases j
  {
    if j > 0 {
      BlocksAt(rows[1..], n, fmt, j - 1);
    }
  }

  lemma {:induction false} BlocksSnoc(rows: seq<Scored>, x: Scored, n: nat, fmt: real -> string)
    ensures Blocks(rows + [x], n, fmt) == Blocks(rows, n, fmt) + [Block(x, n, fmt)]
  {
    if rows != [] {
      assert (rows + [x])[1..] == rows[1..] + [x];
      BlocksSnoc(rows[1..], x, n, fmt);
    }
  }

  lemma BlocksStep(rows: seq<Scored>, i: nat, n: nat, fmt: real -> string)
    requires i < |rows|
    ensures Blocks(rows[..i + 1], n, fmt) == Blocks(rows[..i], n, fmt) + [Block(rows[i], n, fmt)]
  {
    assert rows[..i + 1] == rows[..i] + [rows[i]];
    BlocksSnoc(rows[..i], rows[i], n, fmt);
  }

  /** The `for idx, r in enumerate(rows)` loops of `_more_context` and
      `rag_answer`, appending one block per row. */
  method ContextBlocks(rows: seq<Scored>, n: nat, fmt: real -> string) returns (blocks: seq<string>)
    ensures blocks == Blocks(rows, n, fmt)
  {
    blocks := [];
    var i := 0;
    while i < |rows|
      invariant 0 <= i <= |rows|
      invariant blocks == Blocks(rows[..i], n, fmt)
    {
      BlocksStep(rows, i, n, fmt);
      blocks := blocks + [Block(rows[i], n, fmt)];
      i := i + 1;
    }
    assert rows[..i] == rows;
  }

  // ---------------------------------------------------------------------
  // _more_context
  // ---------------------------------------------------------------------

  const SnippetLimit: nat := 1200
  const ContextSeparator := "\n---\n"

  /** A search the tools may retry: one call of `hybrid_search` as a
      function of the query. */
  type Search = string -> Result<seq<Scored>, Failure>

  /** `hybrid_search` on one store with fixed embedder and limits. */
  function Searcher(db: Tables, search: SearchEnv, embedder: Embedder, bm25K: int, rerankK: int): Search
  {
    q => HybridSpec(db, search, q, embedder, bm25K, rerankK)
  }

  /** The rows `_more_context` gets from `attempt`: the sanitised query,
      then once more prefixed if FTS5 rejects it; a second rejection gives
      no rows. Other failures escape. */
  function ContextRows(attempt: Search, q: string): Result<seq<Scored>, string>
  {
    var first := attempt(q);
    var rows := if first == Err(OperationalError) then attempt(FtsPrefixify(q)) else first;
    match rows
    case Err(OperationalError) => Ok([])
    case Err(OtherError(m)) => Err(m)
    case Ok(rs) => Ok(rs)
  }

  /** `_more_context(con, demand_id, query_text, k)`, which passes
      `embed_texts` as the embedder and keeps the default `bm25_k` of 40. */
  function MoreContextSpec(db: Tables, env: RagEnv, query: Option<string>, k: int): Result<string, string>
  {
    MoreContextFrom(Searcher(db, env.search, Callable(env.embed), 40, k), env.formatScore, query)
  }

  /** `_more_context` over any search. */
  function MoreContextFrom(attempt: Search, fmt: real -> string, query: Option<string>): Result<string, string>
  {
    var q := FtsSanitize(Some(Strip(if query.Some? then query.value else "")));
    if q == "" then Ok("")
    else match ContextRows(attempt, q)
      case Err(m) => Err(m)
      case Ok(rows) =>
        if rows == [] then Ok("") else Ok(Join(Blocks(rows, SnippetLimit, fmt), ContextSeparator))
  }

  method MoreContext(db: Tables, env: RagEnv, query: Option<string>, k: int) returns (r: Result<string, string>)
    ensures r == MoreContextSpec(db, env, query, k)
  {
    var q := FtsSanitize(Some(Strip(if query.Some? then query.value else "")));
    if q == "" {
      return Ok("");
    }
    var rows := ContextRows(Searcher(db, env.search, Callable(env.embed), 40, k), q);
    if rows.Err? {
      return Err(rows.error);
    }
    if rows.value == [] {
      return Ok("");
    }
    var parts := ContextBlocks(rows.value, SnippetLimit, env.formatScore);
    r := Ok(Join(parts, ContextSeparator));
  }

  /** The context rows come from the sanitised query, or from its prefixed
      form when FTS5 rejects that; a second rejection, and only that, turns
      into no rows. */
  lemma ContextRowsOrigin(attempt: Search, q: string)
    ensures var r := ContextRows(attempt, q);
      var used := if attempt(q) == Err(OperationalError) then attempt(FtsPrefixify(q)) else attempt(q);
      && (used.Ok? ==> r == Ok(used.value))
      && (used == Err(OperationalError) <==> attempt(q) == Err(OperationalError) && r == Ok([]) && used.Err?)
      && (used.Err? && used.error.OtherError? ==> r == Err(used.error.message))
  {
  }

  /** Extra context is empty when the query sanitises to nothing or no row
      is found; otherwise it is one block per row, in the order found,
      separated by "\n---\n", each snippet at most 1200 leading characters
      of the row's content. */
  lemma MoreContextShape(attempt: Search, fmt: real -> string, query: Option<string>)
    ensures var q := FtsSanitize(Some(Strip(if query.Some? then query.value else "")));
      var rows := ContextRows(attempt, q);
      var r := MoreContextFrom(attempt, fmt, query);
      && (q == "" || rows == Ok([]) ==> r == Ok(""))
      && (q != "" && rows.Err? ==> r == Err(rows.error))
      && (q != "" && rows.Ok? && rows.value != [] ==>
            exists parts: seq<string> ::
              && r == Ok(Join(parts, ContextSeparator))
              && |parts| == |rows.value|
              && forall j :: 0 <= j < |parts| ==> parts[j] == Block(rows.value[j], SnippetLimit, fmt))
  {
    var q := FtsSanitize(Some(Strip(if query.Some? then query.value else "")));
    var rows := ContextRows(attempt, q);
    if q != "" && rows.Ok? && rows.value != [] {
      var parts := Blocks(rows.value, SnippetLimit, fmt);
      forall j | 0 <= j < |parts| ensures parts[j] == Block(rows.value[j], SnippetLimit, fmt) {
        BlocksAt(rows.value, SnippetLimit, fmt, j);
      }
    }
  }

  // ---------------------------------------------------------------------
  // safe_hybrid_search
  // ---------------------------------------------------------------------

  /** The outcome of `safe_hybrid_search` together with the queries it
      searched with, in order. */
  datatype SearchRun = SearchRun(result: Result<seq<Scored>, string>, queries: seq<string>)

  /** `safe_hybrid_search(con, raw_query, embed_fn, bm25_k, rerank_k)`,
      where `attempt` is `hybrid_search` with those arguments. */
  function SafeHybridSearch(attempt: Search, raw: string): (r: SearchRun)
    ensures 1 <= |r.queries| <= 3 && r.queries[0] == raw
    ensures |r.queries| >= 2 ==>
      attempt(raw) == Err(OperationalError) && r.queries[1] == FtsSanitize(Some(raw)) != ""
    ensures |r.queries| == 3 ==>
      attempt(r.queries[1]) == Err(OperationalError) && r.queries[2] == FtsPrefixify(r.queries[1])
  {
    match attempt(raw)
    case Ok(rows) => SearchRun(Ok(rows), [raw])
    case Err(OtherError(m)) => SearchRun(Err(m), [raw])
    case Err(OperationalError) =>
      var safe := FtsSanitize(Some(raw));
      if safe == "" then SearchRun(Ok([]), [raw])
      else match attempt(safe)
        case Ok(rows) => SearchRun(Ok(rows), [raw, safe])
        case Err(OtherError(m)) => SearchRun(Err(m), [raw, safe])
        case Err(OperationalError) =>
          var pref := FtsPrefixify(safe);
          match attempt(pref)
          case Ok(rows) => SearchRun(Ok(rows), [raw, safe, pref])
          case Err(OtherError(m)) => SearchRun(Err(m), [raw, safe, pref])
          case Err(OperationalError) => SearchRun(Ok([]), [raw, safe, pref])
  }

  /** The fallback chain never lets an FTS5 syntax error escape: the result
      is the last attempt's rows, `[]` when that attempt was rejected too,
      or the last attempt's other failure unchanged; it stops short of the
      third attempt on a rejection only when sanitising left nothing. */
  lemma SafeSearchOutcome(attempt: Search, raw: string)
    ensures var r := SafeHybridSearch(attempt, raw);
      var last := attempt(r.queries[|r.queries| - 1]);
      && (last.Ok? ==> r.result == Ok(last.value))
      && (last == Err(OperationalError) ==> r.result == Ok([]))
      && (last.Err? && last.error.OtherError? ==> r.result == Err(last.error.message))
      && (|r.queries| < 3 && last == Err(OperationalError) ==> FtsSanitize(Some(raw)) == "")
  {
    var r := SafeHybridSearch(attempt, raw);
    if attempt(raw) == Err(OperationalError) {
      var safe := FtsSanitize(Some(raw));
      if safe != "" {
        if attempt(safe) == Err(OperationalError) {
          assert r.queries == [raw, safe, FtsPrefixify(safe)];
        } else {
          assert r.queries == [raw, safe];
        }
      } else {
        assert r == SearchRun(Ok([]), [raw]);
      }
    } else {
      assert r.queries == [raw];
    }
  }

  /** What `hybrid_search` promises of the rows it gives for `q`: at most
      `rerank_k` of them, best score first, each a lexical candidate of `q`. */
  ghost predicate Ranked(db: Tables, search: SearchEnv, bm25K: int, rerankK: int, q: string, rows: seq<Scored>)
  {
    && (rerankK >= 0 ==> |rows| <= rerankK)
    && SortedDesc(rows)
    && forall x :: x in rows ==>
         TopK(db, search, q, bm25K).Ok? && exists c :: c in TopK(db, search, q, bm25K).value && c.0 == x.chunkId
  }

  /** `hybrid_search` keeps that promise for every query. */
  lemma SearcherRanked(db: Tables, search: SearchEnv, f: string -> Result<Vector, string>, bm25K: int, rerankK: int)
    ensures forall q :: Searcher(db, search, Callable(f), bm25K, rerankK)(q).Ok? ==>
      Ranked(db, search, bm25K, rerankK, q, Searcher(db, search, Callable(f), bm25K, rerankK)(q).value)
  {
    forall q | Searcher(db, search, Callable(f), bm25K, rerankK)(q).Ok?
      ensures Ranked(db, search, bm25K, rerankK, q, Searcher(db, search, Callable(f), bm25K, rerankK)(q).value)
    {
      assert Searcher(db, search, Callable(f), bm25K, rerankK)(q) == HybridSpec(db, search, q, Callable(f), bm25K, rerankK);
      HybridResults(db, search, q, f, bm25K, rerankK);
    }
  }

  /** A run whose rows are those of its last attempt, or none, keeps the
      promise every attempt keeps. */
  lemma RunRanked(attempt: Search, db: Tables, search: SearchEnv, bm25K: int, rerankK: int, r: SearchRun)
    requires forall q :: attempt(q).Ok? ==> Ranked(db, search, bm25K, rerankK, q, attempt(q).value)
    requires r.result.Ok? && r.queries != []
    requires attempt(r.queries[|r.queries| - 1]).Ok? ==> r.result == Ok(attempt(r.queries[|r.queries| - 1]).value)
    requires attempt(r.queries[|r.queries| - 1]).Err? ==> r.result == Ok([])
    ensures var rows := r.result.value;
      && (rerankK >= 0 ==> |rows| <= rerankK)
      && SortedDesc(rows)
      && forall x :: x in rows ==>
           exists q :: q in r.queries && TopK(db, search, q, bm25K).Ok?
             && exists c :: c in TopK(db, search, q, bm25K).value && c.0 == x.chunkId
  {
    var q := r.queries[|r.queries| - 1];
    var rows := r.result.value;
    if attempt(q).Ok? {
      assert Ranked(db, search, bm25K, rerankK, q, rows);
      forall x | x in rows
        ensures exists p :: (p in r.queries && TopK(db, search, p, bm25K).Ok?
                               && exists c :: c in TopK(db, search, p, bm25K).value && c.0 == x.chunkId)
      {
        assert q in r.queries;
      }
    }
  }

  /** Whatever attempt produced them, the rows of the fallback chain keep
      that promise: at most `rerank_k`, best score first, and each a
      lexical candidate of the query that found it. */
  lemma SafeSearchRows(attempt: Search, db: Tables, search: SearchEnv, bm25K: int, rerankK: int, raw: string)
    requires forall q :: attempt(q).Ok? ==> Ranked(db, search, bm25K, rerankK, q, attempt(q).value)
    requires SafeHybridSearch(attempt, raw).result.Ok?
    ensures var r := SafeHybridSearch(attempt, raw);
      var rows := r.result.value;
      && (rerankK >= 0 ==> |rows| <= rerankK)
      && SortedDesc(rows)
      && forall x :: x in rows ==>
           exists q :: q in r.queries && TopK(db, search, q, bm25K).Ok?
             && exists c :: c in TopK(db, search, q, bm25K).value && c.0 == x.chunkId
  {
    SafeSearchOutcome(attempt, raw);
    RunRanked(attempt, db, search, bm25K, rerankK, SafeHybridSearch(attempt, raw));
  }

  // ---------------------------------------------------------------------
  // _chat_until_conclusive
  // ---------------------------------------------------------------------

  datatype Message = Message(role: string, content: string)

  /** What one call of the chat model gives: the reply's content (which
      may be None), or the exception's message. */
  datatype Reply = Reply(content: Option<string>) | CallRaises(message: string)

  type ChatModel = seq<Message> -> Reply

  const FinalMarker := "FINAL_ANSWER:"
  const MoreMarker := "NEED_MORE_CONTEXT:"
  const NoConclusion := "No fue posible obtener una respuesta concluyente con el contexto disponible."
  const ModelErrorPrefix := "Error al consultar el modelo: "
  const ExtraContextPrefix := "Contexto adicional:\n"

  /** `s.split(c, 1)[1] if c in s else ""`: what follows the first `c`. */
  function AfterFirst(s: string, c: char): (r: string)
    ensures c !in s ==> r == ""
    ensures |r| <= |s| && r == s[|s| - |r|..]
  {
    if s == [] then "" else if s[0] == c then s[1..] else AfterFirst(s[1..], c)
  }

  lemma {:induction false} AfterFirstPrefix(p: string, c: char, t: string)
    requires c !in p
    ensures AfterFirst(p + [c] + t, c) == t
  {
    if p != [] {
      assert (p + [c] + t)[1..] == p[1..] + [c] + t;
      AfterFirstPrefix(p[1..], c, t);
    }
  }

  /** How a reply is read: a conclusive answer, a request for more
      context with its queries, or text returned as it is. */
  datatype ReplyKind = Final(answer: string) | More(queries: seq<string>) | Literal(text: string)

  /** `(choice.message.content or "").strip()`. */
  function ReplyText(content: Option<string>): string
  {
    Strip(if content.Some? then content.value else "")
  }

  function Classify(txt: string): (k: ReplyKind)
    ensures k.Final? <==> StartsWith(txt, FinalMarker)
    ensures k.More? <==> !StartsWith(txt, FinalMarker) && StartsWith(txt, MoreMarker)
    ensures k.Final? ==> k.answer == Strip(txt[|FinalMarker|..])
    ensures k.More? ==> k.queries == KeepStripped(SplitOn(txt[|MoreMarker|..], ';'))
    ensures k.Literal? ==> k.text == txt
  {
    if StartsWith(txt, FinalMarker) then Final(Strip(txt[|FinalMarker|..]))
    else if StartsWith(txt, MoreMarker) then
      MoreMarkerColon(txt);
      More(KeepStripped(SplitOn(AfterFirst(txt, ':'), ';')))
    else Literal(txt)
  }

  /** The first `:` of a request for more context ends its marker. */
  lemma MoreMarkerColon(txt: string)
    requires StartsWith(txt, MoreMarker)
    ensures AfterFirst(txt, ':') == txt[|MoreMarker|..]
  {
    var head := MoreMarker[..|MoreMarker| - 1];
    assert ':' !in head;
    assert txt == head + [':'] + txt[|MoreMarker|..];
    AfterFirstPrefix(head, ':', txt[|MoreMarker|..]);
  }

  /** The queries of a request for more context are non-blank, stripped
      and free of `;`. */
  lemma MoreQueriesClean(txt: string, q: string)
    requires Classify(txt).More? && q in Classify(txt).queries
    ensures q != "" && q == Strip(q) && ';' !in q
  {
    var pieces := SplitOn(txt[|MoreMarker|..], ';');
    KeepStrippedItems(pieces);
    var w :| w in pieces && q == Strip(w);
    StripByIdempotent(w, IsSpace);
    StripSubstring(w, IsSpace);
  }

  /** `_more_context` with the `k` of 4 the conversation loop uses, as a
      function of the query. */
  type ContextLookup = string -> Result<string, string>

  function MoreLookup(db: Tables, env: RagEnv): ContextLookup
  {
    q => MoreContextSpec(db, env, Some(q), 4)
  }

  /** The non-empty extra contexts for the queries, in order; the first
      failure escapes. */
  function GatherSpec(more: ContextLookup, queries: seq<string>): Result<seq<string>, string>
  {
    if queries == [] then Ok([])
    else match more(queries[0])
      case Err(m) => Err(m)
      case Ok(piece) =>
        match GatherSpec(more, queries[1..])
        case Err(m) => Err(m)
        case Ok(rest) => Ok((if piece != "" then [piece] else []) + rest)
  }

  function PrependParts(parts: seq<string>, r: Result<seq<string>, string>): Result<seq<string>, string>
  {
    match r
    case Ok(rest) => Ok(parts + rest)
    case Err(m) => Err(m)
  }

  /** The loop over the requested queries in `_chat_until_conclusive`. */
  method GatherContext(db: Tables, env: RagEnv, queries: seq<string>) returns (r: Result<seq<string>, string>)
    ensures r == GatherSpec(MoreLookup(db, env), queries)
  {
    ghost var more := MoreLookup(db, env);
    var parts: seq<string> := [];
    var i := 0;
    assert queries[0..] == queries;
    ghost var all := GatherSpec(more, queries);
    if all.Ok? {
      assert [] + all.value == all.value;
    }
    while i < |queries|
      invariant 0 <= i <= |queries|
      invariant all == PrependParts(parts, GatherSpec(more, queries[i..]))
    {
      var piece := MoreContext(db, env, Some(queries[i]), 4);
      assert piece == more(queries[i]);
      assert queries[i..][1..] == queries[i + 1..];
      if piece.Err? {
        return Err(piece.error);
      }
      var kept := if piece.value != "" then [piece.value] else [];
      ghost var later := GatherSpec(more, queries[i + 1..]);
      if later.Ok? {
        AppendAssoc(parts, kept, later.value);
      }
      parts := parts + kept;
      i := i + 1;
    }
    assert queries[i..] == [];
    assert parts + [] == parts;
    r := Ok(parts);
  }

  /** How one round of `_chat_until_conclusive` ends: with the loop's
      answer (or the failure that escapes it), or with extra context to
      append before the next round. */
  datatype RoundOutcome = Done(answer: Result<string, string>) | Continue(extra: string)

  /** One round: call the model, then answer, or gather the requested
      context; a round that gathers nothing ends the loop. */
  function RoundSpec(model: ChatModel, more: ContextLookup, msgs: seq<Message>): (r: RoundOutcome)
    ensures model(msgs).CallRaises? ==> r == Done(Ok(ModelErrorPrefix + model(msgs).message))
    ensures model(msgs).Reply? && StartsWith(ReplyText(model(msgs).content), FinalMarker) ==>
      var txt := ReplyText(model(msgs).content);
      r == Done(Ok(Strip(txt[|FinalMarker|..])))
    ensures model(msgs).Reply? && !StartsWith(ReplyText(model(msgs).content), FinalMarker)
            && !StartsWith(ReplyText(model(msgs).content), MoreMarker) ==>
      r == Done(Ok(ReplyText(model(msgs).content)))
    ensures r.Continue? ==>
      && r.extra != ""
      && model(msgs).Reply? && StartsWith(ReplyText(model(msgs).content), MoreMarker)
      && GatherSpec(more, Classify(ReplyText(model(msgs).content)).queries).Ok?
  {
    match model(msgs)
    case CallRaises(e) => Done(Ok(ModelErrorPrefix + e))
    case Reply(c) =>
      match Classify(ReplyText(c))
      case Final(a) => Done(Ok(a))
      case Literal(t) => Done(Ok(t))
      case More(qs) =>
        match GatherSpec(more, qs)
        case Err(m) => Done(Err(m))
        case Ok(pieces) =>
          var extra := Strip(Join(pieces, "\n\n"));
          if extra == "" then Done(Ok(NoConclusion)) else Continue(extra)
  }

  type Round = seq<Message> -> RoundOutcome

  function Rounds(model: ChatModel, more: ContextLookup): Round
  {
    msgs => RoundSpec(model, more, msgs)
  }

  function ExtraContext(extra: string): Message
  {
    Message("system", ExtraContextPrefix + extra)
  }

  /** What `_chat_until_conclusive` ends with: its answer (or the failure
      that escapes it), the conversation as it then stands, and how many
      times it called the model. */
  datatype ChatOutcome = ChatOutcome(answer: Result<string, string>, messages: seq<Message>, calls: nat)

  /** `_chat_until_conclusive` with `rounds` rounds left, one model call
      per round. */
  function ChatSpec(round: Round, msgs: seq<Message>, rounds: int): ChatOutcome
    decreases if rounds > 0 then rounds else 0
  {
    if rounds <= 0 then ChatOutcome(Ok(NoConclusion), msgs, 0)
    else match round(msgs)
      case Done(a) => ChatOutcome(a, msgs, 1)
      case Continue(extra) =>
        var o := ChatSpec(round, msgs + [ExtraContext(extra)], rounds - 1);
        o.(calls := o.calls + 1)
  }

  /** The body of the round loop. */
  ghost predicate Plays(round: Round, model: ChatModel, more: ContextLookup)
  {
    forall m {:trigger RoundSpec(model, more, m)} :: RoundSpec(model, more, m) == round(m)
  }

  lemma RoundsPlay(model: ChatModel, more: ContextLookup)
    ensures Plays(Rounds(model, more), model, more)
  {
  }

  method ChatRound(model: ChatModel, db: Tables, env: RagEnv, ghost round: Round, msgs: seq<Message>) returns (r: RoundOutcome)
    requires Plays(round, model, MoreLookup(db, env))
    ensures r == round(msgs)
  {
    assert RoundSpec(model, MoreLookup(db, env), msgs) == round(msgs);
    var reply := model(msgs);
    if reply.CallRaises? {
      return Done(Ok(ModelErrorPrefix + reply.message));
    }
    var kind := Classify(ReplyText(reply.content));
    if kind.Final? {
      return Done(Ok(kind.answer));
    }
    if kind.Literal? {
      return Done(Ok(kind.text));
    }
    var pieces := GatherContext(db, env, kind.queries);
    if pieces.Err? {
      return Done(Err(pieces.error));
    }
    var extra := Strip(Join(pieces.value, "\n\n"));
    if extra == "" {
      return Done(Ok(NoConclusion));
    }
    r := Continue(extra);
  }

  /** `_chat_until_conclusive(client, messages, con, demand_id, max_rounds)`:
      the round loop appending to the shared message list. */
  method ChatUntilConclusive(model: ChatModel, db: Tables, env: RagEnv, ghost round: Round, messages: seq<Message>, maxRounds: int)
    returns (answer: Result<string, string>, msgs: seq<Message>, calls: nat)
    requires Plays(round, model, MoreLookup(db, env))
    ensures ChatOutcome(answer, msgs, calls) == ChatSpec(round, messages, maxRounds)
  {
    ghost var goal := ChatSpec(round, messages, maxRounds);
    msgs := messages;
    calls := 0;
    var n := 1;
    while n <= maxRounds
      invariant calls == n - 1
      invariant var o := ChatSpec(round, msgs, maxRounds - calls);
        o.answer == goal.answer && o.messages == goal.messages && o.calls + calls == goal.calls
      decreases maxRounds - n
    {
      var step := ChatRound(model, db, env, round, msgs);
      calls := calls + 1;
      if step.Done? {
        return step.answer, msgs, calls;
      }
      msgs := msgs + [ExtraContext(step.extra)];
      n := n + 1;
    }
    answer := Ok(NoConclusion);
  }

  /** The loop calls the model at most `max_rounds` times, and at least
      once when it may call it at all; it only ever appends system messages
      carrying extra context, at most one per call, and one per call only
      when the rounds ran out. */
  lemma {:induction false} ChatBounds(round: Round, msgs: seq<Message>, rounds: int)
    ensures var o := ChatSpec(round, msgs, rounds);
      && o.calls <= (if rounds > 0 then rounds else 0)
      && (rounds > 0 ==> o.calls >= 1)
      && |msgs| <= |o.messages| && o.messages[..|msgs|] == msgs
      && (forall i :: |msgs| <= i < |o.messages| ==>
            o.messages[i].role == "system" && StartsWith(o.messages[i].content, ExtraContextPrefix))
      && o.calls - 1 <= |o.messages| - |msgs| <= o.calls
      && (|o.messages| - |msgs| == o.calls > 0 ==> o.answer == Ok(NoConclusion))
    decreases if rounds > 0 then rounds else 0
  {
    if rounds > 0 && round(msgs).Continue? {
      var next := msgs + [ExtraContext(round(msgs).extra)];
      ChatBounds(round, next, rounds - 1);
      var o := ChatSpec(round, next, rounds - 1);
      assert o.messages[..|msgs|] == next[..|msgs|];
      forall i | |msgs| <= i < |o.messages|
        ensures o.messages[i].role == "system" && StartsWith(o.messages[i].content, ExtraContextPrefix)
      {
        if i == |msgs| {
          assert o.messages[i] == next[i];
        }
      }
    }
  }

  /** The loop answers with the first round that does not ask for more
      context, on the conversation as it then stands; otherwise it has used
      all `max_rounds` rounds and gives the fixed no-conclusion answer. */
  lemma {:induction false} ChatAnswer(round: Round, msgs: seq<Message>, rounds: int)
    ensures var o := ChatSpec(round, msgs, rounds);
      && |msgs| <= |o.messages|
      && (o.calls == 0 ==> o.answer == Ok(NoConclusion))
      && (|o.messages| - |msgs| < o.calls ==> round(o.messages).Done? && o.answer == round(o.messages).answer)
      && (|o.messages| - |msgs| >= o.calls ==> o.answer == Ok(NoConclusion) && o.calls == (if rounds > 0 then rounds else 0))
    decreases if rounds > 0 then rounds else 0
  {
    if rounds > 0 && round(msgs).Continue? {
      ChatAnswer(round, msgs + [ExtraContext(round(msgs).extra)], rounds - 1);
    }
  }

  // ---------------------------------------------------------------------
  // rag_answer and execute
  // ---------------------------------------------------------------------

  const NoResults := "(sin resultados)"
  const BlockSeparator := "\n\n---\n\n"
  const MissingStoreMessage := "SQLite de la demanda no existe o no está registrado."
  const AnswerSnippetLimit: nat := 800
  const TopChunkLimit: nat := 8

  /** What `rag_answer` reads besides the store: the cases (id → the
      `sqlite_path` column), the directory prefix taken from the
      environment, the file system, the chat model and the fixed system
      prompt that asks for a FINAL_ANSWER: or NEED_MORE_CONTEXT: reply. */
  datatype Host = Host(
    systemPrompt: string,
    demands: map<int, string>,
    prefix: string,
    fileExists: string -> bool,
    open: string -> Tables,
    model: ChatModel)

  datatype TopChunk = TopChunk(chunkId: int, score: real)

  datatype Trace = Trace(demandId: int, question: string, dbPath: string, contextLen: nat,
                         topChunks: seq<TopChunk>, answer: string)

  /** What `rag_answer` returns: the "does not exist" message with no
      trace, or the answer with its trace, context, rows and store path. */
  datatype Answer =
    | NoSuchDemand(message: string)
    | Answered(answer: string, trace: Trace, contextText: string, results: seq<Scored>, dbPath: string)

  /** The context handed to the model: the blocks, or "(sin resultados)"
      when there are none, then the seed context if there is one. */
  function ContextText(blocks: seq<string>, seed: string): string
  {
    (if blocks == [] then NoResults else Join(blocks, BlockSeparator))
    + (if seed != "" then BlockSeparator + "[seed]\n" + seed else "")
  }

  /** `[{"chunk_id": r[0], "score": r[2]} for r in results[:8]]`. */
  function TopChunks(results: seq<Scored>): (r: seq<TopChunk>)
    ensures |r| == if |results| < TopChunkLimit then |results| else TopChunkLimit
    ensures forall i :: 0 <= i < |r| ==> r[i] == TopChunk(results[i].chunkId, results[i].score)
    decreases |results|
  {
    if results == [] || TopChunkLimit == 0 then []
    else TopChunksUpTo(results, TopChunkLimit)
  }

  function TopChunksUpTo(results: seq<Scored>, n: nat): (r: seq<TopChunk>)
    ensures |r| == if |results| < n then |results| else n
    ensures forall i :: 0 <= i < |r| ==> r[i] == TopChunk(results[i].chunkId, results[i].score)
  {
    if results == [] || n == 0 then []
    else [TopChunk(results[0].chunkId, results[0].score)] + TopChunksUpTo(results[1..], n - 1)
  }

  function IdText(id: Option<int>): string
  {
    if id.Some? then IntToString(id.value) else "None"
  }

  /** The seed context: the question sanitised and prefixed, looked up
      with `_more_context` when non-empty; any failure leaves it empty. */
  function SeedContext(db: Tables, env: RagEnv, question: string): string
  {
    var seedQ := FtsPrefixify(FtsSanitize(Some(question)));
    if seedQ == "" then ""
    else match MoreContextSpec(db, env, Some(seedQ), 4)
      case Ok(c) => c
      case Err(_) => ""
  }

  function Opening(prompt: string, question: string, text: string): seq<Message>
  {
    [Message("system", prompt), Message("user", "Pregunta: " + question + "\n\ncontext:\n" + text)]
  }

  /** `rag_answer(demand_id, question, k)`; an exception it raises is `Err`
      with its message. */
  function RagAnswerSpec(host: Host, env: RagEnv, demandId: Option<int>, question: string, k: int)
    : Result<Answer, string>
  {
    if demandId.None? || demandId.value !in host.demands then
      Ok(NoSuchDemand("Demanda procesada con id=" + IdText(demandId) + " no existe."))
    else
      var dbPath := host.prefix + host.demands[demandId.value];
      if dbPath == "" || !host.fileExists(dbPath) then Err(MissingStoreMessage)
      else
        var db := host.open(dbPath);
        var seed := SeedContext(db, env, question);
        match SafeHybridSearch(Searcher(db, env.search, Callable(env.embed), 40, k), question).result
        case Err(m) => Err(m)
        case Ok(results) =>
          var text := ContextText(Blocks(results, AnswerSnippetLimit, env.formatScore), seed);
          var chat := ChatSpec(Rounds(host.model, MoreLookup(db, env)), Opening(host.systemPrompt, question, text), 3);
          var answer := if chat.answer.Ok? then chat.answer.value else "Error en loop LLM: " + chat.answer.error;
          Ok(Answered(answer, Trace(demandId.value, question, dbPath, |text|, TopChunks(results), answer),
                      text, results, dbPath))
  }

  method RagAnswer(host: Host, env: RagEnv, demandId: Option<int>, question: string, k: int)
    returns (r: Result<Answer, string>)
    ensures r == RagAnswerSpec(host, env, demandId, question, k)
    ensures TraceAgrees(r)
  {
    if demandId.None? || demandId.value !in host.demands {
      return Ok(NoSuchDemand("Demanda procesada con id=" + IdText(demandId) + " no existe."));
    }
    var dbPath := host.prefix + host.demands[demandId.value];
    if dbPath == "" || !host.fileExists(dbPath) {
      return Err(MissingStoreMessage);
    }
    var db := host.open(dbPath);
    var seedQ := FtsPrefixify(FtsSanitize(Some(question)));
    var seed := "";
    if seedQ != "" {
      var more := MoreContext(db, env, Some(seedQ), 4);
      if more.Ok? {
        seed := more.value;
      }
    }
    var run := SafeHybridSearch(Searcher(db, env.search, Callable(env.embed), 40, k), question);
    if run.result.Err? {
      return Err(run.result.error);
    }
    var blocks := ContextBlocks(run.result.value, AnswerSnippetLimit, env.formatScore);
    var text := ContextText(blocks, seed);
    RoundsPlay(host.model, MoreLookup(db, env));
    var chat, _, _ := ChatUntilConclusive(host.model, db, env, Rounds(host.model, MoreLookup(db, env)), Opening(host.systemPrompt, question, text), 3);
    var answer := if chat.Ok? then chat.value else "Error en loop LLM: " + chat.error;
    r := Ok(Answered(answer, Trace(demandId.value, question, dbPath, |text|, TopChunks(run.result.value), answer),
                     text, run.result.value, dbPath));
  }

  /** The arguments `execute` reads. */
  datatype QueryArgs = QueryArgs(demandId: Option<int>, question: string, conversationId: Option<string>, k: Option<int>)

  /** The fields of the dictionary `execute` returns that the model keeps. */
  datatype QueryResult = QueryResult(conversationId: string, answer: string, contextLen: nat,
                                     dbPath: Option<string>, topChunks: seq<TopChunk>)

  /** `execute(arguments)` of rag_query.py; `freshId` stands for the
      random conversation id. */
  function RagQueryExecute(host: Host, env: RagEnv, args: QueryArgs, freshId: string): QueryResult
  {
    var cid := if args.conversationId.Some? && args.conversationId.value != "" then args.conversationId.value else freshId;
    var k := if args.k.Some? then args.k.value else 8;
    Report(cid, RagAnswerSpec(host, env, args.demandId, args.question, k))
  }

  /** The dictionary `execute` builds from what `rag_answer` gave. */
  function Report(cid: string, a: Result<Answer, string>): QueryResult
  {
    match a
    case Err(e) => QueryResult(cid, Strip("Error: " + e), 0, None, [])
    case Ok(NoSuchDemand(m)) => QueryResult(cid, Strip(m), 0, None, [])
    case Ok(Answered(ans, trace, text, _, path)) => QueryResult(cid, Strip(ans), |text|, Some(path), trace.topChunks)
  }

  /** The trace `rag_answer` returns agrees with the rest of its result:
      its top chunks are the first rows, its length is the context's. */
  predicate TraceAgrees(a: Result<Answer, string>)
  {
    a.Ok? && a.value.Answered? ==>
      && a.value.trace.topChunks == TopChunks(a.value.results)
      && a.value.trace.contextLen == |a.value.contextText|
      && a.value.trace.dbPath == a.value.dbPath
      && a.value.trace.answer == a.value.answer
  }

  /** The context is never empty: without rows it reads "(sin resultados)",
      followed by the seed context when there is one. */
  lemma ContextTextShape(blocks: seq<string>, seed: string)
    ensures var t := ContextText(blocks, seed);
      && (blocks == [] ==> StartsWith(t, NoResults))
      && (blocks == [] && seed == "" ==> t == NoResults)
      && (seed != "" ==> |t| >= |seed| && t[|t| - |seed|..] == seed)
  {
  }

  /** What `execute` reports: at most eight top chunks, the full context
      length when a store was searched, and an error text with nothing else
      when `rag_answer` raised. */
  lemma ReportShape(cid: string, a: Result<Answer, string>)
    requires TraceAgrees(a)
    ensures var r := Report(cid, a);
      && r.conversationId == cid
      && |r.topChunks| <= TopChunkLimit
      && (a.Err? ==> r.answer == Strip("Error: " + a.error) && r.contextLen == 0 && r.dbPath.None? && r.topChunks == [])
      && (a.Ok? && a.value.Answered? ==>
            r.answer == Strip(a.value.answer) && r.contextLen == |a.value.contextText|
            && r.dbPath == Some(a.value.dbPath) && r.topChunks == TopChunks(a.value.results))
      && (a.Ok? && a.value.NoSuchDemand? ==>
            r.answer == Strip(a.value.message) && r.dbPath.None? && r.topChunks == [] && r.contextLen == 0)
  {
  }

  // ---------------------------------------------------------------------
  // rag_search.py
  // ---------------------------------------------------------------------

  /** Python's `\w` on the Latin-1 range: digits, letters, `_`, and the
      Latin-1 letters and numerals (ª ² ³ µ ¹ º ¼ ½ ¾ À–Ö Ø–ö ø–ÿ). */
  predicate WordChar(c: char)
  {
    var n := c as int;
    ('0' <= c <= '9') || ('A' <= c <= 'Z') || ('a' <= c <= 'z') || c == '_'
    || n == 0xAA || n == 0xB2 || n == 0xB3 || n == 0xB5 || n == 0xB9 || n == 0xBA
    || (0xBC <= n <= 0xBE) || (0xC0 <= n <= 0xD6) || (0xD8 <= n <= 0xF6) || (0xF8 <= n <= 0xFF)
  }

  /** `sanitize_fts_query(text)`: empty for None or "", otherwise every run
      of non-word characters becomes one space and the ends are stripped. */
  function SanitizeFtsQuery(text: Option<string>): string
  {
    if text.None? || text.value == "" then ""
    else Strip(SubstituteRuns(text.value, WordChar))
  }

  /** The sanitised query holds only word characters and single spaces,
      with a word character at both ends. */
  lemma SanitizeFtsQueryShape(text: Option<string>)
    ensures var t := SanitizeFtsQuery(text);
      && KeptOrSpace(t, WordChar)
      && (t != [] ==> WordChar(t[0]) && WordChar(t[|t| - 1]))
      && SingleGaps(t, WordChar)
  {
    if text.Some? && text.value != "" {
      var u := SubstituteRuns(text.value, WordChar);
      WordCharIsNotSpace();
      SubstituteRunsChars(text.value, WordChar);
      StripSpaced(u, WordChar, IsSpace);
    }
  }

  lemma WordCharIsNotSpace()
    ensures forall c :: WordChar(c) ==> !IsSpace(c)
    ensures IsSpace(' ')
  {
  }

  /** Stripping a class that holds the space but no kept character from a
      string of kept characters and single spaces keeps that form and
      leaves a kept character at both ends. */
  lemma StripSpaced(u: string, keep: char -> bool, p: char -> bool)
    requires p(' ') && forall c :: keep(c) ==> !p(c)
    requires KeptOrSpace(u, keep) && SingleGaps(u, keep)
    ensures var t := StripBy(u, p);
      && KeptOrSpace(t, keep)
      && (t != [] ==> keep(t[0]) && keep(t[|t| - 1]))
      && SingleGaps(t, keep)
  {
    StrippedPieceSpaced(u, keep, p);
    StrippedEndsKept(u, keep, p);
  }

  /** What strip keeps is a piece, so it keeps the spaced form. */
  lemma StrippedPieceSpaced(u: string, keep: char -> bool, p: char -> bool)
    requires KeptOrSpace(u, keep) && SingleGaps(u, keep)
    ensures KeptOrSpace(StripBy(u, p), keep) && SingleGaps(StripBy(u, p), keep)
  {
    var a, b := StripBySlice(u, p);
    PieceSpaced(u, a, b, keep, StripBy(u, p));
  }

  /** Strip leaves no space at either end, so both ends are kept. */
  lemma StrippedEndsKept(u: string, keep: char -> bool, p: char -> bool)
    requires p(' ') && KeptOrSpace(StripBy(u, p), keep)
    ensures var t := StripBy(u, p); t != [] ==> keep(t[0]) && keep(t[|t| - 1])
  {
    var t := StripBy(u, p);
    StripByShape(u, p);
    if t != [] {
      EndKept(t[0], keep, p);
      EndKept(t[|t| - 1], keep, p);
    }
  }

  /** A kept character or a space that the class does not hold is kept. */
  lemma EndKept(c: char, keep: char -> bool, p: char -> bool)
    requires p(' ') && (keep(c) || c == ' ') && !p(c)
    ensures keep(c)
  {
  }

  /** A piece of a string of kept characters and single spaces is one too. */
  lemma PieceSpaced(u: string, a: nat, b: nat, keep: char -> bool, t: string)
    requires a <= b <= |u| && t == u[a..b]
    requires KeptOrSpace(u, keep) && SingleGaps(u, keep)
    ensures KeptOrSpace(t, keep) && SingleGaps(t, keep)
  {
    forall i | 0 <= i < |t| ensures keep(t[i]) || t[i] == ' ' {
      assert t[i] == u[a + i];
    }
    forall i, j | 0 <= i < j < |t| && j == i + 1 && !keep(t[i]) ensures keep(t[j]) {
      assert t[i] == u[a + i];
      assert t[j] == u[a + j];
    }
  }

  /** The arguments `execute` of rag_search.py reads. */
  datatype SearchArgs = SearchArgs(demandId: Option<Json>, question: Option<string>, k: Option<int>)

  /** What `rag_search` reads besides the store: the case lookup (the
      `sqlite_path` of the case with that id, if any) and the file
      system. */
  datatype SearchHost = SearchHost(find: Json -> Option<string>, fileExists: string -> bool, open: string -> Tables)

  /** The exceptions `execute` of rag_search.py raises. */
  datatype SearchFailure =
    | ValueError(message: string)
    | DoesNotExist
    | SystemExit(message: string)
    | Raised(failure: Failure)

  const MissingArguments := "Missing required arguments: demand_id and query"
  const NoSqlitePath := "Demand has no sqlite_path."
  const SqliteMissing := "SQLite path missing on disk."

  /** The two attempts: the raw question with the embedding vector in
      place of an embedding function, then, only if FTS5 rejected that,
      the sanitised question with the embedding function. */
  function SearchWithRetry(first: Search, retry: Search, query: string): Result<seq<Scored>, Failure>
  {
    match first(query)
    case Err(OperationalError) => retry(SanitizeFtsQuery(Some(query)))
    case r => r
  }

  /** `execute(arguments)` of rag_search.py; the rows are returned as they
      are (the tool lists them as chunk_id, content, score). */
  function RagSearchExecute(host: SearchHost, env: RagEnv, args: SearchArgs): Result<seq<Scored>, SearchFailure>
  {
    if args.demandId.None? || !Truthy(args.demandId.value) || args.question.None? || args.question.value == "" then
      Err(ValueError(MissingArguments))
    else match host.find(args.demandId.value)
      case None => Err(DoesNotExist)
      case Some(path) =>
        if path == "" then Err(SystemExit(NoSqlitePath))
        else if !host.fileExists(path) then Err(SystemExit(SqliteMissing))
        else
          var db := host.open(path);
          var k := if args.k.Some? then args.k.value else 8;
          var query := args.question.value;
          match env.embed(query)
          case Err(m) => Err(Raised(OtherError(m)))
          case Ok(_) =>
            match SearchWithRetry(Searcher(db, env.search, NotCallable, 40, k),
                                  Searcher(db, env.search, Callable(env.embed), 40, k), query)
            case Ok(rows) => Ok(rows)
            case Err(f) => Err(Raised(f))
  }

  /** Passing the vector where `hybrid_search` expects a function means the
      first attempt can only succeed with no rows: as soon as there is a
      lexical candidate, calling the vector raises a TypeError. */
  lemma VectorEmbedderFindsNothing(db: Tables, search: SearchEnv, query: string, bm25K: int, rerankK: int)
    ensures var r := HybridSpec(db, search, query, NotCallable, bm25K, rerankK);
      && (r.Ok? ==> r.value == [])
      && (TopK(db, search, query, bm25K).Ok? && TopK(db, search, query, bm25K).value != [] ==>
            r == Err(OtherError(NotCallableMessage)))
  {
  }

  /** Rows come back only from the sanitised retry, or as the empty result
      of a first attempt with no candidates; the retry happens exactly when
      FTS5 rejected the raw question. */
  lemma RagSearchOutcome(host: SearchHost, env: RagEnv, args: SearchArgs)
    ensures var r := RagSearchExecute(host, env, args);
      && (args.demandId.None? || args.question.None? ==> r == Err(ValueError(MissingArguments)))
      && (r.Err? && r.error.SystemExit? <==>
            && args.demandId.Some? && Truthy(args.demandId.value)
            && args.question.Some? && args.question.value != ""
            && host.find(args.demandId.value).Some?
            && (host.find(args.demandId.value).value == ""
                || !host.fileExists(host.find(args.demandId.value).value)))
      && (r.Ok? && r.value != [] ==>
            var path := host.find(args.demandId.value).value;
            var k := if args.k.Some? then args.k.value else 8;
            var q := args.question.value;
            && HybridSpec(host.open(path), env.search, q, NotCallable, 40, k) == Err(OperationalError)
            && HybridSpec(host.open(path), env.search, SanitizeFtsQuery(Some(q)), Callable(env.embed), 40, k)
               == Ok(r.value))
  {
    var r := RagSearchExecute(host, env, args);
    if r.Ok? && r.value != [] {
      var path := host.find(args.demandId.value).value;
      var k := if args.k.Some? then args.k.value else 8;
      var q := args.question.value;
      VectorEmbedderFindsNothing(host.open(path), env.search, q, 40, k);
    }
  }
}
