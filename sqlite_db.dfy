/** The per-case search store of mcp_app/rag/sqlite_db.py: a documents
    table, a chunks table, an embeddings table and the FTS5 projection of
    the chunks, each an in-memory sequence whose row `i` has id `i + 1`
    (the store only ever appends, so SQLite's `lastrowid` is the row
    count). Lexical matching with its bm25 ranking, the embedder and the
    cosine similarity are oracles. */
module SqliteDb {
  import opened Common

  /** An embedding vector; only the similarity oracle looks inside it. */
  type Vector = seq<real>

  datatype Document = Document(path: string, meta: map<string, Json>)
  datatype Chunk = Chunk(documentId: int, content: string, position: int)
  datatype Embedding = Embedding(chunkId: int, vector: Vector)
  datatype FtsRow = FtsRow(rowid: int, content: string, chunkId: int)

  /** The four tables as a value: what a connection sees. */
  datatype Tables = Tables(
    documents: seq<Document>, chunks: seq<Chunk>,
    embeddings: seq<Embedding>, fts: seq<FtsRow>)

  /** The FTS projection mirrors the chunks table: one row per chunk, in
      order, whose rowid and `chunk_id` are both the chunk's id. */
  predicate FtsMirrorsChunks(t: Tables)
  {
    |t.fts| == |t.chunks| &&
    forall i :: 0 <= i < |t.fts| ==> t.fts[i] == FtsRow(i + 1, t.chunks[i].content, i + 1)
  }

  /** What FTS5 answers for a MATCH: a syntax error in the query
      (`sqlite3.OperationalError`), or the matching rows, best rank first,
      as positions in the FTS table. */
  datatype Lexical = LexicalError | Ranked(positions: seq<nat>)

  /** The search machinery outside the model: FTS5 matching and ranking,
      and the similarity of two vectors. */
  datatype SearchEnv = SearchEnv(
    lexical: (seq<FtsRow>, string) -> Lexical,
    similarity: (Vector, Vector) -> real)

  /** The `embed_query` argument of `hybrid_search`: a function that embeds
      a query (it may raise, with a message), or a value that is not
      callable at all. */
  datatype Embedder = Callable(embed: string -> Result<Vector, string>) | NotCallable

  /** Failures that escape `hybrid_search`. */
  datatype Failure = OperationalError | OtherError(message: string)

  /** Message of the TypeError raised when a non-callable is called. */
  const NotCallableMessage: string := "object is not callable"

  datatype Scored = Scored(chunkId: int, content: string, score: real)

  /** A row of the chunks-embeddings join: chunk id, content, vector. */
  datatype Joined = Joined(chunkId: int, content: string, vector: Vector)

  // ---------------------------------------------------------------------
  // Reading
  // ---------------------------------------------------------------------

  /** SQL `LIMIT k`: a negative limit means no limit. */
  function Limit<T>(s: seq<T>, k: int): (r: seq<T>)
    ensures k < 0 ==> r == s
    ensures k >= 0 ==> |r| <= k
    ensures |r| <= |s| && r == s[..|r|]
  {
    if k < 0 || k >= |s| then s else s[..k]
  }

  /** The FTS rows at the ranked positions as `(rowid, content)`, skipping
      positions the table does not have. */
  function RankedRows(fts: seq<FtsRow>, positions: seq<nat>): (r: seq<(int, string)>)
    ensures |r| <= |positions|
    ensures forall i :: 0 <= i < |r| ==> exists j :: 0 <= j < |fts| && r[i] == (fts[j].rowid, fts[j].content)
  {
    if positions == [] then []
    else
      var rest := RankedRows(fts, positions[1..]);
      if positions[0] < |fts| then
        var row := fts[positions[0]];
        [(row.rowid, row.content)] + rest
      else rest
  }

  /** `topk_bm25(con, query, k)`: the best `k` matches, or the FTS error. */
  function TopK(t: Tables, env: SearchEnv, query: string, k: int): (r: Result<seq<(int, string)>, Failure>)
    ensures r.Err? ==> r.error == OperationalError
    ensures r.Ok? && k >= 0 ==> |r.value| <= k
    ensures r.Ok? ==> forall i :: 0 <= i < |r.value| ==>
      exists j :: 0 <= j < |t.fts| && r.value[i] == (t.fts[j].rowid, t.fts[j].content)
  {
    match env.lexical(t.fts, query)
    case LexicalError => Err(OperationalError)
    case Ranked(positions) => Ok(Limit(RankedRows(t.fts, positions), k))
  }

  /** The rows of the join for chunk `cid`: one per embedding of it. */
  function EmbeddingsOf(cid: int, content: string, embs: seq<Embedding>): (r: seq<Joined>)
    ensures forall x :: x in r <==> exists e :: e in embs && e.chunkId == cid && x == Joined(cid, content, e.vector)
  {
    if embs == [] then []
    else
      (if embs[0].chunkId == cid then [Joined(cid, content, embs[0].vector)] else [])
      + EmbeddingsOf(cid, content, embs[1..])
  }

  /** The join over chunks `chunks`, whose first has id `base`. */
  function JoinRows(chunks: seq<Chunk>, base: int, embs: seq<Embedding>, ids: seq<int>): seq<Joined>
    decreases |chunks|
  {
    if chunks == [] then []
    else
      (if base in ids then EmbeddingsOf(base, chunks[0].content, embs) else [])
      + JoinRows(chunks[1..], base + 1, embs, ids)
  }

  /** `fetch_embeddings(con, ids)`: chunks in id order, each with every
      embedding of it. */
  function FetchEmbeddings(t: Tables, ids: seq<int>): seq<Joined>
  {
    JoinRows(t.chunks, 1, t.embeddings, ids)
  }

  /** Row `x` is chunk `base + i` with one of its embeddings, for a chunk
      that was asked for. */
  ghost predicate JoinedFrom(chunks: seq<Chunk>, base: int, embs: seq<Embedding>, ids: seq<int>, x: Joined)
  {
    exists i, e :: 0 <= i < |chunks| && base + i in ids && e in embs && e.chunkId == base + i
                   && x == Joined(base + i, chunks[i].content, e.vector)
  }

  /** A row comes back from `fetch_embeddings` exactly when its chunk
      exists, was asked for, and has that embedding. */
  lemma {:induction false} JoinRowsMembers(chunks: seq<Chunk>, base: int, embs: seq<Embedding>, ids: seq<int>, x: Joined)
    ensures x in JoinRows(chunks, base, embs, ids) <==> JoinedFrom(chunks, base, embs, ids, x)
    decreases |chunks|
  {
    if chunks != [] {
      JoinRowsMembers(chunks[1..], base + 1, embs, ids, x);
      var head := if base in ids then EmbeddingsOf(base, chunks[0].content, embs) else [];
      var tail := JoinRows(chunks[1..], base + 1, embs, ids);
      assert JoinRows(chunks, base, embs, ids) == head + tail;
      JoinedFromHead(chunks, base, embs, ids, x);
      JoinedFromTail(chunks, base, embs, ids, x);
    }
  }

  lemma JoinedFromHead(chunks: seq<Chunk>, base: int, embs: seq<Embedding>, ids: seq<int>, x: Joined)
    requires chunks != []
    ensures x in (if base in ids then EmbeddingsOf(base, chunks[0].content, embs) else []) ==>
      JoinedFrom(chunks, base, embs, ids, x)
  {
    if base in ids && x in EmbeddingsOf(base, chunks[0].content, embs) {
      var e :| e in embs && e.chunkId == base && x == Joined(base, chunks[0].content, e.vector);
      assert base + 0 in ids && x == Joined(base + 0, chunks[0].content, e.vector);
    }
  }

  lemma JoinedFromTail(chunks: seq<Chunk>, base: int, embs: seq<Embedding>, ids: seq<int>, x: Joined)
    requires chunks != []
    ensures JoinedFrom(chunks[1..], base + 1, embs, ids, x) ==> JoinedFrom(chunks, base, embs, ids, x)
    ensures JoinedFrom(chunks, base, embs, ids, x) ==>
      JoinedFrom(chunks[1..], base + 1, embs, ids, x)
      || (base in ids && x in EmbeddingsOf(base, chunks[0].content, embs))
  {
    if JoinedFrom(chunks[1..], base + 1, embs, ids, x) {
      var i, e :| 0 <= i < |chunks[1..]| && (base + 1) + i in ids && e in embs && e.chunkId == (base + 1) + i
                  && x == Joined((base + 1) + i, chunks[1..][i].content, e.vector);
      assert base + (i + 1) in ids && x == Joined(base + (i + 1), chunks[i + 1].content, e.vector);
    }
    if JoinedFrom(chunks, base, embs, ids, x) {
      var i, e :| 0 <= i < |chunks| && base + i in ids && e in embs && e.chunkId == base + i
                  && x == Joined(base + i, chunks[i].content, e.vector);
      if i > 0 {
        assert chunks[1..][i - 1] == chunks[i];
        assert (base + 1) + (i - 1) in ids && x == Joined((base + 1) + (i - 1), chunks[1..][i - 1].content, e.vector);
      }
    }
  }

  lemma FetchEmbeddingsMembers(t: Tables, ids: seq<int>, x: Joined)
    ensures x in FetchEmbeddings(t, ids) <==>
      exists i, e :: 0 <= i < |t.chunks| && 1 + i in ids && e in t.embeddings && e.chunkId == 1 + i
                     && x == Joined(1 + i, t.chunks[i].content, e.vector)
  {
    JoinRowsMembers(t.chunks, 1, t.embeddings, ids, x);
    assert JoinedFrom(t.chunks, 1, t.embeddings, ids, x) <==>
      exists i, e :: 0 <= i < |t.chunks| && 1 + i in ids && e in t.embeddings && e.chunkId == 1 + i
                     && x == Joined(1 + i, t.chunks[i].content, e.vector);
  }

  // ---------------------------------------------------------------------
  // Sorting by score, descending and stable
  // ---------------------------------------------------------------------

  predicate SortedDesc(s: seq<Scored>)
  {
    forall i, j :: 0 <= i < j < |s| ==> s[i].score >= s[j].score
  }

  /** Puts `x` before the first item scoring no more than it. */
  function InsertDesc(x: Scored, s: seq<Scored>): seq<Scored>
  {
    if s == [] || x.score >= s[0].score then [x] + s
    else [s[0]] + InsertDesc(x, s[1..])
  }

  /** `list.sort(key=score, reverse=True)`: descending by score, items of
      equal score keeping their order. */
  function SortDesc(s: seq<Scored>): seq<Scored>
  {
    if s == [] then [] else InsertDesc(s[0], SortDesc(s[1..]))
  }

  /** Inserting adds exactly `x`. */
  lemma {:induction false} InsertDescPerm(x: Scored, s: seq<Scored>)
    ensures multiset(InsertDesc(x, s)) == multiset{x} + multiset(s)
  {
    if s != [] && x.score < s[0].score {
      InsertDescPerm(x, s[1..]);
      assert s == [s[0]] + s[1..];
    }
  }

  /** An item scoring at least as much as every item of a sorted sequence
      can go in front of it. */
  lemma ConsSorted(a: Scored, r: seq<Scored>)
    requires SortedDesc(r)
    requires forall k :: 0 <= k < |r| ==> a.score >= r[k].score
    ensures SortedDesc([a] + r)
  {
    forall i, j | 0 <= i < j < |[a] + r| ensures ([a] + r)[i].score >= ([a] + r)[j].score {
      if i > 0 {
        assert ([a] + r)[i] == r[i - 1];
      }
      assert ([a] + r)[j] == r[j - 1];
    }
  }

  lemma {:induction false} InsertDescSorted(x: Scored, s: seq<Scored>)
    requires SortedDesc(s)
    ensures SortedDesc(InsertDesc(x, s))
  {
    if s != [] && x.score < s[0].score {
      InsertDescSorted(x, s[1..]);
      InsertDescPerm(x, s[1..]);
      var r := InsertDesc(x, s[1..]);
      forall k | 0 <= k < |r| ensures s[0].score >= r[k].score {
        assert r[k] in multiset(r);
        if r[k] != x {
          assert r[k] in multiset(s[1..]);
          var j :| 0 <= j < |s[1..]| && s[1..][j] == r[k];
          assert s[1 + j] == r[k];
        }
      }
      ConsSorted(s[0], r);
    } else {
      ConsSorted(x, s);
    }
  }

  lemma {:induction false} SortDescPerm(s: seq<Scored>)
    ensures multiset(SortDesc(s)) == multiset(s)
  {
    if s != [] {
      SortDescPerm(s[1..]);
      InsertDescPerm(s[0], SortDesc(s[1..]));
      assert s == [s[0]] + s[1..];
    }
  }

  lemma {:induction false} SortDescSorted(s: seq<Scored>)
    ensures SortedDesc(SortDesc(s))
  {
    if s != [] {
      SortDescSorted(s[1..]);
      InsertDescSorted(s[0], SortDesc(s[1..]));
    }
  }

  /** The sort orders by non-increasing score and is a permutation. */
  lemma SortDescProps(s: seq<Scored>)
    ensures SortedDesc(SortDesc(s))
    ensures multiset(SortDesc(s)) == multiset(s)
    ensures |SortDesc(s)| == |s|
  {
    SortDescSorted(s);
    SortDescPerm(s);
    assert |SortDesc(s)| == |multiset(SortDesc(s))|;
  }

  // ---------------------------------------------------------------------
  // Hybrid search
  // ---------------------------------------------------------------------

  /** Each joined row scored against the query vector. */
  function ScoreRows(env: SearchEnv, qvec: Vector, rows: seq<Joined>): (r: seq<Scored>)
    ensures |r| == |rows|
    ensures forall i :: 0 <= i < |r| ==>
      r[i] == Scored(rows[i].chunkId, rows[i].content, env.similarity(qvec, rows[i].vector))
  {
    if rows == [] then []
    else [Scored(rows[0].chunkId, rows[0].content, env.similarity(qvec, rows[0].vector))]
         + ScoreRows(env, qvec, rows[1..])
  }

  function CandidateIds(cands: seq<(int, string)>): (r: seq<int>)
    ensures |r| == |cands| && forall i :: 0 <= i < |r| ==> r[i] == cands[i].0
  {
    if cands == [] then [] else [cands[0].0] + CandidateIds(cands[1..])
  }

  /** `hybrid_search(con, query, embed_query, bm25_k, rerank_k)`. */
  function HybridSpec(t: Tables, env: SearchEnv, query: string, embedder: Embedder,
                      bm25K: int, rerankK: int): Result<seq<Scored>, Failure>
  {
    match TopK(t, env, query, bm25K)
    case Err(f) => Err(f)
    case Ok(cands) =>
      if cands == [] then Ok([])
      else
        var rows := FetchEmbeddings(t, CandidateIds(cands));
        match embedder
        case NotCallable => Err(OtherError(NotCallableMessage))
        case Callable(f) =>
          match f(query)
          case Err(m) => Err(OtherError(m))
          case Ok(qvec) => Ok(PySlice(SortDesc(ScoreRows(env, qvec, rows)), 0, rerankK))
  }

  /** `hybrid_search` as the source runs it: the lexical step, an early
      `[]` without touching the embedder, the scoring loop, the sort and
      the cut. `embedderCalled` says whether `embed_query` was invoked. */
  method HybridSearch(t: Tables, env: SearchEnv, query: string, embedder: Embedder,
                      bm25K: int, rerankK: int)
    returns (r: Result<seq<Scored>, Failure>, embedderCalled: bool)
    ensures r == HybridSpec(t, env, query, embedder, bm25K, rerankK)
    ensures embedderCalled <==> TopK(t, env, query, bm25K).Ok? && TopK(t, env, query, bm25K).value != []
  {
    var cands := TopK(t, env, query, bm25K);
    if cands.Err? {
      return Err(cands.error), false;
    }
    if cands.value == [] {
      return Ok([]), false;
    }
    var rows := FetchEmbeddings(t, CandidateIds(cands.value));
    embedderCalled := true;
    if embedder.NotCallable? {
      return Err(OtherError(NotCallableMessage)), true;
    }
    var qvec := embedder.embed(query);
    if qvec.Err? {
      return Err(OtherError(qvec.error)), true;
    }
    var scored := ScoreAll(env, qvec.value, rows);
    r := Ok(PySlice(SortDesc(scored), 0, rerankK));
  }

  /** The scoring loop of `hybrid_search`: one scored row per joined row,
      in order. */
  method ScoreAll(env: SearchEnv, qvec: Vector, rows: seq<Joined>) returns (scored: seq<Scored>)
    ensures scored == ScoreRows(env, qvec, rows)
  {
    scored := [];
    var i := 0;
    while i < |rows|
      invariant 0 <= i <= |rows|
      invariant scored == ScoreRows(env, qvec, rows[..i])
    {
      ScoreRowsSnoc(env, qvec, rows[..i], rows[i]);
      assert rows[..i + 1] == rows[..i] + [rows[i]];
      scored := scored + [Scored(rows[i].chunkId, rows[i].content, env.similarity(qvec, rows[i].vector))];
      i := i + 1;
    }
    assert rows[..|rows|] == rows;
  }

  lemma ScoreRowsSnoc(env: SearchEnv, qvec: Vector, rows: seq<Joined>, x: Joined)
    ensures ScoreRows(env, qvec, rows + [x]) ==
      ScoreRows(env, qvec, rows) + [Scored(x.chunkId, x.content, env.similarity(qvec, x.vector))]
  {
    var a := ScoreRows(env, qvec, rows + [x]);
    var b := ScoreRows(env, qvec, rows) + [Scored(x.chunkId, x.content, env.similarity(qvec, x.vector))];
    assert forall i :: 0 <= i < |a| ==> a[i] == b[i];
  }

  /** No lexical candidates: an empty result, whatever the embedder. */
  lemma HybridNoCandidates(t: Tables, env: SearchEnv, query: string, embedder: Embedder, bm25K: int, rerankK: int)
    requires TopK(t, env, query, bm25K) == Ok([])
    ensures HybridSpec(t, env, query, embedder, bm25K, rerankK) == Ok([])
  {
  }

  /** Every scored row is a requested chunk with one of its embeddings,
      scored by the similarity of that embedding to the query vector. */
  lemma ScoredOrigin(t: Tables, env: SearchEnv, qvec: Vector, ids: seq<int>, x: Scored)
    requires x in ScoreRows(env, qvec, FetchEmbeddings(t, ids))
    ensures x.chunkId in ids
    ensures exists e :: e in t.embeddings && e.chunkId == x.chunkId && x.score == env.similarity(qvec, e.vector)
  {
    var rows := FetchEmbeddings(t, ids);
    var scored := ScoreRows(env, qvec, rows);
    var k :| 0 <= k < |scored| && scored[k] == x;
    var row := rows[k];
    FetchEmbeddingsMembers(t, ids, row);
    var i, e :| 0 <= i < |t.chunks| && 1 + i in ids && e in t.embeddings && e.chunkId == 1 + i
                && row == Joined(1 + i, t.chunks[i].content, e.vector);
  }

  /** A candidate id is the id of some candidate. */
  lemma CandidateIdOrigin(cands: seq<(int, string)>, id: int)
    requires id in CandidateIds(cands)
    ensures exists c :: c in cands && c.0 == id
  {
    var ids := CandidateIds(cands);
    var m :| 0 <= m < |ids| && ids[m] == id;
    assert cands[m] in cands;
  }

  /** A result holds at most `rerank_k` items, by non-increasing score;
      each is a lexical candidate that has an embedding, scored by the
      similarity of that embedding to the query's. */
  lemma HybridResults(t: Tables, env: SearchEnv, query: string, f: string -> Result<Vector, string>,
                      bm25K: int, rerankK: int)
    requires HybridSpec(t, env, query, Callable(f), bm25K, rerankK).Ok?
    ensures var rs := HybridSpec(t, env, query, Callable(f), bm25K, rerankK).value;
      && (rerankK >= 0 ==> |rs| <= rerankK)
      && SortedDesc(rs)
      && forall x :: x in rs ==>
           && TopK(t, env, query, bm25K).Ok?
           && f(query).Ok?
           && (exists c :: c in TopK(t, env, query, bm25K).value && c.0 == x.chunkId)
           && exists e :: e in t.embeddings && e.chunkId == x.chunkId
                          && x.score == env.similarity(f(query).value, e.vector)
  {
    var cands := TopK(t, env, query, bm25K).value;
    if cands != [] {
      var qvec := f(query).value;
      var ids := CandidateIds(cands);
      var scored := ScoreRows(env, qvec, FetchEmbeddings(t, ids));
      var sorted := SortDesc(scored);
      var rs := PySlice(sorted, 0, rerankK);
      assert HybridSpec(t, env, query, Callable(f), bm25K, rerankK).value == rs;
      SortDescProps(scored);
      PySliceItems(sorted, 0, rerankK);
      forall x | x in rs
        ensures (exists c :: c in cands && c.0 == x.chunkId)
        ensures exists e :: e in t.embeddings && e.chunkId == x.chunkId && x.score == env.similarity(qvec, e.vector)
      {
        assert x in multiset(scored);
        ScoredOrigin(t, env, qvec, ids, x);
        CandidateIdOrigin(cands, x.chunkId);
      }
    }
  }

  // ---------------------------------------------------------------------
  // Writing
  // ---------------------------------------------------------------------

  /** An open connection to one case's database. */
  class Store {
    var documents: seq<Document>
    var chunks: seq<Chunk>
    var embeddings: seq<Embedding>
    var fts: seq<FtsRow>

    function Contents(): Tables
      reads this
    {
      Tables(documents, chunks, embeddings, fts)
    }

    predicate Valid()
      reads this
    {
      FtsMirrorsChunks(Contents())
    }

    /** `ensure_schema` on a new file: four empty tables. */
    constructor ()
      ensures Valid()
      ensures Contents() == Tables([], [], [], [])
    {
      documents, chunks, embeddings, fts := [], [], [], [];
    }

    /** `insert_document`: metadata defaults to `{}`; the new id is returned. */
    method InsertDocument(path: string, meta: Option<map<string, Json>>) returns (id: int)
      modifies this
      ensures id == |old(documents)| + 1
      ensures documents == old(documents) + [Document(path, if meta.Some? then meta.value else map[])]
      ensures chunks == old(chunks) && embeddings == old(embeddings) && fts == old(fts)
    {
      documents := documents + [Document(path, if meta.Some? then meta.value else map[])];
      id := |documents|;
    }

    /** `insert_chunk`: the chunk row and its FTS row, both under the new id. */
    method InsertChunk(documentId: int, content: string, position: int) returns (id: int)
      requires Valid()
      modifies this
      ensures Valid()
      ensures id == |old(chunks)| + 1
      ensures chunks == old(chunks) + [Chunk(documentId, content, position)]
      ensures fts == old(fts) + [FtsRow(id, content, id)]
      ensures documents == old(documents) && embeddings == old(embeddings)
    {
      chunks := chunks + [Chunk(documentId, content, position)];
      id := |chunks|;
      fts := fts + [FtsRow(id, content, id)];
    }

    /** `insert_embedding`. */
    method InsertEmbedding(chunkId: int, vector: Vector)
      modifies this
      ensures embeddings == old(embeddings) + [Embedding(chunkId, vector)]
      ensures documents == old(documents) && chunks == old(chunks) && fts == old(fts)
    {
      embeddings := embeddings + [Embedding(chunkId, vector)];
    }

    /** Leaving `with sqlite3.connect(...)` through an exception rolls the
        connection back to the state it committed last. */
    method Rollback(saved: Tables)
      requires FtsMirrorsChunks(saved)
      modifies this
      ensures Valid()
      ensures Contents() == saved
    {
      documents, chunks, embeddings, fts := saved.documents, saved.chunks, saved.embeddings, saved.fts;
    }
  }
}
