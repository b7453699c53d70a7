/** Ingestion of a case's PDFs into its search store, as in
    civil/lib/ingest_demand.py, and the same chunking and page extraction
    in mcp_app/lib/ingest_demand.py: the text of every PDF is cut into
    overlapping character windows, each non-blank window becomes a chunk
    with one embedding, and the case's status goes from `processing` to
    `ready`, or to `error` when anything fails. The PDF reader, the
    embedder, the file listing and the clock are parameters. */
module Ingest {
  import opened Common
  import opened SqliteDb

  // ---------------------------------------------------------------------
  // chunk_text
  // ---------------------------------------------------------------------

  /** How far each window advances: `max(1, chunk_size - overlap)`. */
  function StepOf(size: int, overlap: int): (r: nat)
    ensures r >= 1 && r >= size - overlap
    ensures size - overlap >= 1 ==> r == size - overlap
  {
    if size - overlap > 1 then size - overlap else 1
  }

  /** Where the windows start: `start, start + step, ...` while below `n`. */
  function StartsFrom(n: nat, start: nat, step: nat): seq<nat>
    requires step >= 1
    decreases n - start
  {
    if start >= n then [] else [start] + StartsFrom(n, start + step, step)
  }

  /** The windows `text[i:i + size]` at the given starts. */
  function Windows(text: string, starts: seq<nat>, size: int): (r: seq<string>)
    ensures |r| == |starts|
  {
    if starts == [] then []
    else [PySlice(text, starts[0], starts[0] + size)] + Windows(text, starts[1..], size)
  }

  lemma {:induction false} WindowsAt(text: string, starts: seq<nat>, size: int, k: nat)
    requires k < |starts|
    ensures Windows(text, starts, size)[k] == PySlice(text, starts[k], starts[k] + size)
  {
    if k > 0 {
      WindowsAt(text, starts[1..], size, k - 1);
      assert starts[1..][k - 1] == starts[k];
    }
  }

  /** What `chunk_text(text, chunk_size, overlap)` returns. */
  function ChunkSpec(text: string, size: int, overlap: int): seq<string>
  {
    KeepStripped(Windows(text, StartsFrom(|text|, 0, StepOf(size, overlap)), size))
  }

  /** `chunk_text`: the window loop, then the strip-and-drop-blank pass.
      civil/lib/ingest_demand.py and mcp_app/lib/ingest_demand.py carry
      the same code; this one method stands for both. */
  method ChunkText(text: string, size: int, overlap: int) returns (r: seq<string>)
    ensures r == ChunkSpec(text, size, overlap)
  {
    var step := StepOf(size, overlap);
    ghost var all := Windows(text, StartsFrom(|text|, 0, step), size);
    var out: seq<string> := [];
    var i: nat := 0;
    while i < |text|
      invariant out + Windows(text, StartsFrom(|text|, i, step), size) == all
      decreases |text| - i
    {
      var w := PySlice(text, i, i + size);
      WindowsStep(text, i, step, size, out, all);
      out := out + [w];
      i := i + step;
    }
    assert out + [] == out;
    r := KeepStripped(out);
  }

  /** One turn of the window loop: the window at `i` moves from the
      windows still to take to those taken. */
  lemma WindowsStep(text: string, i: nat, step: nat, size: int, out: seq<string>, all: seq<string>)
    requires step >= 1 && i < |text|
    requires out + Windows(text, StartsFrom(|text|, i, step), size) == all
    ensures (out + [PySlice(text, i, i + size)]) + Windows(text, StartsFrom(|text|, i + step, step), size) == all
  {
    var rest := StartsFrom(|text|, i, step);
    assert rest == [i] + StartsFrom(|text|, i + step, step);
    assert rest[1..] == StartsFrom(|text|, i + step, step);
    assert Windows(text, rest, size) == [PySlice(text, i, i + size)] + Windows(text, rest[1..], size);
  }

  /** Where window `k` starts, relative to the first: `k` steps on. */
  function Advance(k: nat, step: nat): nat
  {
    if k == 0 then 0 else Advance(k - 1, step) + step
  }

  lemma {:induction false} AdvanceMonotone(a: nat, b: nat, step: nat)
    requires a <= b
    ensures Advance(a, step) <= Advance(b, step)
    decreases b
  {
    if a < b {
      AdvanceMonotone(a, b - 1, step);
    }
  }

  /** Every position lies in the step-long stretch of some window start. */
  lemma {:induction false} StretchOf(p: nat, step: nat) returns (k: nat)
    requires step >= 1
    ensures Advance(k, step) <= p < Advance(k, step) + step
    decreases p
  {
    if p < step {
      k := 0;
    } else {
      var k' := StretchOf(p - step, step);
      k := k' + 1;
    }
  }

  /** Window `k` starts `k` steps on; windows are taken exactly while their
      start is inside the text. */
  lemma {:induction false} StartsShape(n: nat, start: nat, step: nat)
    requires step >= 1
    ensures var w := StartsFrom(n, start, step);
      && (forall k :: 0 <= k < |w| ==> w[k] == start + Advance(k, step) < n)
      && start + Advance(|w|, step) >= n
    decreases n - start
  {
    var w := StartsFrom(n, start, step);
    if start < n {
      var rest := StartsFrom(n, start + step, step);
      StartsShape(n, start + step, step);
      forall k | 1 <= k < |w|
        ensures w[k] == start + Advance(k, step) < n
      {
        assert w[k] == rest[k - 1];
      }
      assert |w| == |rest| + 1;
    }
  }

  /** Every chunk is non-empty, already stripped, and (for a non-negative
      size) no longer than `chunk_size`. */
  lemma ChunkShape(text: string, size: int, overlap: int, c: string)
    requires c in ChunkSpec(text, size, overlap)
    ensures c != ""
    ensures Strip(c) == c
    ensures size >= 0 ==> |c| <= size
  {
    KeepStrippedItems(Windows(text, StartsFrom(|text|, 0, StepOf(size, overlap)), size));
    if size < 0 {
      var w :| w in Windows(text, StartsFrom(|text|, 0, StepOf(size, overlap)), size) && c == Strip(w);
      StripByIdempotent(w, IsSpace);
      return;
    }
    var starts := StartsFrom(|text|, 0, StepOf(size, overlap));
    var ws := Windows(text, starts, size);
    WindowsBounded(text, starts, size);
    var w :| w in ws && c == Strip(w);
    StripByIdempotent(w, IsSpace);
  }

  lemma {:induction false} WindowsBounded(text: string, starts: seq<nat>, size: int)
    requires size >= 0
    ensures forall w :: w in Windows(text, starts, size) ==> |w| <= size
  {
    if starts != [] {
      WindowsBounded(text, starts[1..], size);
    }
  }

  /** Blank text (empty or whitespace only) gives no chunks. */
  lemma BlankTextHasNoChunks(text: string, size: int, overlap: int)
    requires forall i :: 0 <= i < |text| ==> IsSpace(text[i])
    ensures ChunkSpec(text, size, overlap) == []
  {
    var starts := StartsFrom(|text|, 0, StepOf(size, overlap));
    BlankWindows(text, starts, size);
    BlankWindowsDropped(Windows(text, starts, size));
  }

  /** Every window of blank text is blank. */
  lemma {:induction false} BlankWindows(text: string, starts: seq<nat>, size: int)
    requires forall i :: 0 <= i < |text| ==> IsSpace(text[i])
    ensures forall w :: w in Windows(text, starts, size) ==> Blank(w)
  {
    if starts != [] {
      PySliceItems(text, starts[0], starts[0] + size);
      BlankWindows(text, starts[1..], size);
    }
  }

  /** Empty or whitespace only. */
  ghost predicate Blank(s: string)
  {
    forall i :: 0 <= i < |s| ==> IsSpace(s[i])
  }

  lemma {:induction false} BlankWindowsDropped(ws: seq<string>)
    requires forall w :: w in ws ==> Blank(w)
    ensures KeepStripped(ws) == []
  {
    if ws != [] {
      assert ws[0] in ws;
      BlankStripsToEmpty(ws[0]);
      BlankWindowsDropped(ws[1..]);
    }
  }

  /** With a non-negative overlap and a positive size the windows start
      `k * step` in, and every character of the text lies in some window,
      at its own offset. */
  lemma WindowsCover(text: string, size: int, overlap: int, p: nat)
    requires size >= 1 && overlap >= 0 && p < |text|
    ensures var step := StepOf(size, overlap);
      var starts := StartsFrom(|text|, 0, step);
      var ws := Windows(text, starts, size);
      exists k :: 0 <= k < |ws| && starts[k] == Advance(k, step) <= p && p - starts[k] < |ws[k]|
                  && ws[k][p - starts[k]] == text[p]
  {
    var step := StepOf(size, overlap);
    var starts := StartsFrom(|text|, 0, step);
    var ws := Windows(text, starts, size);
    var k := WindowOf(|text|, step, p);
    var a := Advance(k, step);
    WindowsAt(text, starts, size, k);
    SliceCovers(text, a, size, p);
    assert p - a < step <= size;
    assert 0 <= k < |ws| && starts[k] == a <= p && p - starts[k] < |ws[k]| && ws[k][p - starts[k]] == text[p];
  }

  /** The window whose step-long stretch holds position `p`. */
  lemma WindowOf(n: nat, step: nat, p: nat) returns (k: nat)
    requires step >= 1 && p < n
    ensures k < |StartsFrom(n, 0, step)| && StartsFrom(n, 0, step)[k] == Advance(k, step)
    ensures Advance(k, step) <= p < Advance(k, step) + step
  {
    StartsShape(n, 0, step);
    k := StretchOf(p, step);
    if k >= |StartsFrom(n, 0, step)| {
      AdvanceMonotone(|StartsFrom(n, 0, step)|, k, step);
      assert false;
    }
  }

  lemma SliceCovers(text: string, a: nat, size: int, p: nat)
    requires a <= p < |text| && p - a < size
    ensures var w := PySlice(text, a, a + size); p - a < |w| && w[p - a] == text[p]
  {
    PySliceItems(text, a, a + size);
  }

  // ---------------------------------------------------------------------
  // extract_pdf_text
  // ---------------------------------------------------------------------

  /** One page as the PDF library gives it: extraction raises, or returns
      a text or None. */
  datatype Page = PageRaises | PageText(text: Option<string>)

  /** `PdfReader(path)`: the file could not be opened, or its pages. */
  datatype Reader = Unreadable | Pages(pages: seq<Page>)

  /** Why an ingestion stopped. */
  datatype IngestFailure =
    | ReaderFailed          // PdfReader raised
    | RangeStepZero         // range(0, n, 0) raises ValueError
    | EmbedFailed(message: string)

  /** `p.extract_text() or ""`, and "" when extraction raises. */
  function PageContent(p: Page): string
  {
    if p.PageText? && p.text.Some? then p.text.value else ""
  }

  function PageContents(pages: seq<Page>): (r: seq<string>)
    ensures |r| == |pages| && forall i :: 0 <= i < |r| ==> r[i] == PageContent(pages[i])
  {
    if pages == [] then [] else [PageContent(pages[0])] + PageContents(pages[1..])
  }

  /** What `extract_pdf_text(path)` returns. */
  function ExtractSpec(reader: Reader): Result<string, IngestFailure>
  {
    if reader.Unreadable? then Err(ReaderFailed) else Ok(Join(PageContents(reader.pages), "\n\n"))
  }

  /** `extract_pdf_text`: the page loop, then the join. */
  method ExtractPdfText(reader: Reader) returns (r: Result<string, IngestFailure>)
    ensures r == ExtractSpec(reader)
  {
    if reader.Unreadable? {
      return Err(ReaderFailed);
    }
    var pages: seq<string> := [];
    var i := 0;
    while i < |reader.pages|
      invariant 0 <= i <= |reader.pages|
      invariant |pages| == i && forall j :: 0 <= j < i ==> pages[j] == PageContent(reader.pages[j])
    {
      var p := reader.pages[i];
      if p.PageRaises? {
        pages := pages + [""];
      } else {
        pages := pages + [if p.text.Some? then p.text.value else ""];
      }
      i := i + 1;
    }
    assert pages == PageContents(reader.pages);
    r := Ok(Join(pages, "\n\n"));
  }

  /** A joint of blank parts with a blank separator is blank. */
  lemma {:induction false} JoinBlank(parts: seq<string>, sep: string)
    requires forall i, k :: 0 <= i < |parts| && 0 <= k < |parts[i]| ==> IsSpace(parts[i][k])
    requires forall k :: 0 <= k < |sep| ==> IsSpace(sep[k])
    ensures forall k :: 0 <= k < |Join(parts, sep)| ==> IsSpace(Join(parts, sep)[k])
  {
    if |parts| > 1 {
      JoinBlank(parts[1..], sep);
      var rest := Join(parts[1..], sep);
      var j := parts[0] + sep + rest;
      forall k | 0 <= k < |j| ensures IsSpace(j[k]) {
        if k < |parts[0]| {
          assert j[k] == parts[0][k];
        } else if k < |parts[0]| + |sep| {
          assert j[k] == sep[k - |parts[0]|];
        } else {
          assert j[k] == rest[k - |parts[0]| - |sep|];
        }
      }
    }
  }

  /** A PDF none of whose pages yields text gives no chunks. */
  lemma TextlessPdfHasNoChunks(pages: seq<Page>, size: int, overlap: int)
    requires forall i :: 0 <= i < |pages| ==> PageContent(pages[i]) == ""
    ensures ExtractSpec(Pages(pages)).Ok?
    ensures ChunkSpec(ExtractSpec(Pages(pages)).value, size, overlap) == []
  {
    var parts := PageContents(pages);
    JoinBlank(parts, "\n\n");
    BlankTextHasNoChunks(Join(parts, "\n\n"), size, overlap);
  }

  // ---------------------------------------------------------------------
  // resolve_or_create_demand
  // ---------------------------------------------------------------------

  /** The values of `Causa.status`. */
  datatype Status = Pending | Processing | Ready | Error

  /** The columns of a case that ingestion reads or writes. */
  datatype Case = Case(titulo: string, pdfDir: string, sqlitePath: string, status: Status, createdBy: Option<int>)

  /** A title that is given and truthy. */
  predicate TitleGiven(title: Option<string>)
  {
    title.Some? && title.value != ""
  }

  /** `.filter(...).order_by("-created_at").first()`: the newest case (the
      highest id) satisfying `p`. */
  function NewestWhere(cases: seq<Case>, p: Case -> bool): (r: Option<nat>)
    ensures r.Some? ==> r.value < |cases| && p(cases[r.value])
    ensures r.Some? ==> forall j :: r.value < j < |cases| ==> !p(cases[j])
    ensures r.None? ==> forall j :: 0 <= j < |cases| ==> !p(cases[j])
  {
    if cases == [] then None
    else if p(cases[|cases| - 1]) then Some(|cases| - 1)
    else NewestWhere(cases[..|cases| - 1], p)
  }

  /** The creator recorded on a new case: the given user id when it is
      truthy and names an existing user. */
  function Creator(createdBy: Option<int>, users: set<int>): (r: Option<int>)
    ensures r.Some? <==> createdBy.Some? && createdBy.value != 0 && createdBy.value in users
    ensures r.Some? ==> r == createdBy
  {
    if createdBy.Some? && createdBy.value != 0 && createdBy.value in users then createdBy else None
  }

  /** What `resolve_or_create_demand` raises as written. `Causa` has a
      `titulo` field and no `title` field, so `filter(title=…)` raises
      FieldError and `Causa.objects.create(title=…)` raises TypeError. */
  datatype ResolveError = TitleFieldError | TitleKeywordError

  /** `resolve_or_create_demand` as written: only a found id and, without
      an id or a title, a case with the same PDF directory come back;
      every creation and every lookup by title raises. The
      `create_if_missing` flag only changes what is logged. */
  function ResolveAsWritten(cases: seq<Case>, demandId: Option<int>, title: Option<string>,
                            pdfDir: string): (r: Result<nat, ResolveError>)
    ensures r.Ok? ==> r.value < |cases|
    ensures r.Ok? <==>
      || (demandId.Some? && 1 <= demandId.value <= |cases|)
      || (demandId.None? && !TitleGiven(title) && exists j :: 0 <= j < |cases| && cases[j].pdfDir == pdfDir)
    ensures r == Err(TitleFieldError) <==> demandId.None? && TitleGiven(title)
    ensures r.Ok? && demandId.Some? ==> r.value == demandId.value - 1
    ensures r.Ok? && demandId.None? ==>
      && cases[r.value].pdfDir == pdfDir
      && forall j :: r.value < j < |cases| ==> cases[j].pdfDir != pdfDir
  {
    if demandId.Some? then
      if 1 <= demandId.value <= |cases| then Ok(demandId.value - 1) else Err(TitleKeywordError)
    else if TitleGiven(title) then Err(TitleFieldError)
    else
      match NewestWhere(cases, (c: Case) => c.pdfDir == pdfDir)
      case Some(i) => Ok(i)
      case None => Err(TitleKeywordError)
  }

  /** The case `resolve_or_create_demand` returns: an existing one (by
      index), or a new one to append. */
  datatype Resolution = Existing(index: nat) | Created(row: Case)

  /** `resolve_or_create_demand` as evidently intended, with the lookup and
      the creation using the model's `titulo` field. */
  function ResolveSpec(cases: seq<Case>, demandId: Option<int>, title: Option<string>,
                       pdfDir: string, dirName: string, creator: Option<int>): Resolution
  {
    if demandId.Some? then
      if 1 <= demandId.value <= |cases| then Existing(demandId.value - 1)
      else Created(Case(if TitleGiven(title) then title.value else dirName, pdfDir, "", Pending, creator))
    else
      var byTitle := if TitleGiven(title) then NewestWhere(cases, (c: Case) => c.titulo == title.value) else None;
      if byTitle.Some? then Existing(byTitle.value)
      else
        var byDir := NewestWhere(cases, (c: Case) => c.pdfDir == pdfDir);
        if byDir.Some? then Existing(byDir.value)
        else Created(Case(if TitleGiven(title) then title.value else dirName, pdfDir, "", Pending, creator))
  }

  /** The intended resolution order: an existing id wins; without an id,
      the newest case with the given title, else the newest with the same
      PDF directory; otherwise a new pending case with no store path,
      titled with the title or else the directory's name. */
  lemma ResolveOrder(cases: seq<Case>, demandId: Option<int>, title: Option<string>,
                     pdfDir: string, dirName: string, creator: Option<int>)
    ensures var r := ResolveSpec(cases, demandId, title, pdfDir, dirName, creator);
      && (r.Existing? ==> r.index < |cases|)
      && (demandId.Some? ==> (r.Existing? <==> 1 <= demandId.value <= |cases|))
      && (demandId.Some? && r.Existing? ==> r.index == demandId.value - 1)
      && (demandId.None? && TitleGiven(title) && (exists j :: 0 <= j < |cases| && cases[j].titulo == title.value) ==>
            && r.Existing? && cases[r.index].titulo == title.value
            && forall j :: r.index < j < |cases| ==> cases[j].titulo != title.value)
      && (demandId.None? && !(TitleGiven(title) && exists j :: 0 <= j < |cases| && cases[j].titulo == title.value) ==>
            && (r.Existing? <==> exists j :: 0 <= j < |cases| && cases[j].pdfDir == pdfDir)
            && (r.Existing? ==> cases[r.index].pdfDir == pdfDir
                                && forall j :: r.index < j < |cases| ==> cases[j].pdfDir != pdfDir))
      && (r.Created? ==> r.row == Case(if TitleGiven(title) then title.value else dirName, pdfDir, "", Pending, creator))
  {
    if demandId.None? {
      if TitleGiven(title) {
        var byTitle := NewestWhere(cases, (c: Case) => c.titulo == title.value);
        if byTitle.None? {
          assert forall j :: 0 <= j < |cases| ==> cases[j].titulo != title.value;
        }
      }
      var byDir := NewestWhere(cases, (c: Case) => c.pdfDir == pdfDir);
      if byDir.None? {
        assert forall j :: 0 <= j < |cases| ==> cases[j].pdfDir != pdfDir;
      }
    }
  }

  /** The code as written agrees with the intended resolution wherever it
      returns, and raises wherever the intended one would create a case or
      look a case up by its title. */
  lemma ResolveAsWrittenRaises(cases: seq<Case>, demandId: Option<int>, title: Option<string>,
                               pdfDir: string, dirName: string, creator: Option<int>)
    ensures var w := ResolveAsWritten(cases, demandId, title, pdfDir);
      var r := ResolveSpec(cases, demandId, title, pdfDir, dirName, creator);
      && (w.Ok? ==> r == Existing(w.value))
      && (r.Created? ==> w.Err?)
      && (demandId.None? && TitleGiven(title) ==> w == Err(TitleFieldError))
  {
    ResolveOrder(cases, demandId, title, pdfDir, dirName, creator);
  }

  /** A case titled "Demanda" exists, and asking for it by title raises
      instead of finding it. */
  lemma TitleLookupRaisesExample()
    ensures var cases := [Case("Demanda", "pdfs/1", "", Ready, None)];
      && ResolveAsWritten(cases, None, Some("Demanda"), "pdfs/1") == Err(TitleFieldError)
      && ResolveSpec(cases, None, Some("Demanda"), "pdfs/1", "1", None) == Existing(0)
  {
    var cases := [Case("Demanda", "pdfs/1", "", Ready, None)];
    assert NewestWhere(cases, (c: Case) => c.titulo == "Demanda") == Some(0);
  }

  /** The cases of the application, as far as ingestion touches them.
      `statusLog` records every status save, in order, with the case id. */
  class CaseTable {
    var cases: seq<Case>
    var statusLog: seq<(nat, Status)>
    const users: set<int>

    constructor (initial: seq<Case>, userIds: set<int>)
      ensures cases == initial && statusLog == [] && users == userIds
    {
      cases := initial;
      statusLog := [];
      users := userIds;
    }

    /** `resolve_or_create_demand` as written; the id of the case it
        settles on, or what it raises. It never changes the table, since
        every `create` call raises. */
    method Resolve(demandId: Option<int>, title: Option<string>, pdfDir: string, dirName: string,
                   createIfMissing: bool, createdBy: Option<int>) returns (r: Result<nat, ResolveError>)
      ensures var w := ResolveAsWritten(cases, demandId, title, pdfDir);
        && (w.Ok? ==> r == Ok(w.value + 1))
        && (w.Err? ==> r == Err(w.error))
    {
      if demandId.Some? {
        if 1 <= demandId.value <= |cases| {
          return Ok(demandId.value);
        }
        return Err(TitleKeywordError);
      }
      if TitleGiven(title) {
        return Err(TitleFieldError);
      }
      var d := NewestWhere(cases, (c: Case) => c.pdfDir == pdfDir);
      if d.Some? {
        return Ok(d.value + 1);
      }
      r := Err(TitleKeywordError);
    }

    /** The first save of `ingest_demand`: status `processing` with the
        store path and the PDF directory both rewritten. */
    method StartProcessing(id: nat, sqlitePath: string, pdfDir: string)
      requires 1 <= id <= |cases|
      modifies this
      ensures cases == old(cases)[id - 1 := old(cases)[id - 1].(status := Processing, sqlitePath := sqlitePath, pdfDir := pdfDir)]
      ensures statusLog == old(statusLog) + [(id, Processing)]
    {
      cases := cases[id - 1 := cases[id - 1].(status := Processing, sqlitePath := sqlitePath, pdfDir := pdfDir)];
      statusLog := statusLog + [(id, Processing)];
    }

    /** `demand.status = s; demand.save(update_fields=["status"])`. */
    method SaveStatus(id: nat, s: Status)
      requires 1 <= id <= |cases|
      modifies this
      ensures cases == old(cases)[id - 1 := old(cases)[id - 1].(status := s)]
      ensures statusLog == old(statusLog) + [(id, s)]
    {
      cases := cases[id - 1 := cases[id - 1].(status := s)];
      statusLog := statusLog + [(id, s)];
    }
  }

  // ---------------------------------------------------------------------
  // ingest_demand
  // ---------------------------------------------------------------------

  /** A PDF found under the directory: its path, its size in bytes and
      what the reader makes of it. */
  datatype PdfFile = PdfFile(path: string, size: int, reader: Reader)

  /** `embed_texts`: one vector per text, or a failure. */
  type EmbedTexts = seq<string> -> Result<seq<Vector>, string>

  /** `insert_chunk` then `insert_embedding` for one chunk. */
  function AddChunk(t: Tables, docId: int, content: string, position: int, vec: Vector): Tables
  {
    var id := |t.chunks| + 1;
    t.(chunks := t.chunks + [Chunk(docId, content, position)],
       fts := t.fts + [FtsRow(id, content, id)],
       embeddings := t.embeddings + [Embedding(id, vec)])
  }

  /** The pairs of `zip(batch_texts, vecs)`, the shorter list deciding. */
  function AddPairs(t: Tables, docId: int, texts: seq<string>, vecs: seq<Vector>, position: int): Tables
    decreases |texts|
  {
    if texts == [] || vecs == [] then t
    else AddPairs(AddChunk(t, docId, texts[0], position, vecs[0]), docId, texts[1..], vecs[1..], position + 1)
  }

  /** `chunks[i:i + batch]` for `0 <= i < len(chunks)` and `batch >= 1`. */
  function BatchAt(chunks: seq<string>, i: nat, batch: nat): (r: seq<string>)
    requires i < |chunks| && batch >= 1
    ensures 1 <= |r| <= batch && i + |r| <= |chunks| && r == chunks[i..i + |r|]
    ensures i + |r| == |chunks| || |r| == batch
  {
    chunks[i..if i + batch < |chunks| then i + batch else |chunks|]
  }

  /** The batch loop `for i in range(start, len(chunks), batch)`. */
  function EmbedBatches(t: Tables, docId: int, chunks: seq<string>, start: nat, batch: nat,
                        embed: EmbedTexts): Result<Tables, IngestFailure>
    requires batch >= 1
    decreases |chunks| - start
  {
    if start >= |chunks| then Ok(t)
    else
      var texts := BatchAt(chunks, start, batch);
      match embed(texts)
      case Err(m) => Err(EmbedFailed(m))
      case Ok(vecs) => EmbedBatches(AddPairs(t, docId, texts, vecs, start), docId, chunks, start + batch, batch, embed)
  }

  /** One PDF: extract, chunk, and when there are chunks insert the
      document and its chunks batch by batch. `range` with a zero step
      raises; with a negative one it is empty. */
  function IngestFile(t: Tables, f: PdfFile, size: int, overlap: int, batch: int, embed: EmbedTexts)
    : Result<Tables, IngestFailure>
  {
    match ExtractSpec(f.reader)
    case Err(e) => Err(e)
    case Ok(text) =>
      var chunks := ChunkSpec(text, size, overlap);
      if chunks == [] then Ok(t)
      else
        var t1 := t.(documents := t.documents + [Document(f.path, map["size" := JInt(f.size)])]);
        if batch == 0 then Err(RangeStepZero)
        else if batch < 0 then Ok(t1)
        else EmbedBatches(t1, |t1.documents|, chunks, 0, batch, embed)
  }

  /** The file loop, in the sorted order the files are given in. */
  function IngestFiles(t: Tables, files: seq<PdfFile>, size: int, overlap: int, batch: int, embed: EmbedTexts)
    : Result<Tables, IngestFailure>
    decreases |files|
  {
    if files == [] then Ok(t)
    else
      match IngestFile(t, files[0], size, overlap, batch, embed)
      case Err(e) => Err(e)
      case Ok(t1) => IngestFiles(t1, files[1..], size, overlap, batch, embed)
  }

  /** The file name of the store of case `id`: `demand_<id>.db`. */
  function StoreName(id: nat): string
  {
    "demand_" + NatToString(id) + ".db"
  }

  /** The inner loop: one chunk and its embedding per pair. */
  method InsertPairs(store: Store, docId: int, texts: seq<string>, vecs: seq<Vector>, position: int)
    requires store.Valid()
    modifies store
    ensures store.Valid()
    ensures store.Contents() == AddPairs(old(store.Contents()), docId, texts, vecs, position)
  {
    var j := 0;
    while j < |texts| && j < |vecs|
      invariant 0 <= j <= |texts| && j <= |vecs|
      invariant store.Valid()
      invariant AddPairs(store.Contents(), docId, texts[j..], vecs[j..], position + j)
             == AddPairs(old(store.Contents()), docId, texts, vecs, position)
    {
      ghost var before := store.Contents();
      assert texts[j..][1..] == texts[j + 1..] && vecs[j..][1..] == vecs[j + 1..];
      var cid := store.InsertChunk(docId, texts[j], position + j);
      store.InsertEmbedding(cid, vecs[j]);
      assert store.Contents() == AddChunk(before, docId, texts[j], position + j, vecs[j]);
      j := j + 1;
    }
  }

  /** The batch loop of one document. */
  method InsertBatches(store: Store, docId: int, chunks: seq<string>, batch: nat, embed: EmbedTexts)
    returns (r: Result<(), IngestFailure>)
    requires batch >= 1
    requires store.Valid()
    modifies store
    ensures store.Valid()
    ensures var spec := EmbedBatches(old(store.Contents()), docId, chunks, 0, batch, embed);
      && (r.Ok? <==> spec.Ok?)
      && (r.Ok? ==> store.Contents() == spec.value)
      && (r.Err? ==> r.error == spec.error)
  {
    var i: nat := 0;
    while i < |chunks|
      invariant store.Valid()
      invariant EmbedBatches(store.Contents(), docId, chunks, i, batch, embed)
             == EmbedBatches(old(store.Contents()), docId, chunks, 0, batch, embed)
      decreases |chunks| - i
    {
      var texts := BatchAt(chunks, i, batch);
      var vecs := embed(texts);
      if vecs.Err? {
        return Err(EmbedFailed(vecs.error));
      }
      InsertPairs(store, docId, texts, vecs.value, i);
      i := i + batch;
    }
    r := Ok(());
  }

  /** The body of the file loop for one PDF. */
  method IngestOne(store: Store, f: PdfFile, size: int, overlap: int, batch: int, embed: EmbedTexts)
    returns (r: Result<(), IngestFailure>)
    requires store.Valid()
    modifies store
    ensures store.Valid()
    ensures var spec := IngestFile(old(store.Contents()), f, size, overlap, batch, embed);
      && (r.Ok? <==> spec.Ok?)
      && (r.Ok? ==> store.Contents() == spec.value)
      && (r.Err? ==> r.error == spec.error)
  {
    var text := ExtractPdfText(f.reader);
    if text.Err? {
      return Err(text.error);
    }
    var chunks := ChunkText(text.value, size, overlap);
    if chunks == [] {
      return Ok(());
    }
    ghost var t := old(store.Contents());
    var docId := store.InsertDocument(f.path, Some(map["size" := JInt(f.size)]));
    assert store.Contents() == t.(documents := t.documents + [Document(f.path, map["size" := JInt(f.size)])]);
    assert store.Valid();
    if batch == 0 {
      return Err(RangeStepZero);
    }
    if batch > 0 {
      r := InsertBatches(store, docId, chunks, batch, embed);
    } else {
      r := Ok(());
    }
  }

  /** The file loop; it stops at the first failure. */
  method IngestAll(store: Store, files: seq<PdfFile>, size: int, overlap: int, batch: int, embed: EmbedTexts)
    returns (r: Result<(), IngestFailure>)
    requires store.Valid()
    modifies store
    ensures store.Valid()
    ensures var spec := IngestFiles(old(store.Contents()), files, size, overlap, batch, embed);
      && (r.Ok? <==> spec.Ok?)
      && (r.Ok? ==> store.Contents() == spec.value)
      && (r.Err? ==> r.error == spec.error)
  {
    var k := 0;
    while k < |files|
      invariant 0 <= k <= |files|
      invariant store.Valid()
      invariant IngestFiles(store.Contents(), files[k..], size, overlap, batch, embed)
             == IngestFiles(old(store.Contents()), files, size, overlap, batch, embed)
    {
      assert files[k..][0] == files[k] && files[k..][1..] == files[k + 1..];
      var one := IngestOne(store, files[k], size, overlap, batch, embed);
      if one.Err? {
        return one;
      }
      k := k + 1;
    }
    r := Ok(());
  }

  /** What `ingest_demand` ends with: `resolve_or_create_demand` raised
      before anything was written, or the case `id` was resolved and its
      files ingested with this result. */
  datatype DemandOutcome =
    | ResolveRaised(error: ResolveError)
    | Ingested(id: nat, result: Result<(), IngestFailure>)

  /** `ingest_demand` of civil/lib/ingest_demand.py: resolve the case, mark
      it `processing` with its store path for day `day`, ingest every file,
      then mark it `ready`; on any failure the store is rolled back, the
      case marked `error` and the failure returned. When resolving raises,
      the exception leaves before any status is written. */
  method IngestDemand(table: CaseTable, store: Store,
                      demandId: Option<int>, title: Option<string>, pdfDir: string, dirName: string,
                      createIfMissing: bool, createdBy: Option<int>,
                      size: int, overlap: int, batch: int,
                      day: string, files: seq<PdfFile>, embed: EmbedTexts)
    returns (out: DemandOutcome)
    requires store.Valid()
    modifies table, store
    ensures store.Valid()
    ensures var w := ResolveAsWritten(old(table.cases), demandId, title, pdfDir);
      && (out.ResolveRaised? <==> w.Err?)
      && (out.ResolveRaised? ==> out.error == w.error)
      && (out.Ingested? ==> out.id == w.value + 1)
    ensures |table.cases| == |old(table.cases)|
    ensures out.ResolveRaised? ==>
      && table.cases == old(table.cases) && table.statusLog == old(table.statusLog)
      && store.Contents() == old(store.Contents())
    ensures out.Ingested? ==>
      var id := out.id;
      var r := out.result;
      && 1 <= id <= |table.cases|
      && table.statusLog == old(table.statusLog) + [(id, Processing), (id, if r.Ok? then Ready else Error)]
      && table.cases[id - 1].status == (if r.Ok? then Ready else Error)
      && table.cases[id - 1].sqlitePath == day + "/" + StoreName(id)
      && table.cases[id - 1].pdfDir == day + "/demand_" + NatToString(id)
      && (forall k :: 0 <= k < |old(table.cases)| && k != id - 1 ==> table.cases[k] == old(table.cases)[k])
      && var spec := IngestFiles(old(store.Contents()), files, size, overlap, batch, embed);
      && (r.Ok? <==> spec.Ok?)
      && (r.Ok? ==> store.Contents() == spec.value)
      && (r.Err? ==> r.error == spec.error && store.Contents() == old(store.Contents()))
  {
    var resolved := table.Resolve(demandId, title, pdfDir, dirName, createIfMissing, createdBy);
    if resolved.Err? {
      return ResolveRaised(resolved.error);
    }
    var id := resolved.value;
    table.StartProcessing(id, day + "/" + StoreName(id), day + "/demand_" + NatToString(id));
    var saved := store.Contents();
    var r := IngestAll(store, files, size, overlap, batch, embed);
    if r.Err? {
      store.Rollback(saved);
      table.SaveStatus(id, Error);
    } else {
      table.SaveStatus(id, Ready);
    }
    out := Ingested(id, r);
  }

  // ---------------------------------------------------------------------
  // Properties of ingestion
  // ---------------------------------------------------------------------

  lemma AddChunkMirror(t: Tables, docId: int, content: string, position: int, vec: Vector)
    requires FtsMirrorsChunks(t)
    ensures FtsMirrorsChunks(AddChunk(t, docId, content, position, vec))
  {
  }

  lemma {:induction false} AddPairsMirror(t: Tables, docId: int, texts: seq<string>, vecs: seq<Vector>, position: int)
    requires FtsMirrorsChunks(t)
    ensures FtsMirrorsChunks(AddPairs(t, docId, texts, vecs, position))
    decreases |texts|
  {
    if texts != [] && vecs != [] {
      AddChunkMirror(t, docId, texts[0], position, vecs[0]);
      AddPairsMirror(AddChunk(t, docId, texts[0], position, vecs[0]), docId, texts[1..], vecs[1..], position + 1);
    }
  }

  lemma {:induction false} EmbedBatchesMirror(t: Tables, docId: int, chunks: seq<string>, start: nat, batch: nat, embed: EmbedTexts)
    requires batch >= 1 && FtsMirrorsChunks(t)
    requires EmbedBatches(t, docId, chunks, start, batch, embed).Ok?
    ensures FtsMirrorsChunks(EmbedBatches(t, docId, chunks, start, batch, embed).value)
    decreases |chunks| - start
  {
    if start < |chunks| {
      var texts := BatchAt(chunks, start, batch);
      var vecs := embed(texts).value;
      AddPairsMirror(t, docId, texts, vecs, start);
      EmbedBatchesMirror(AddPairs(t, docId, texts, vecs, start), docId, chunks, start + batch, batch, embed);
    }
  }

  /** Ingestion keeps the FTS projection in step with the chunks table. */
  lemma {:induction false} IngestKeepsFtsMirror(t: Tables, files: seq<PdfFile>, size: int, overlap: int, batch: int, embed: EmbedTexts)
    requires FtsMirrorsChunks(t)
    requires IngestFiles(t, files, size, overlap, batch, embed).Ok?
    ensures FtsMirrorsChunks(IngestFiles(t, files, size, overlap, batch, embed).value)
    decreases |files|
  {
    if files != [] {
      var f := files[0];
      var t1 := IngestFile(t, f, size, overlap, batch, embed).value;
      var text := ExtractSpec(f.reader).value;
      var chunks := ChunkSpec(text, size, overlap);
      if chunks != [] && batch > 0 {
        var t0 := t.(documents := t.documents + [Document(f.path, map["size" := JInt(f.size)])]);
        EmbedBatchesMirror(t0, |t0.documents|, chunks, 0, batch, embed);
      }
      IngestKeepsFtsMirror(t1, files[1..], size, overlap, batch, embed);
    }
  }

  /** A PDF whose pages all fail or are empty adds no document. */
  lemma TextlessPdfAddsNothing(t: Tables, path: string, fileSize: int, pages: seq<Page>,
                               size: int, overlap: int, batch: int, embed: EmbedTexts)
    requires forall i :: 0 <= i < |pages| ==> PageContent(pages[i]) == ""
    ensures IngestFile(t, PdfFile(path, fileSize, Pages(pages)), size, overlap, batch, embed) == Ok(t)
  {
    TextlessPdfHasNoChunks(pages, size, overlap);
  }

  /** The embedder answers every batch with one vector per text. */
  ghost predicate EmbedsEach(embed: EmbedTexts)
  {
    forall texts :: embed(texts).Ok? && |embed(texts).value| == |texts|
  }

  /** The chunk rows for `texts`, numbered from `position`. */
  function ChunkRows(docId: int, texts: seq<string>, position: int): (r: seq<Chunk>)
    ensures |r| == |texts|
    decreases |texts|
  {
    if texts == [] then [] else [Chunk(docId, texts[0], position)] + ChunkRows(docId, texts[1..], position + 1)
  }

  /** Row `j` holds text `j` at position `position + j`. */
  lemma {:induction false} ChunkRowsAt(docId: int, texts: seq<string>, position: int, j: nat)
    requires j < |texts|
    ensures ChunkRows(docId, texts, position)[j] == Chunk(docId, texts[j], position + j)
    decreases j
  {
    if j > 0 {
      ChunkRowsAt(docId, texts[1..], position + 1, j - 1);
    }
  }

  /** `from, from + 1, ..., from + n - 1`. */
  function Consecutive(from: int, n: nat): (r: seq<int>)
    ensures |r| == n
    decreases n
  {
    if n == 0 then [] else [from] + Consecutive(from + 1, n - 1)
  }

  lemma {:induction false} ConsecutiveAt(from: int, n: nat, j: nat)
    requires j < n
    ensures Consecutive(from, n)[j] == from + j
    decreases j
  {
    if j > 0 {
      ConsecutiveAt(from + 1, n - 1, j - 1);
    }
  }

  /** The chunk ids of a list of embeddings. */
  function EmbeddingIds(es: seq<Embedding>): (r: seq<int>)
    ensures |r| == |es|
  {
    if es == [] then [] else [es[0].chunkId] + EmbeddingIds(es[1..])
  }

  lemma {:induction false} EmbeddingIdsAt(es: seq<Embedding>, j: nat)
    requires j < |es|
    ensures EmbeddingIds(es)[j] == es[j].chunkId
    decreases j
  {
    if j > 0 {
      EmbeddingIdsAt(es[1..], j - 1);
    }
  }

  lemma {:induction false} AddPairsChunks(t: Tables, docId: int, texts: seq<string>, vecs: seq<Vector>, position: int)
    requires |vecs| >= |texts|
    ensures var r := AddPairs(t, docId, texts, vecs, position);
      && r.documents == t.documents
      && r.chunks == t.chunks + ChunkRows(docId, texts, position)
    decreases |texts|
  {
    if texts != [] {
      var t1 := AddChunk(t, docId, texts[0], position, vecs[0]);
      AddPairsChunks(t1, docId, texts[1..], vecs[1..], position + 1);
      assert t1.chunks + ChunkRows(docId, texts[1..], position + 1) == t.chunks + ChunkRows(docId, texts, position);
    }
  }

  lemma {:induction false} AddPairsIds(t: Tables, docId: int, texts: seq<string>, vecs: seq<Vector>, position: int)
    requires |vecs| >= |texts|
    ensures var r := AddPairs(t, docId, texts, vecs, position);
      && |r.chunks| == |t.chunks| + |texts|
      && EmbeddingIds(r.embeddings) == EmbeddingIds(t.embeddings) + Consecutive(|t.chunks| + 1, |texts|)
    decreases |texts|
  {
    if texts != [] {
      var t1 := AddChunk(t, docId, texts[0], position, vecs[0]);
      AddPairsIds(t1, docId, texts[1..], vecs[1..], position + 1);
      EmbeddingIdsSnoc(t.embeddings, Embedding(|t.chunks| + 1, vecs[0]));
      assert [|t.chunks| + 1] + Consecutive(|t.chunks| + 2, |texts| - 1) == Consecutive(|t.chunks| + 1, |texts|);
    }
  }

  lemma EmbeddingIdsSnoc(es: seq<Embedding>, e: Embedding)
    ensures EmbeddingIds(es + [e]) == EmbeddingIds(es) + [e.chunkId]
  {
    var lhs := EmbeddingIds(es + [e]);
    forall j | 0 <= j < |lhs| ensures lhs[j] == (EmbeddingIds(es) + [e.chunkId])[j] {
      EmbeddingIdsAt(es + [e], j);
      if j < |es| {
        EmbeddingIdsAt(es, j);
      }
    }
  }

  lemma ChunkRowsSplit(docId: int, chunks: seq<string>, start: nat, next: nat)
    requires start <= next <= |chunks|
    ensures ChunkRows(docId, chunks[start..next], start) + ChunkRows(docId, chunks[next..], next)
         == ChunkRows(docId, chunks[start..], start)
  {
    var lhs := ChunkRows(docId, chunks[start..next], start) + ChunkRows(docId, chunks[next..], next);
    var rows := ChunkRows(docId, chunks[start..], start);
    forall j | 0 <= j < |rows| ensures lhs[j] == rows[j] {
      ChunkRowsAt(docId, chunks[start..], start, j);
      if j >= next - start {
        ChunkRowsAt(docId, chunks[next..], next, j - (next - start));
        assert chunks[next..][j - (next - start)] == chunks[start..][j];
      } else {
        ChunkRowsAt(docId, chunks[start..next], start, j);
      }
    }
  }

  lemma {:induction false} ConsecutiveSplit(from: int, n: nat, m: nat)
    ensures Consecutive(from, n) + Consecutive(from + n, m) == Consecutive(from, n + m)
    decreases n
  {
    if n == 0 {
      assert Consecutive(from, n) == [];
    } else {
      var next := from + 1;
      assert next + (n - 1) == from + n;
      ConsecutiveSplit(next, n - 1, m);
      calc {
        Consecutive(from, n) + Consecutive(from + n, m);
        ([from] + Consecutive(next, n - 1)) + Consecutive(from + n, m);
        [from] + (Consecutive(next, n - 1) + Consecutive(next + (n - 1), m));
        [from] + Consecutive(next, n - 1 + m);
        Consecutive(from, n + m);
      }
    }
  }

  /** One turn of the batch loop when every batch is embedded in full. */
  lemma EmbedBatchesStep(t: Tables, docId: int, chunks: seq<string>, start: nat, batch: nat, embed: EmbedTexts)
    requires batch >= 1 && start < |chunks| && EmbedsEach(embed)
    ensures var texts := BatchAt(chunks, start, batch);
      && |embed(texts).value| == |texts|
      && EmbedBatches(t, docId, chunks, start, batch, embed)
         == EmbedBatches(AddPairs(t, docId, texts, embed(texts).value, start), docId, chunks, start + batch, batch, embed)
  {
  }

  lemma {:induction false} EmbedBatchesChunks(t: Tables, docId: int, chunks: seq<string>, start: nat, batch: nat, embed: EmbedTexts)
    requires batch >= 1 && start <= |chunks| && EmbedsEach(embed)
    ensures var r := EmbedBatches(t, docId, chunks, start, batch, embed);
      && r.Ok?
      && r.value.documents == t.documents
      && r.value.chunks == t.chunks + ChunkRows(docId, chunks[start..], start)
    decreases |chunks| - start, 1
  {
    if start < |chunks| {
      var texts := BatchAt(chunks, start, batch);
      var next := start + |texts|;
      var t1 := AddPairs(t, docId, texts, embed(texts).value, start);
      EmbedBatchesStep(t, docId, chunks, start, batch, embed);
      AddPairsChunks(t, docId, texts, embed(texts).value, start);
      LaterBatchesChunks(t1, docId, chunks, start, batch, embed);
      ChunkRowsSplit(docId, chunks, start, next);
      AppendAssoc(t.chunks, ChunkRows(docId, texts, start), ChunkRows(docId, chunks[next..], next));
    }
  }

  /** The batches after the one at `start`, run on the tables `t1` that
      batch left. */
  lemma {:induction false} LaterBatchesChunks(t1: Tables, docId: int, chunks: seq<string>, start: nat, batch: nat, embed: EmbedTexts)
    requires batch >= 1 && start < |chunks| && EmbedsEach(embed)
    ensures var next := start + |BatchAt(chunks, start, batch)|;
      var r := EmbedBatches(t1, docId, chunks, start + batch, batch, embed);
      && r.Ok?
      && r.value.documents == t1.documents
      && r.value.chunks == t1.chunks + ChunkRows(docId, chunks[next..], next)
    decreases |chunks| - start, 0
  {
    var next := start + |BatchAt(chunks, start, batch)|;
    if next < |chunks| {
      EmbedBatchesChunks(t1, docId, chunks, start + batch, batch, embed);
    } else {
      assert chunks[next..] == [];
    }
  }

  lemma {:induction false} EmbedBatchesIds(t: Tables, docId: int, chunks: seq<string>, start: nat, batch: nat, embed: EmbedTexts)
    requires batch >= 1 && start <= |chunks| && EmbedsEach(embed)
    ensures var r := EmbedBatches(t, docId, chunks, start, batch, embed);
      && r.Ok?
      && EmbeddingIds(r.value.embeddings) == EmbeddingIds(t.embeddings) + Consecutive(|t.chunks| + 1, |chunks| - start)
    decreases |chunks| - start, 1
  {
    if start < |chunks| {
      var texts := BatchAt(chunks, start, batch);
      var t1 := AddPairs(t, docId, texts, embed(texts).value, start);
      EmbedBatchesStep(t, docId, chunks, start, batch, embed);
      AddPairsIds(t, docId, texts, embed(texts).value, start);
      LaterBatchesIds(t1, docId, chunks, start, batch, embed);
      ConsecutiveSplit(|t.chunks| + 1, |texts|, |chunks| - start - |texts|);
      AppendAssoc(EmbeddingIds(t.embeddings), Consecutive(|t.chunks| + 1, |texts|),
               Consecutive(|t.chunks| + |texts| + 1, |chunks| - start - |texts|));
    }
  }

  /** The batches after the one at `start`, run on the tables `t1` that
      batch left. */
  lemma {:induction false} LaterBatchesIds(t1: Tables, docId: int, chunks: seq<string>, start: nat, batch: nat, embed: EmbedTexts)
    requires batch >= 1 && start < |chunks| && EmbedsEach(embed)
    ensures var n := |BatchAt(chunks, start, batch)|;
      var r := EmbedBatches(t1, docId, chunks, start + batch, batch, embed);
      && r.Ok?
      && EmbeddingIds(r.value.embeddings) == EmbeddingIds(t1.embeddings) + Consecutive(|t1.chunks| + 1, |chunks| - start - n)
    decreases |chunks| - start, 0
  {
    var n := |BatchAt(chunks, start, batch)|;
    if start + n < |chunks| {
      EmbedBatchesIds(t1, docId, chunks, start + batch, batch, embed);
    } else {
      assert Consecutive(|t1.chunks| + 1, 0) == [];
    }
  }

  /** With a positive batch size and an embedder that answers every
      batch in full, a PDF with chunks adds one document, then its chunks
      in order numbered from 0, each with exactly one embedding whose
      chunk id is that chunk's id. */
  lemma FullIngestOfFile(t: Tables, f: PdfFile, size: int, overlap: int, batch: int, embed: EmbedTexts)
    requires batch >= 1 && EmbedsEach(embed)
    requires ExtractSpec(f.reader).Ok?
    requires ChunkSpec(ExtractSpec(f.reader).value, size, overlap) != []
    ensures var chunks := ChunkSpec(ExtractSpec(f.reader).value, size, overlap);
      var r := IngestFile(t, f, size, overlap, batch, embed);
      && r.Ok?
      && r.value.documents == t.documents + [Document(f.path, map["size" := JInt(f.size)])]
      && r.value.chunks == t.chunks + ChunkRows(|t.documents| + 1, chunks, 0)
      && EmbeddingIds(r.value.embeddings) == EmbeddingIds(t.embeddings) + Consecutive(|t.chunks| + 1, |chunks|)
  {
    var chunks := ChunkSpec(ExtractSpec(f.reader).value, size, overlap);
    var t1 := t.(documents := t.documents + [Document(f.path, map["size" := JInt(f.size)])]);
    EmbedBatchesChunks(t1, |t1.documents|, chunks, 0, batch, embed);
    EmbedBatchesIds(t1, |t1.documents|, chunks, 0, batch, embed);
    assert chunks[0..] == chunks;
  }

  // ---------------------------------------------------------------------
  // ingest_demand in mcp_app/lib/ingest_demand.py
  // ---------------------------------------------------------------------

  /** What `str(e)` gives for the exception the body raises first. */
  function McpInnerMessage(options: map<string, Json>, resolve: Json -> Result<string, string>,
                           dirExists: string -> bool): string
  {
    if "pdf_dir" !in options then "'pdf_dir'"
    else match resolve(options["pdf_dir"])
      case Err(m) => m
      case Ok(dir) =>
        if "chunk_size" !in options then "'chunk_size'"
        else if "overlap" !in options then "'overlap'"
        else if "batch" !in options then "'batch'"
        else if !dirExists(dir) then "pdf-dir not found: " + dir
        else McpSelfUndefined
  }

  const McpSelfUndefined := "name 'self' is not defined"

  const McpErrorPrefix := "Error durante la ingesta: "

  /** The Celery `ingest_demand` job in mcp_app/lib/ingest_demand.py: every exception raised in
      its body is re-raised as a CommandError carrying the prefixed
      message; `Path(...).resolve()` is the `resolve` oracle. The module
      itself does not compile (a `try:` without `except` in
      `_resolve_or_create_demand`), so this is the body's text read as if
      it did: it calls a method on an undefined `self` before it touches
      any case or store, so no outcome is a success. */
  function McpIngestDemand(options: map<string, Json>, resolve: Json -> Result<string, string>,
                           dirExists: string -> bool): (r: Result<(), string>)
    ensures r.Err? && StartsWith(r.error, McpErrorPrefix)
    ensures "pdf_dir" !in options ==> r.error == McpErrorPrefix + "'pdf_dir'"
    ensures ("pdf_dir" in options && resolve(options["pdf_dir"]).Ok?
             && "chunk_size" in options && "overlap" in options && "batch" in options) ==>
        var dir := resolve(options["pdf_dir"]).value;
        r.error == McpErrorPrefix + (if dirExists(dir) then McpSelfUndefined else "pdf-dir not found: " + dir)
  {
    Err(McpErrorPrefix + McpInnerMessage(options, resolve, dirExists))
  }
}
