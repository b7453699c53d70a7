# ai-assist-attorney core, modelled in Dafny

This project models the logic of ai-assist-attorney, a Django system that
scrapes Chilean civil court records from the judiciary's virtual office
(oficinajudicialvirtual.pjud.cl), ingests each case's PDFs into a
per-case SQLite/FTS5 store with embeddings, and answers questions about a
case over that store through MCP tools and a chatbot. It proves properties
of the model.

The modules follow the program's files:

- `Causas` (causas.dfy) models the Selenium scraper `ConsultaCausas` of
  causas_app/lib/causas.py as a class. Its state is the browser session,
  the launch and search counters and the cookies. The portal (the browser
  and the pages it shows) is a datatype of oracle functions. The module
  also has the retry loops, the "next existing roll" probe, the detail
  table parser and the per-row download.
- `DownloadPdf` (download_pdf.dfy) models the stand-alone downloader
  causas_app/lib/download_pdf.py and its loop over every entry.
- `GetDemanda` (get_demanda.dfy) models the `get_demanda` tool's `run`.
  It covers splitting the RIT identifier, the acquisition call sequence,
  exception to None, and the cleanup in `finally`.
- `Ingest` (ingest.dfy) models `chunk_text`, `extract_pdf_text`,
  `resolve_or_create_demand` and `ingest_demand` of
  civil/lib/ingest_demand.py. The case table is a class, and each step of
  the file, batch and chunk loops is a method on the store. It also models
  the text of the `ingest_demand` of mcp_app/lib/ingest_demand.py, which
  would always fail if the module compiled (it does not; see Left out).
- `SqliteDb` (sqlite_db.dfy) models the per-case store of
  mcp_app/rag/sqlite_db.py. Its documents, chunks, embeddings and FTS
  tables are sequences in a class, and it has `topk_bm25`,
  `fetch_embeddings` and `hybrid_search`.
- `Rag` (rag.dfy) models the `rag_query` tool: the FTS sanitiser and
  prefixifier, `_more_context`, the three-attempt `safe_hybrid_search`,
  the bounded LLM loop `_chat_until_conclusive`, and `rag_answer` with its
  trace. It also models the `rag_search` tool: `sanitize_fts_query` and
  its single retry.
- `Progress`, `RateLimit`, `Billing` and `EmailVerification` model the
  chatbot's progress records, its anonymous rate limiter, its quota
  arithmetic and verification-code expiry.
- `ToolsManager`, `ToolRegistry`, `Processor`, `Asgi` and `Catalogue`
  model the MCP side:
  - the memoising tool loader and its validation;
  - the registration and the result-shaping wrapper of mcp_app/tools.py
    and mcp_app/tools/__init__.py;
  - `MCPProcessor`;
  - the JSON-RPC endpoint of pjud/asgi.py;
  - the `get_competencias`, `get_cortes` and `get_tribunales` tools.
- `Common` (common.dfy) holds the shared values: a JSON value type and
  Python's `strip`, `split`, slicing, `str()` of naturals and ASCII
  lower-casing, with their properties.

Several kinds of external behaviour are parameters of the model, given as
functions:

- the browser and pages;
- the HTTP `post` reply, a status or an exception;
- the PDF reader;
- the embedder;
- FTS5 ranking and similarity;
- the chat model;
- the Django ORM queries and `int()` conversion;
- the module importer;
- the MCP server's registration call.

Python exceptions are `Result` errors. A source class whose fields change
is a Dafny `class`, and each of its methods is proved against a function
of the old state.

## Model

| member | source | states |
|---|---|---|
| Causas.StartStep | causas_app/lib/causas.py:75-92 | `start_browser` counts one launch, yields a browser exactly when the launch succeeds and leaves the session empty exactly when the launch itself failed, touching nothing else |
| Causas.CloseStep | causas_app/lib/causas.py:282-290 | `close` ends the session unless `quit()` raises, in which case the session is kept; counters and cookies are unchanged |
| Causas.WizardProbeOutcomes | causas_app/lib/causas.py:94-213 | a search never reports `(False, True)`; it reports `(True, False)` iff every dropdown accepts its value, nothing raises and the result cell contains "No se han encontrado resultados" |
| Causas.MissingOptionIsLikeRaising | causas_app/lib/causas.py:131-143 | a tribunal value that is not among the stripped option texts gives `(False, False)`, the same outcome as a dropdown that raises |
| Causas.UnreadableCellMeansExists | causas_app/lib/causas.py:229-238 | on re-query, a result cell that cannot be read counts as "a case exists": `(True, True)` |
| Causas.Initiate | causas_app/lib/causas.py:294-301 | the retry loop of `iniciar_navegador` on the scraper's state: launch after launch until one opens the portal or `intentos` launches are spent; `InitiateSpec` states its properties |
| Causas.InitiateReadsLaunches | causas_app/lib/causas.py:294-301 | starting the browser depends on the launches alone, not on any page of the portal |
| Causas.InitiateSpec | causas_app/lib/causas.py:294-301 | `iniciar_navegador` launches at most `intentos` times; it returns the first launch that succeeded (all earlier ones failed) or fails after exactly `max(0, intentos)` failed launches |
| Causas.Navigate | causas_app/lib/causas.py:303-319 | the retry loop of `navegar_consulta_causas` on the scraper's state: a wizard search, and after a failed one a close and a restart, at most `max_reintentos` times; `NavigateSpec` states its properties |
| Causas.NavigateSpec | causas_app/lib/causas.py:303-319 | `navegar_consulta_causas` makes at most `max_reintentos` searches; it returns `existe` of the first search without error, all earlier ones having failed, and gives up only after that many failed searches |
| Causas.NavigateReadsTypedPages | causas_app/lib/causas.py:303-319 | the search loop sees the wizard only through the pages shown for the roll and year it types: portals that differ on other rolls or years give the same run |
| Causas.NextExisting | causas_app/lib/causas.py:321-333 | the loop of `buscar_siguiente_existente` as written, on the scraper's state: the roll is incremented before each re-query, and a failed re-query restarts the browser and moves on; `NextExistingSpec` states its properties |
| Causas.NextExistingSpec | causas_app/lib/causas.py:321-333 | the loop as written searches rolls `rol+1, rol+2, …` one search each and returns only a roll whose search went through and found a case, strictly greater than `rol` |
| Causas.NextExistingSkipsErroredRoll | causas_app/lib/causas.py:321-333 | a concrete portal where the search of roll 11 raises: the loop as written returns 12 without roll 11 ever being confirmed absent, and the retrying loop returns 11 |
| Causas.NextExistingRetryingSpec | causas_app/lib/causas.py:321-333 | retrying a roll whose search raised returns the next existing roll: every roll strictly between was searched and found empty |
| Causas.AbsoluteUrl | causas_app/lib/causas.py:357 | an action starting with "http" is kept, and any other action is prefixed with the portal host |
| Causas.RowRecord | causas_app/lib/causas.py:347-373 | an empty row gives no record; a row with fewer than 8 cells, or whose first form lacks `dtaDoc`, fails; otherwise the record takes folio..geo from cells 0..7, and the URL and dtaDoc from the first form (None without a form) |
| Causas.TableRecordsSpec | causas_app/lib/causas.py:347-382 | the table parses iff no row fails; the records are then one per non-empty row, in table order |
| Causas.CookieMap | causas_app/lib/causas.py:339 | the cookie dict has exactly the names in the jar, and a later cookie with a repeated name wins |
| Causas.ConsultaCausas.constructor | causas_app/lib/causas.py:19-34 | a new scraper has no browser, no launches, no searches and no cookies |
| Causas.ConsultaCausas.StartBrowser | causas_app/lib/causas.py:75-92 | the session state after the call is `StartStep` of the state before it |
| Causas.ConsultaCausas.Close | causas_app/lib/causas.py:282-290 | the new state is `CloseStep` of the old one |
| Causas.ConsultaCausas.GoConsultaCausas | causas_app/lib/causas.py:94-213 | the outcome and the new state are those of one wizard search on the current page |
| Causas.ConsultaCausas.GoConsultaNewRol | causas_app/lib/causas.py:215-243 | the outcome and the new state are those of one re-query of a roll |
| Causas.ConsultaCausas.IniciarNavegador | causas_app/lib/causas.py:294-301 | the counted loop ends with the result and the state `Initiate` gives, whose properties `InitiateSpec` states |
| Causas.ConsultaCausas.NavegarConsultaCausas | causas_app/lib/causas.py:303-319 | the loop, with its close and restart after each failure, ends as `Navigate` does, whose properties `NavigateSpec` states |
| Causas.ConsultaCausas.BuscarSiguienteExistente | causas_app/lib/causas.py:321-333 | the `while True` loop, cut off after `fuel` searches, ends as `NextExisting` does |
| Causas.ConsultaCausas.LoadDetalleCausa | causas_app/lib/causas.py:335-382 | the cookies are taken from the browser, and the table is parsed as `TableRecordsSpec` states; any failure gives None |
| Causas.ConsultaCausas.DescargarPdf | causas_app/lib/causas.py:384-414 | raises when no cookies were ever loaded or `fila` is out of range; for a row that exists, no request is made iff its URL or dtaDoc is empty; otherwise the file `folio.strip('[]')_fila.pdf` is saved iff `post` answers 200, another status is reported as `post` answered it, and an exception of the request escapes |
| DownloadPdf.EntryOutcome | causas_app/lib/download_pdf.py:10-27 | no request iff the URL or dtaDoc is empty; saved iff the post answers 200, under `FileName(folio, index)`; another status is reported as answered; an exception of the request is reported as raised |
| DownloadPdf.FileName | causas_app/lib/download_pdf.py:22 | the folio stripped of brackets, or "doc" when nothing is left, then `_<index>.pdf`; `FileNameInjective` and `BracketFolioFallsBack` state its properties |
| DownloadPdf.DownloadAll | causas_app/lib/download_pdf.py:30-31 | the entries are handled in order, each with its own index, until a request raises, which ends the loop at that entry; requests go exactly to the handled entries with a document, in increasing index order |
| DownloadPdf.OutcomesAt | causas_app/lib/download_pdf.py:30-31 | the outcome recorded for entry `i` is `descargar_pdf` of that entry with index `i` |
| DownloadPdf.RequestedIndices | causas_app/lib/download_pdf.py:30-31 | a request goes to exactly the entries that have a document URL and a dtaDoc value, in increasing index order |
| DownloadPdf.FileNameInjective | causas_app/lib/download_pdf.py:22 | two file names that are equal come from the same row index |
| DownloadPdf.SavedNamesDistinct | causas_app/lib/download_pdf.py:22-31 | no two entries of one run save to the same file name |
| DownloadPdf.BracketFolioFallsBack | causas_app/lib/download_pdf.py:22 | a folio made only of brackets, the empty folio included, gives `doc_<index>.pdf`; any other folio gives its bracket-stripped self |
| GetDemanda.ParseRit | mcp_app/tools/get_demanda.py:55-56 | a RIT parses iff it is a string with at least three dash-separated fields; the roll and year are fields 1 and 2, and neither contains a dash |
| GetDemanda.ParseRitFields | mcp_app/tools/get_demanda.py:55-56 | `tipo-rol-era` splits back into `(rol, era)` for dash-free fields |
| GetDemanda.ParseRitExample | mcp_app/tools/get_demanda.py:54-56 | "C-4583-2025" gives roll "4583" and year "2025" |
| GetDemanda.Run | mcp_app/tools/get_demanda.py:30-92 | the call sequence on the scraper returns what `DemandaSpec` describes: None after any failure, the detail table after a completed search, and an escape only from the final `browser.quit()` |
| GetDemanda.DemandaSpec | mcp_app/tools/get_demanda.py:18-92 | `run` from a fresh scraper: start, parse the RIT, search, read the detail table, then the cleanup; the lemmas below state its properties |
| GetDemanda.YearComesFromRit | mcp_app/tools/get_demanda.py:38-56 | a `conEraCausa` parameter never changes the outcome, because `conEraCausa` is overwritten with the RIT's third field before the search |
| GetDemanda.SearchTypesRitFields | mcp_app/tools/get_demanda.py:53-57 | the search types the RIT's roll and year: a portal that differs from another only in the wizard pages shown for other rolls or years gives the same outcome |
| GetDemanda.MalformedRitGivesNone | mcp_app/tools/get_demanda.py:55-91 | a missing or malformed RIT returns None, unless the cleanup raises |
| GetDemanda.TableOnlyAfterSearch | mcp_app/tools/get_demanda.py:53-82 | a returned table means the browser started, the RIT parsed and the civil search went through, and the table is exactly what `loadDetalleCausa` read |
| Ingest.StepOf | civil/lib/ingest_demand.py:19-26 | the window step is at least 1 and equals `chunk_size - overlap` whenever that is positive |
| Ingest.ChunkSpec | civil/lib/ingest_demand.py:19-26 | `chunk_text` as a function of the text: the stripped non-blank windows in order; `ChunkShape`, `WindowsAt` and `WindowsCover` state its properties |
| Ingest.WindowsAt | civil/lib/ingest_demand.py:20-25 | before stripping, window k is the Python slice `text[start_k : start_k + chunk_size]` |
| Ingest.StartsShape | civil/lib/ingest_demand.py:20-25 | the window starts are `0, step, 2*step, …`, all below `len(text)`, and the next one is not |
| Ingest.ChunkText | civil/lib/ingest_demand.py:19-26 | the while loop returns `ChunkSpec`: the stripped non-blank windows in order |
| Ingest.ChunkShape | civil/lib/ingest_demand.py:24-26 | every chunk is non-empty, already stripped, and no longer than `chunk_size` |
| Ingest.BlankTextHasNoChunks | civil/lib/ingest_demand.py:24-26 | empty or whitespace-only text gives no chunks |
| Ingest.WindowsCover | civil/lib/ingest_demand.py:20-25 | every character of the text lies in some window at its own offset |
| Ingest.PageContents | civil/lib/ingest_demand.py:28-36 | one entry per page: the page's text, or "" when its extraction fails |
| Ingest.ExtractPdfText | civil/lib/ingest_demand.py:28-36 | the page loop yields the page texts joined with a blank line, or the reader's failure |
| Ingest.TextlessPdfHasNoChunks | civil/lib/ingest_demand.py:28-36 | a PDF whose pages yield no text produces no chunks |
| Ingest.NewestWhere | civil/lib/ingest_demand.py:79-85 | returns the last (newest) matching case, or None when no case matches |
| Ingest.Creator | civil/lib/ingest_demand.py:52-57 | the creator is set only for a non-zero id of an existing user |
| Ingest.ResolveAsWritten | civil/lib/ingest_demand.py:59-99 | as written: a found id returns its case; without an id, a truthy title raises FieldError; otherwise the newest case with the pdf_dir; every `create(title=…)` raises TypeError |
| Ingest.ResolveAsWrittenRaises | civil/lib/ingest_demand.py:59-99 | where the code as written returns, it returns the intended case; wherever the intended resolution creates a case or looks up by title, the code raises |
| Ingest.TitleLookupRaisesExample | civil/lib/ingest_demand.py:79-82 | a case titled "Demanda" exists, yet asking for it by title raises FieldError where the intended lookup finds it |
| Ingest.ResolveOrder | civil/lib/ingest_demand.py:59-99 | as intended, with `titulo`: an existing id wins; otherwise the newest case with the title, then with the pdf_dir; otherwise a new pending case with an empty sqlite_path, titled by the title or the directory name |
| Ingest.CaseTable.constructor | civil/models.py:32-56 | the table starts with the given cases and an empty status log |
| Ingest.CaseTable.Resolve | civil/lib/ingest_demand.py:38-99 | returns the id of the case `ResolveAsWritten` finds, or what it raises; `create_if_missing` changes nothing |
| Ingest.CaseTable.StartProcessing | civil/lib/ingest_demand.py:129-133 | only that case changes: it becomes `processing` with the new paths, and the write is logged |
| Ingest.CaseTable.SaveStatus | civil/lib/ingest_demand.py:156-166 | only that case's status changes, and the write is logged |
| Ingest.BatchAt | civil/lib/ingest_demand.py:147-148 | a batch is the next `batch` chunks, or the rest when fewer remain |
| Ingest.InsertPairs | civil/lib/ingest_demand.py:149-152 | inserts one chunk row and one embedding per text of the batch, in order |
| Ingest.InsertBatches | civil/lib/ingest_demand.py:147-152 | the batch loop leaves the store `EmbedBatches` describes, or stops with the embedder's failure |
| Ingest.IngestOne | civil/lib/ingest_demand.py:139-153 | one file: nothing when it has no chunks, else one document row and then its batches |
| Ingest.IngestAll | civil/lib/ingest_demand.py:139-153 | every file in order, stopping at the first failure |
| Ingest.IngestDemand | civil/lib/ingest_demand.py:101-166 | when resolving raises, the exception leaves before any status write and nothing changes; otherwise status goes `processing` then `ready` on success or `error` on failure, the case gets its dated paths, other cases are untouched, and on failure the store is rolled back |
| Ingest.IngestKeepsFtsMirror | civil/lib/ingest_demand.py:139-153 | ingestion keeps every FTS row's rowid and chunk_id equal to its chunk's id |
| Ingest.TextlessPdfAddsNothing | civil/lib/ingest_demand.py:142-145 | a file with no text creates no document row |
| Ingest.FullIngestOfFile | civil/lib/ingest_demand.py:145-152 | a file with chunks adds one document (size metadata), then its chunks with `seq = 0..n-1`, each with exactly one embedding, in order |
| Ingest.EmbedBatchesChunks | civil/lib/ingest_demand.py:147-152 | the batch loop appends exactly the remaining chunks, in order, with consecutive positions |
| Ingest.EmbedBatchesIds | civil/lib/ingest_demand.py:147-152 | the embeddings written point at consecutive new chunk ids, one each |
| Ingest.McpIngestDemand | mcp_app/lib/ingest_demand.py:125-193 | read as if the module compiled, the body always fails with CommandError: a missing pdf_dir gives KeyError text, a missing directory "pdf-dir not found", and otherwise the undefined `self` |
| SqliteDb.Store.constructor | mcp_app/rag/sqlite_db.py:6-37 | a new store is empty and valid |
| SqliteDb.Store.InsertDocument | mcp_app/rag/sqlite_db.py:39-41 | appends one document, with metadata `{}` when none is given, and returns its new id |
| SqliteDb.Store.InsertChunk | mcp_app/rag/sqlite_db.py:43-47 | appends one chunk, returns its new id, and adds an FTS row whose rowid and chunk_id are that id |
| SqliteDb.Store.InsertEmbedding | mcp_app/rag/sqlite_db.py:49-50 | appends one embedding row and touches no other table |
| SqliteDb.Limit | mcp_app/rag/sqlite_db.py:52-54 | SQLite's `LIMIT k`: a prefix of at most k rows, with all rows for a negative k |
| SqliteDb.TopK | mcp_app/rag/sqlite_db.py:52-54 | `topk_bm25` fails only with OperationalError; otherwise it returns at most k candidates, each an FTS row |
| SqliteDb.FetchEmbeddings | mcp_app/rag/sqlite_db.py:56-59 | the embedding rows whose chunk id is requested, joined with their chunk's content; `FetchEmbeddingsMembers` states its properties |
| SqliteDb.FetchEmbeddingsMembers | mcp_app/rag/sqlite_db.py:56-59 | the rows fetched are exactly the requested chunks that have an embedding, one per embedding row |
| SqliteDb.SortDescProps | mcp_app/rag/sqlite_db.py:74 | sorting orders by non-increasing score and is a permutation |
| SqliteDb.ScoreRows | mcp_app/rag/sqlite_db.py:67-73 | one scored entry per fetched row, scored by similarity to the query vector |
| SqliteDb.HybridSpec | mcp_app/rag/sqlite_db.py:61-75 | `hybrid_search` as a function: lexical candidates, their embeddings scored against the query vector, sorted, the first `rerank_k`; `HybridResults` and `HybridNoCandidates` state its properties |
| SqliteDb.HybridSearch | mcp_app/rag/sqlite_db.py:61-75 | the scoring loop and sort return `HybridSpec`, and the embedder is called iff there are lexical candidates |
| SqliteDb.HybridNoCandidates | mcp_app/rag/sqlite_db.py:63-65 | no lexical candidates gives `[]` |
| SqliteDb.HybridResults | mcp_app/rag/sqlite_db.py:61-75 | at most `rerank_k` results, sorted by non-increasing score, each a lexical candidate with an embedding and scored against the query |
| Rag.SanitizedShape | mcp_app/tools/rag_query.py:28-39 | `fts_sanitize` output has only FTS-safe characters and single spaces, with no space at either end |
| Rag.FtsSanitize | mcp_app/tools/rag_query.py:36-39 | `fts_sanitize`: every unsafe character becomes a space and the runs are joined by one space; `SanitizedShape`, `SanitizeWords` and `SanitizeIdempotent` state its properties |
| Rag.FtsPrefixify | mcp_app/tools/rag_query.py:41-43 | `fts_prefixify`: each whitespace token followed by `*`; `PrefixifyTokens` states its properties |
| Rag.SanitizeWords | mcp_app/tools/rag_query.py:36-39 | the output is the runs of safe characters joined by one space, and None counts as "" |
| Rag.SanitizeIdempotent | mcp_app/tools/rag_query.py:36-39 | sanitising twice is sanitising once |
| Rag.PrefixifyTokens | mcp_app/tools/rag_query.py:41-43 | `fts_prefixify` adds `*` to each whitespace token, keeping the count and order of tokens |
| Rag.SanitizeUndoesPrefix | mcp_app/tools/rag_query.py:36-43 | sanitising a prefixified sanitised query gives back the sanitised query |
| Rag.Block | mcp_app/tools/rag_query.py:69-76 | a context block is its header followed by the first `min(n, len)` characters of the chunk |
| Rag.ContextBlocks | mcp_app/tools/rag_query.py:68-79 | the loop builds one block per row, in order |
| Rag.MoreContext | mcp_app/tools/rag_query.py:45-82 | `_more_context` computes `MoreContextSpec` on the store |
| Rag.ContextRowsOrigin | mcp_app/tools/rag_query.py:53-67 | one prefix retry after an OperationalError; a second OperationalError gives no rows, and other errors propagate |
| Rag.MoreContextShape | mcp_app/tools/rag_query.py:45-82 | "" for a query that sanitises to empty or for no rows; otherwise one block per row with snippets of at most 1200 characters, joined by the separator |
| Rag.SafeHybridSearch | mcp_app/tools/rag_query.py:136-153 | at most three attempts: the raw query, then the sanitised one (only if the raw one raised and the sanitised one is non-empty), then its prefixified form |
| Rag.SafeSearchOutcome | mcp_app/tools/rag_query.py:136-153 | the result is the last attempt's rows, `[]` after an OperationalError, or the other error |
| Rag.SafeSearchRows | mcp_app/tools/rag_query.py:136-153 | the rows come back ranked: at most `rerank_k`, sorted, each a lexical candidate of one of the attempted queries |
| Rag.Classify | mcp_app/tools/rag_query.py:102-123 | a `FINAL_ANSWER:` reply yields its stripped rest; a `NEED_MORE_CONTEXT:` reply yields the non-blank stripped `;`-items; anything else is literal |
| Rag.MoreQueriesClean | mcp_app/tools/rag_query.py:106-108 | every extra query is non-empty, stripped and free of `;` |
| Rag.AfterFirstPrefix | mcp_app/tools/rag_query.py:107 | the text after the first `:` is what follows the marker |
| Rag.GatherContext | mcp_app/tools/rag_query.py:109-115 | the loop over the extra queries collects the non-empty contexts in order |
| Rag.RoundSpec | mcp_app/tools/rag_query.py:88-123 | a model error ends with "Error al consultar el modelo: …"; FINAL gives the stripped answer; a literal reply is returned as is; another round continues only with non-empty extra context |
| Rag.ChatUntilConclusive | mcp_app/tools/rag_query.py:84-125 | the round loop ends with the answer, messages and call count `ChatSpec` gives |
| Rag.ChatBounds | mcp_app/tools/rag_query.py:84-125 | at most `max_rounds` model calls; the original messages are kept as a prefix, and each appended message is one system context message, one per continuing round |
| Rag.ChatAnswer | mcp_app/tools/rag_query.py:84-125 | the answer is that of the last round, or the "No fue posible…" message after `max_rounds` continuing rounds |
| Rag.TopChunks | mcp_app/tools/rag_query.py:230-233 | the trace lists the first `min(8, len)` results as (chunk id, score) |
| Rag.RagAnswer | mcp_app/tools/rag_query.py:155-242 | `rag_answer` computes `RagAnswerSpec` on the case lookup, store, search and chat, and its trace agrees with the answer: the top chunks are the first results, the context length and path are the answer's |
| Rag.ContextTextShape | mcp_app/tools/rag_query.py:208-210 | with no blocks the context starts with "(sin resultados)"; a seed context is appended at the end |
| Rag.ReportShape | mcp_app/tools/rag_query.py:244-279 | `execute` echoes the conversation id, lists at most 8 top chunks, and reports errors and missing cases with no path and no chunks |
| Rag.RagQueryExecute | mcp_app/tools/rag_query.py:244-279 | `execute`: the conversation id given or a fresh one, `k` defaulting to 8, and `rag_answer`'s result reported; `ReportShape` states its properties |
| Rag.SanitizeFtsQueryShape | mcp_app/tools/rag_search.py:18-28 | `sanitize_fts_query` keeps only word characters with single spaces between runs, none at either end, and None gives "" |
| Rag.SanitizeFtsQuery | mcp_app/tools/rag_search.py:18-28 | `sanitize_fts_query`: the word runs joined by one space; `SanitizeFtsQueryShape` states its properties |
| Rag.VectorEmbedderFindsNothing | mcp_app/tools/rag_search.py:50-54 | the first attempt passes a vector where a function is expected, so it returns `[]` or raises as soon as there is a candidate |
| Rag.RagSearchOutcome | mcp_app/tools/rag_search.py:33-73 | missing arguments raise ValueError; an empty or missing sqlite_path raises SystemExit; rows come only from the single sanitised retry after an OperationalError |
| Rag.RagSearchExecute | mcp_app/tools/rag_search.py:33-73 | `execute` of `rag_search`: the argument checks, the store path, the first search and its single sanitised retry; `RagSearchOutcome` and `VectorEmbedderFindsNothing` state its properties |
| Progress.StateRecord | chatbot/services/progress.py:32-36 | the record is `{"state": state}` updated by `extra`, so keys in `extra` win |
| Progress.Lookup | chatbot/services/progress.py:39-42 | the record under `CACHE_PREFIX + key`, or `{"state": "error", "detail": "unknown key"}` |
| Progress.Aged | chatbot/services/progress.py:20-21 | after `seconds`, an entry survives iff its TTL was longer, with the TTL reduced |
| Progress.ProgressCache.NewProgress | chatbot/services/progress.py:23-29 | stores `{"state": "queued"}` under the key with a fresh TTL and returns the key |
| Progress.ProgressCache.SetState | chatbot/services/progress.py:32-37 | replaces the whole record with `StateRecord` and resets its TTL |
| Progress.ProgressCache.GetState | chatbot/services/progress.py:39-42 | an unknown key gives the default record; every stored record reports a state |
| Progress.ReadYourWrite | chatbot/services/progress.py:20-42 | a write is read back unchanged within 600 s |
| Progress.WriteExpires | chatbot/services/progress.py:21-42 | after 600 s, the key reads as unknown |
| Progress.LastWriteWins | chatbot/services/progress.py:32-37 | two writes to a key leave only the second |
| Progress.PutOthersUnchanged | chatbot/services/progress.py:32-37 | a write to one key leaves the others as they were |
| Progress.NewProgressQueued | chatbot/services/progress.py:23-42 | a new key reads as "queued" until it expires |
| Progress.SetStateReadsBack | chatbot/services/progress.py:32-42 | without a "state" in `extra`, the state written is read back |
| RateLimit.RateLimiter.CheckAndIncrementAnon | chatbot/utils/rate_limit.py:22-41 | the decision and the new counters are those of `Check` on the old counters |
| RateLimit.RateLimiter.DailyUsedForIp | chatbot/utils/rate_limit.py:44-46 | 0 without a daily counter, and never above the daily limit |
| RateLimit.Check | chatbot/utils/rate_limit.py:22-41 | the decision and the new counters for one anonymous request; `AllowedIff` and the lemmas below state its properties |
| RateLimit.ClientIp | chatbot/utils/rate_limit.py:16-20 | `get_client_ip`; `ClientIpFirstHop` and `ClientIpNoProxy` state its properties |
| RateLimit.AllowedIff | chatbot/utils/rate_limit.py:22-41 | a request is allowed iff both the minute and the daily counter are below their limits |
| RateLimit.MinuteLimitRefuses | chatbot/utils/rate_limit.py:27-28 | at the minute limit the request is refused with both remaining counts 0 and nothing changed |
| RateLimit.DailyLimitSpendsMinute | chatbot/utils/rate_limit.py:29-35 | a daily refusal still uses one minute slot and leaves the daily counter alone |
| RateLimit.AllowedCountsOnce | chatbot/utils/rate_limit.py:29-41 | an allowed request adds exactly 1 to both counters and nothing else; it reports `max(0, limit - new count)` |
| RateLimit.OtherAddressesUntouched | chatbot/utils/rate_limit.py:22-41 | another address's counters are untouched |
| RateLimit.CheckKeepsBounds | chatbot/utils/rate_limit.py:27-36 | counters never exceed their limits, through checks and expiries |
| RateLimit.ThreePerMinute | chatbot/utils/rate_limit.py:7-41 | with default limits, a fresh minute allows three requests and refuses the fourth |
| RateLimit.ClientIpFirstHop | chatbot/utils/rate_limit.py:16-19 | with X-Forwarded-For, the first comma-separated entry, stripped |
| RateLimit.ClientIpNoProxy | chatbot/utils/rate_limit.py:16-20 | without the header, REMOTE_ADDR, or "0.0.0.0" |
| RateLimit.KeysDistinct | chatbot/utils/rate_limit.py:24-32 | minute and day keys never collide, and each names one address |
| Billing.EstimateTokens | chatbot/services/billing.py:45-48 | `max(1, ceil(n/4))`: at least 1, at least n/4, and the least such value |
| Billing.EstimateUsageFromText | chatbot/services/billing.py:45-49 | each count is the estimate for its text's length |
| Billing.EstimateAtLeastTwo | chatbot/services/billing.py:18-49 | `total_tokens` is at least 2 and covers a quarter of both texts |
| Billing.EstimateStep | chatbot/services/billing.py:45-48 | four more characters cost exactly one more token |
| Billing.DailyQuota | chatbot/services/billing.py:7-34 | 200 for an authenticated user, 20 otherwise |
| Billing.RemainingQuota | chatbot/services/billing.py:36-37 | `max(0, quota - used)`: never negative, at most the quota when `used ≥ 0` |
| Billing.RemainingQuotaMonotone | chatbot/services/billing.py:36-37 | using more never leaves more quota |
| EmailVerification.ValidWithinWindow | chatbot_app/models.py:11-12 | valid iff at most 15 minutes old, still valid at exactly 15 minutes |
| EmailVerification.Verification.IsValid | chatbot_app/models.py:11-12 | `is_valid`: created no earlier than 15 minutes before now; `ValidWithinWindow` states its properties |
| EmailVerification.ValidityOnlyLapses | chatbot_app/models.py:11-12 | a fresh code is valid, and once invalid it stays invalid |
| ToolsManager.LoadSpec | mcp_app/tools_manager.py:46-77 | a cached module is returned without importing; otherwise a module that imports and has `execute` is returned and cached; anything else gives None and no cache entry |
| ToolsManager.LoadTransparent | mcp_app/tools_manager.py:46-77 | with a faithful cache, loading succeeds iff the tool imports with `execute`, and the cache stays faithful |
| ToolsManager.LoadMemoised | mcp_app/tools_manager.py:56-57 | loading again returns the same module and changes nothing |
| ToolsManager.ExecuteOutcome | mcp_app/tools_manager.py:79-100 | an unloadable tool gives "No se pudo cargar la herramienta"; a tool error is wrapped as "Error ejecutando la herramienta"; otherwise the tool's result |
| ToolsManager.ExecuteSpec | mcp_app/tools_manager.py:79-100 | `execute_tool` as a function of the cache: load, then run, with the two ValueError texts; `ExecuteOutcome` states its properties |
| ToolsManager.AvailableTools | mcp_app/tools_manager.py:32-44 | the listed tools, or `[]` for a missing or malformed file |
| ToolsManager.FirstNamedIsFirst | mcp_app/tools_manager.py:102-116 | `get_tool_info` returns the first entry with that name, and None when no entry has it |
| ToolsManager.ValidateReports | mcp_app/tools_manager.py:118-159 | validation reports one error per nameless or unloadable entry, in order, and records every loaded tool; a number or `True` as name is reported as a module that does not load, and a list or object name ends validation with its TypeError |
| ToolsManager.EntryName | mcp_app/tools_manager.py:129-138 | a missing or falsy name is no name; a string is a module name; a number or `True` is shown as `str()` shows it; a non-empty list or object cannot be looked up |
| ToolsManager.ToolsManager.constructor | mcp_app/tools_manager.py:18-30 | a new manager has empty cache and loaded-tools maps |
| ToolsManager.ToolsManager.GetAvailableTools | mcp_app/tools_manager.py:32-44 | the listed tools, or `[]` for a missing or malformed file |
| ToolsManager.ToolsManager.LoadToolModule | mcp_app/tools_manager.py:46-77 | the result and new cache are `LoadSpec` of the old cache |
| ToolsManager.ToolsManager.ExecuteTool | mcp_app/tools_manager.py:79-100 | the result and new cache are those of loading and running the tool |
| ToolsManager.ToolsManager.GetToolInfo | mcp_app/tools_manager.py:102-116 | the loop returns the first entry with that name |
| ToolsManager.ToolsManager.ValidateToolStructure | mcp_app/tools_manager.py:118-159 | the loop ends with the errors, cache, loaded tools and escaping TypeError of `ValidateFrom`, whose properties `ValidateReports` states |
| ToolRegistry.FirstText | mcp_app/tools.py:86-87 | `content[0]["text"]` exists only for a list whose first item is an object with "text" |
| ToolRegistry.ShapeOutcome | mcp_app/tools/__init__.py:74-84 | the wrapper answers `ok: True` iff the tool returned and any "content" is empty or readable, with the first text, "No content" or `str(result)`; otherwise `ok: False` with the message |
| ToolRegistry.CallTool | mcp_app/tools/__init__.py:47-49 | delegates to the manager's `execute_tool` |
| ToolRegistry.ToolWrapper | mcp_app/tools/__init__.py:74-85 | runs the tool through the manager and shapes the result as `ShapeOutcome` states |
| ToolRegistry.CallToolAsync | mcp_app/tools/__init__.py:34-45 | imports the tool directly and runs its `execute`; an import failure gives the import error |
| ToolRegistry.AsyncAgreesWithManager | mcp_app/tools/__init__.py:34-49 | for a loadable tool, the direct call and the manager's call agree, up to the manager's error prefix |
| ToolRegistry.RegisterOutcome | mcp_app/tools.py:44-114 | registration fails iff some entry lacks "name" or "description" or is named by a list or an object (the cache lookup's TypeError); otherwise exactly the loadable, successfully registered tools are registered, in order |
| ToolRegistry.EmptyListNameRaises | mcp_app/tools/__init__.py:52-68 | an entry named `[]` passes validation as nameless, and the registration loop then raises `unhashable type: 'list'` |
| ToolRegistry.RegisterTools | mcp_app/tools/__init__.py:52-97 | validation runs first; its TypeError escapes, or its errors are printed and the registration loop follows, whose KeyError or unhashable-name TypeError escapes |
| Processor.Insert | mcp_app/processor.py:8 | a dict insertion: the table is updated, and a new key goes last in key order |
| Processor.DefinitionsTable | mcp_app/processor.py:6-8 | definitions are keyed by name, and the last duplicate wins |
| Processor.MCPProcessor.constructor | mcp_app/processor.py:6-8 | the processor holds the definitions built from the entries |
| Processor.MCPProcessor.ListFunctions | mcp_app/processor.py:10-11 | exactly the defined names, each once |
| Processor.RunRefuses | mcp_app/processor.py:13-22 | an unknown operation raises ValueError; a known one not starting with `get_` raises NotImplementedError |
| Processor.Run | mcp_app/processor.py:13-22 | `run(operation, parameters)`: an unknown operation or one not starting with `get_` raises, a `get_` one queries its model; `RunRefuses` and `RunGet` state its properties |
| Processor.RunGet | mcp_app/processor.py:16-22 | a `get_` operation queries the model class found for its name with `filters`, default `{}` |
| Processor.ModelNameOf | mcp_app/processor.py:17-18 | for `get_<rest>`, the model name is `rest` capitalised and equal to it case-insensitively |
| Processor.RunQueriesModel | mcp_app/processor.py:13-28 | `get_<rest>` queries the first model whose name matches `rest` case-insensitively, or raises "Modelo … no encontrado." |
| Processor.ModelClass | mcp_app/processor.py:24-28 | a case-insensitive match among the models, or ValueError when none matches |
| Processor.ModelClassFirst | mcp_app/processor.py:24-28 | the first match in order is the one returned |
| Processor.ChainContext | mcp_app/processor.py:37-48 | the chain succeeds iff every step does; the context is keyed by operation, and a later step with the same operation overwrites |
| Processor.Chain | mcp_app/processor.py:37-48 | `execute_chain` as a function: each step run in order, its result stored under its operation, the first failure escaping; `ChainContext` states its properties |
| Processor.MCPProcessor.ExecuteChain | mcp_app/processor.py:37-48 | the loop over the steps ends with `Chain` |
| Processor.CollectStopsAt | mcp_app/processor.py:42-48 | the first failing step ends the chain with its error |
| Asgi.SafePayload | pjud/asgi.py:51-58 | a decoded body is returned as is, and an empty or unparseable one gives `{}` |
| Asgi.Endpoint | pjud/asgi.py:45-207 | `mcp_endpoint`: GET, OPTIONS, or a POST answered by `Decide` on the decoded payload; `GetAndOptions`, `EmptyBodyInvalid` and `NonObjectBody` state its properties |
| Asgi.Decide | pjud/asgi.py:71-207 | the POST branch, method by method, with the 500 handler; `ResponsesWellFormed` and the lemmas below state its properties |
| Asgi.RpcBody | pjud/asgi.py:93-207 | every JSON-RPC body has "jsonrpc" "2.0", the request id, and either a result or an error object with code and message |
| Asgi.GetAndOptions | pjud/asgi.py:61-69 | GET gives 200 with empty text, and OPTIONS gives 204 |
| Asgi.EmptyBodyInvalid | pjud/asgi.py:51-189 | an empty or unparseable body gives −32600 with status 400 |
| Asgi.NonObjectBody | pjud/asgi.py:72-207 | a JSON body that is not an object fails on `.get` and gives −32000, status 500 and id null |
| Asgi.NotificationsFirst | pjud/asgi.py:80-85 | `initialized` and `notifications/*` get no body, before any other method is considered |
| Asgi.KnownMethods | pjud/asgi.py:88-180 | `initialize` gives protocol version 2025-03-26; `tools/list` and `prompts/list` give the tools array; `shutdown` gives `{}` |
| Asgi.UnknownMethod | pjud/asgi.py:192-197 | any other method gives −32601, "Method not found", status 404 |
| Asgi.ToolsCallRunsTool | pjud/asgi.py:147-171 | `tools/call` runs the named tool's `execute` on its arguments (default `{}`), and an import failure gives −32602 |
| Asgi.ToolCallWellFormed | pjud/asgi.py:121-171 | a tool call succeeds with 200 and the id, or fails with −32602 (200, id) or −32000 (500, id null) |
| Asgi.ResponsesWellFormed | pjud/asgi.py:72-207 | every answer has status 200 on success, the code's status on failure, one of the four codes, and the request id, except id null for internal errors |
| Asgi.ToolsJson | pjud/asgi.py:110-118 | one JSON object per listed tool, in order |
| Catalogue.Keep | mcp_app/tools/get_competencias.py:14-15 | keeps exactly the valid names, in their order |
| Catalogue.SelectValidNames | mcp_app/tools/get_competencias.py:14-15 | filtering a list of names is `Keep` of those names |
| Catalogue.SelectionOfNames | mcp_app/tools/get_competencias.py:13-15 | the selection is the valid requested fields, or `id, nombre` when none remain or none were asked |
| Catalogue.Project | mcp_app/tools/get_competencias.py:17 | `values(*fields)` keeps exactly the selected fields of a row |
| Catalogue.Values | mcp_app/tools/get_competencias.py:17 | one projected row per row, in order |
| Catalogue.SuccessOf | mcp_app/tools/get_competencias.py:19 | a success answer whose count is the length of its data |
| Catalogue.FailureOf | mcp_app/tools/get_competencias.py:21-23 | an error answer with its message |
| Catalogue.GetCompetencias | mcp_app/tools/get_competencias.py:7-23 | `execute` of `get_competencias`; `CompetenciasDefault` and `CompetenciasFields` state its properties |
| Catalogue.GetCortes | mcp_app/tools/get_cortes.py:7-36 | `execute` of `get_cortes`; `ParentRequired`, `ListingAnswer` and `PageBounds` state its properties |
| Catalogue.GetTribunales | mcp_app/tools/get_tribunales.py:7-35 | `execute` of `get_tribunales`; `DefaultPage` and `TribunalDefaultSelection` state its properties |
| Catalogue.CompetenciasDefault | mcp_app/tools/get_competencias.py:13-19 | without `fields`, every competence with `id, nombre` |
| Catalogue.CompetenciasFields | mcp_app/tools/get_competencias.py:13-19 | with `fields`, every competence projected on the valid requested fields |
| Catalogue.ParentRequired | mcp_app/tools/get_cortes.py:14-36 | without `competencia` (cortes) or `corte` (tribunales), an error answer |
| Catalogue.Children | mcp_app/tools/get_cortes.py:14-15 | the filter keeps exactly the rows under that parent |
| Catalogue.PageBounds | mcp_app/tools/get_cortes.py:19-23 | the page is rows `offset .. offset+limit` of the ordered rows, at most `limit` of them |
| Catalogue.NegativeRefused | mcp_app/tools/get_cortes.py:20-23 | a negative offset or end raises, which gives an error answer |
| Catalogue.DefaultPage | mcp_app/tools/get_tribunales.py:19-22 | the defaults are ordering by `nombre`, limit 100 and offset 0 |
| Catalogue.TribunalDefaultSelection | mcp_app/tools/get_tribunales.py:25-27 | the default fields reduce to `id, nombre`, because `jurisdiccion` and `tipo_causa` are not Tribunal fields |
| Catalogue.AnswersWellFormed | mcp_app/tools/get_cortes.py:30-36 | every answer of the three tools is a success with `count == len(data)` or an error with a message |

## Left out

- Selenium details are not modelled: XPaths, implicit waits, sleeps, Chrome options and the download directory. The browser and its pages are the `Portal` oracle.
- The request headers and file writes are not modelled. `descargas_pjud.json`, the printing and the logging are not modelled either. A saved file is represented by its name.
- Causas.ConsultaCausas.BuscarSiguienteExistente: the source loop is `while True` with no bound. The model takes a `fuel` count, and running out of fuel returns None. This case is not in the source.
- `goDetalleCausa` and `download_pdf(xpath)`, as called from get_demanda.py:59-67, are not modelled. Both catch their own failures, and `run` only logs what they return. The page they open is part of the portal's detail table.
- GetDemanda.Run: `send_step` channel messages are not modelled, and neither is the logger reassignment.
- GetDemanda.Run: the close of the scraper runs on every path, but it is not part of the outcome. The scraper is local to `run`.
- Ingest: several inputs are parameters. These are the pypdf reader, the embedder, the file listing (`sorted(glob)`), the clock (the dated directory) and file sizes.
- Ingest: directory and file copying, and the choice of the SQLite path, are not modelled. The case only receives the resulting paths.
- Ingest.McpIngestDemand: mcp_app/lib/ingest_demand.py does not compile. The `try:` opened at line 72 in `_resolve_or_create_demand` has no `except` or `finally` before line 124, so importing the module raises SyntaxError and no line of `ingest_demand` ever runs. The member models the text of lines 125-193 as if the module compiled. In that text an undefined `self` raises at line 140, so nothing after that line is modelled.
- Ingest.CaseTable.Resolve: the Django query set is a sequence in creation order. "Newest" means last in that order. The `title` lookups and `create(title=…)` raise as written, so the method returns only existing ids or those errors; see Findings.
- Ingest.ResolveOrder: the intended creation is stated with `titulo` only. The court, type and roll fields a real `Causa` row would also need are not modelled.
- SqliteDb: FTS5 matching, bm25 and the porter tokenizer are the `SearchEnv` oracle. Cosine similarity over float32 vectors is an oracle too, with scores as reals.
- SqliteDb.HybridSearch: Python's `sort` is stable, and the model's insertion sort does not promise the same order among equal scores.
- SqliteDb: connections, `commit` and schema creation are not modelled. Rollback on failure is an explicit `Rollback` of the saved tables.
- Rag: the system prompt is a `Host` parameter.
- Rag: the trace's "model", "ts" and elapsed-time fields are not modelled. They come from settings and the clock.
- Rag: the score format is a parameter `fmt`.
- Rag.SanitizeFtsQuery and Rag.SanitizeFtsQueryShape: `\w` (`Rag.WordChar`) is modelled on Latin-1 letters, digits and `_` only, so a character above U+00FF becomes a space where Python's Unicode `\w` keeps it.
- Rag.RagQueryExecute: the arguments are taken to have their documented types, `question` a string and `k` an integer when present. The source reads both with `.get`, so a missing question runs as `None` and an explicit null `k` reaches the search; those cases are not modelled.
- Rag.ChatUntilConclusive: the round function is a ghost parameter. It connects the method to the chat specification, and `Rag.RoundsPlay` shows the real rounds meet it.
- Progress: the Django cache is a map with a TTL per entry. Expiry is an explicit `Elapse` step.
- Progress: the uuid key of `new_progress` is a parameter.
- Progress: the Celery task wrapper of `set_state` is not modelled.
- RateLimit: the minute and day TTLs are an explicit `Expire` step. The daily timeout `_seconds_until_midnight` reads the clock.
- RateLimit.ThreePerMinute and RateLimit.CheckKeepsBounds hold for requests handled one after another. The cache reads and writes are not atomic, so concurrent requests can read the same counters and all be allowed; concurrency is not modelled.
- RateLimit and Billing: the limits use the default settings values (3, 20 and 200).
- Billing: `estimated_cost_usd` is floating point and is not modelled. `debit` is `pass`, so there is nothing to model. `ceil` is exact integer arithmetic on lengths.
- ToolsManager: a tool name that is a number or `True` is shown with `str()` and is taken to name no module of the package, so it is reported as unloadable and never cached. A non-empty list or object as name raises TypeError at the cache lookup, and that error is the `raised` part of the validation.
- ToolRegistry: in the registration loop, an entry named by None, a boolean or a number is skipped, because such a name is taken to name no module of the package. An entry named by a list or an object raises the cache lookup's TypeError.
- ToolsManager and ToolRegistry: tool-list entries that are not JSON objects are not modelled.
- ToolRegistry.CallToolAsync: threading, anyio and awaiting a coroutine result are not modelled. The tool's `execute` is a plain function.
- ToolRegistry: the global manager's cache is not threaded across separate requests.
- ToolRegistry: the `call_tool` in mcp_app/tools.py imports the module directly and is shadowed by the package mcp_app/tools/. `ToolRegistry.CallToolAsync` models its logic.
- Asgi: CORS headers, routing and the ASGI application object are not modelled.
- Asgi: JSON serialisation failures of a tool result are not modelled.
- Processor.MCPProcessor.constructor: it requires that the definitions build, where the source raises from `__init__`.
- Processor: `run_query`'s `issubclass` check is folded into the model list.
- Processor: Django model queries are the `query` oracle.
- Processor: `Lower` and `Capitalize` change ASCII letters only, where Python's `str.lower` and `str.capitalize` are Unicode-aware. The definitions table keys JSON values as they are, whereas Python's dict treats `True` and `1` as one key. No contract depends on either.
- Catalogue.GetCompetencias, Catalogue.GetCortes and Catalogue.GetTribunales: the arguments are taken to be a JSON object. Through `tools/call`, a null or list `arguments` makes the tools' `in` test or `.get` raise and answer with an error status; that case is not modelled.
- Catalogue: only forward model fields are modelled, not reverse relations. Django `filter`, `order_by`, `values` and `int()` are oracles or sequence operations.
- Python exception texts, for example `'int' object has no attribute 'get'`, are oracles or fixed strings where the source depends on them.
- The `__main__` demo of causas.py is not part of this model. Neither are civil/lib/utils.py, the Django views and the management commands.

## Findings

| source | as written | input that shows it | evidently intended | confidence | as-written member | corrected member |
|---|---|---|---|---|---|---|
| causas_app/lib/causas.py:321-333 | `conRolCausa` is incremented before the search. When that search raises, `continue` goes on to increment again, so the roll whose search failed is never searched again | A portal whose first re-query (roll 11, from roll 10) raises, and whose later re-queries all find a case. The loop returns 12, and roll 11 was never confirmed absent | Retry the same roll after restarting the browser, so that the roll returned is the next existing one | not executed | Causas.NextExistingSkipsErroredRoll | Causas.NextExistingRetryingSpec |
| civil/lib/ingest_demand.py:59-99 | `Causa` has a `titulo` field and no `title` field. `filter(title=…)` raises FieldError and `create(title=…)` raises TypeError, and the call at line 115 is outside any `try`, so the exception leaves `ingest_demand` | `demand_id` None, title "Demanda", and a case titled "Demanda" already stored: the lookup raises instead of returning that case | Filter and create by `titulo`; creation would also need the court fields | not executed | Ingest.TitleLookupRaisesExample | Ingest.ResolveOrder |
