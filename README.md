# ir-explorer indexer: a Dafny model of the upload pipeline

The indexer (`main.py`) reads an information-retrieval dataset (documents,
queries and relevance judgments, "qrels") and posts it to the ir-explorer
backend. This project models its core and proves what that core promises:

- `sanitize`, which removes every NUL character from an optional string
  (module `Sanitizer`);
- `itertools.batched` as the script uses it, which splits a sequence into
  chunks of the batch size (module `Batching`);
- the JSON bodies built for `add_documents`, `add_queries` and `add_qrels`
  (module `Payloads`);
- `main` after argument parsing and dataset loading (module `Pipeline`).
  The backend is a `Backend` object whose `log` field records each POST as a
  `Request` value. `Run` issues them with three loops, one per upload
  stage. Its postcondition says the log grows by exactly `Plan(ds, cfg)`.
  Module `PipelineProperties` proves what `Plan` guarantees: the stage
  order, the batch sizes, and that every record is sent once, in order,
  sanitized.
- module `Scenarios` works out two concrete runs. One has three documents
  in batches of two, one of them with a NUL. The other has a judgment of
  relevance 0 that is still sent.

The dataset is given as three sequences in iteration order. The
command-line arguments are a `Config` value. The script's defaults are batch
size 256, language "English", minimum relevance 1 and no corpus upload.

A batch size that `itertools.batched` refuses is not a precondition of
`Run`. `batched` raises `ValueError` when its size is below 1, and
`OverflowError` when the size does not fit a C `Py_ssize_t` (above
2^63 - 1). In `main.py` the first call to `batched` comes after one request
has already been posted: `create_corpus` when the corpus is added, otherwise
`create_dataset`. `Run` therefore ends with `InvalidBatchSize` after logging
exactly that one request.

## Model

| member | source | states |
|---|---|---|
| Sanitizer.StripNul | main.py:15 | the result contains no NUL and is no longer than the input |
| Sanitizer.Sanitize | main.py:9-15 | an absent value stays absent and a present one stays present; a present result holds no NUL |
| Sanitizer.StripNulLength | main.py:15 | the result's length is the input's length minus its number of NULs |
| Sanitizer.StripNulContents | main.py:15 | every non-NUL character keeps its multiplicity, and NULs are gone |
| Sanitizer.StripNulAppend | main.py:15 | stripping a concatenation is concatenating the stripped parts, so the kept characters stay in input order |
| Sanitizer.StripNulKeeps | main.py:15 | a non-NUL character at position i appears in the result, at the position given by the number of non-NULs before it |
| Sanitizer.StripNulFixpoint | main.py:15 | a string is left unchanged if and only if it holds no NUL |
| Sanitizer.SanitizeIdempotent | main.py:9-15 | sanitizing twice gives the same as sanitizing once |
| Batching.Batch | main.py:70 | there are no chunks exactly when the input is empty; every chunk holds between 1 and b items |
| Batching.BatchFlatten | main.py:70 | joining the chunks gives back the input exactly, in order |
| Batching.BatchCount | main.py:70 | the number of chunks is ceil(N / b), which is zero for an empty input |
| Batching.BatchAt | main.py:70 | chunk i is the input slice from i*b up to (i+1)*b, cut at the end of the input |
| Batching.BatchSizes | main.py:70 | every chunk except the last has exactly b items; the last has between 1 and b |
| Batching.EstimatedTotalOvercount | main.py:71 | the progress total n / b + 1 equals the chunk count plus one when b divides n, and equals the chunk count otherwise |
| Payloads.DocumentsPayload | main.py:76-83 | one entry per document, in order, with the same id; the entry title is the sanitized title (present exactly when the document has one) and the entry text is the stripped text, so neither holds a NUL |
| Payloads.QueriesPayload | main.py:103-112 | one entry per query, in order, with the same id; the entry text is the stripped text and the entry description the sanitized description (present exactly when the query has one), so neither holds a NUL |
| Payloads.QrelsPayload | main.py:123-130 | one entry per judgment, in order, with query id, document id and relevance copied unchanged |
| Payloads.DocumentsPayloadFaithful | main.py:79-80 | entry text and title keep every non-NUL character of the document's with its multiplicity and lose all NULs; the text length drops by the NUL count; a text or title without NUL is sent as read |
| Payloads.QueriesPayloadFaithful | main.py:106-109 | entry text and description keep every non-NUL character of the query's with its multiplicity and lose all NULs; the text length drops by the NUL count; a text or description without NUL is sent as read |
| Pipeline.UploadDocuments | main.py:69-85 | the log grows by one add_documents request per `batched` chunk of the documents, in order |
| Pipeline.UploadQueries | main.py:96-114 | the log grows by one add_queries request per chunk of the queries, in order |
| Pipeline.UploadQrels | main.py:116-132 | the log grows by one add_qrels request per chunk of the judgments, in order |
| Pipeline.Run | main.py:64-132 | the log grows by exactly Plan(ds, cfg); the run completes if and only if the batch size lies in 1 .. 2^63 - 1, the sizes `batched` accepts |
| PipelineProperties.PlanStageOrder | main.py:64-132 | endpoints in order: create_corpus and ceil(D/b) add_documents only when the corpus is added, then one create_dataset, then ceil(Q/b) add_queries, then ceil(R/b) add_qrels, nothing else |
| PipelineProperties.PlanSendsDocuments | main.py:64-85 | the document entries of all add_documents requests, concatenated, are exactly the sanitized entries of every document in dataset order when the corpus flag is set, and nothing otherwise |
| PipelineProperties.PlanSendsQueries | main.py:96-114 | the query entries of all add_queries requests, concatenated, are exactly the sanitized entries of every query in dataset order |
| PipelineProperties.PlanSendsQrels | main.py:116-132 | the judgment entries of all add_qrels requests, concatenated, are exactly the entries of every judgment in dataset order, none filtered out |
| PipelineProperties.PlanBatchesWellSized | main.py:69-132 | every upload request carries between 1 and batch-size records |
| PipelineProperties.PlanSendsEveryQrel | main.py:116-132 | every judgment is sent with its relevance, whatever the minimum relevance |
| PipelineProperties.PlanRejectedBatchSize | main.py:64-97 | with a batch size `batched` refuses, the only request is create_corpus when the corpus is added and create_dataset otherwise; nothing is uploaded |
| PipelineProperties.PlanCreatesCorpusIff | main.py:64-68 | create_corpus is issued if and only if the corpus flag is set, for every batch size |
| Scenarios.ThreeDocumentsInTwoBatches | main.py:64-94 | three documents with batch size 2 give create_corpus, a batch of two with the NUL stripped, a batch of one, then create_dataset |
| Scenarios.IrrelevantQrelStillSent | main.py:87-132 | a judgment of relevance 0 with minimum relevance 1 is still sent in an add_qrels request |

## Left out

- Pipeline.Run: a batch size in 1 .. 2^63 - 1 that is too large for one tuple of that many slots makes the first `next()` on `batched` raise `MemoryError`, because the tuple is allocated before any item is fetched, so this happens even for a stage with no items. Above about 2^60 slots CPython refuses the allocation whatever the memory, and in practice the limit is far lower. `Run` completes for every size in 1 .. 2^63 - 1.
- Argument parsing (main.py:19-58): the arguments are the `Config` value, and the defaults are given above.
- HTTP (main.py:60, and the `requests.post` calls): each POST appends a `Request` value to the backend's log. The URL is left out, and so are responses, which the script never reads.
- Transport failures: a real POST can raise and abort the run. `Backend.Post` always succeeds, so the model does not state that an abort leaves a prefix of `Plan` in the log.
- Dataset loading with `ir_datasets.load` and its iterators (main.py:62): the dataset is three given sequences. The model does not capture their laziness or single pass.
- `getattr` with attribute names chosen at run time (main.py:79-80, 106-108): records are datatypes with a required text field and an optional title or description. A record missing its text attribute would make the script raise; that case is not modelled.
- The `tqdm` progress display (main.py:69-73, 96-100, 116-120): only its total is modelled, as `EstimatedTotal`. Batching.EstimatedTotalOvercount uses integer division where the script uses float division followed by `int`. The two agree for the counts that occur, but float rounding for counts beyond 2^53 is not modelled.
- Lone surrogates: a Dafny `char` is a Unicode scalar value. A Python string may also hold lone surrogate code points, which the model cannot represent.
