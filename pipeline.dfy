/**
 * The upload pipeline of main.py's `main`: optionally create the corpus and
 * send its documents, then create the dataset, then send its queries and
 * its relevance judgments, one POST per batch. The backend is a log of the
 * requests it received; arguments and the dataset are plain parameters.
 */
module Pipeline {
  import opened Wrappers
  import opened Batching
  import opened Payloads

  /** The command-line arguments the pipeline reads. */
  datatype Config = Config(
    datasetName: string,
    corpusName: string,
    batchSize: int,
    language: string,
    minRelevance: int,
    addCorpus: bool)

  /** What the dataset library yields, in iteration order. */
  datatype Dataset = Dataset(docs: seq<Document>, queries: seq<Query>, qrels: seq<Qrel>)

  /** One POST: its endpoint, its query parameters and its JSON body. */
  datatype Request =
    | CreateCorpus(name: string, language: string)
    | AddDocuments(corpusName: string, documents: seq<DocumentEntry>)
    | CreateDataset(name: string, corpusName: string, minRelevance: int)
    | AddQueries(corpusName: string, datasetName: string, queries: seq<QueryEntry>)
    | AddQrels(corpusName: string, datasetName: string, qrels: seq<QrelEntry>)

  /** How a run ends: normally, or with `batched` rejecting the batch size (ValueError or OverflowError). */
  datatype Outcome = Completed | InvalidBatchSize

  /** The URL path a request is posted to. */
  function Endpoint(r: Request): string
  {
    match r
    case CreateCorpus(_, _) => "/create_corpus"
    case AddDocuments(_, _) => "/add_documents"
    case CreateDataset(_, _, _) => "/create_dataset"
    case AddQueries(_, _, _) => "/add_queries"
    case AddQrels(_, _, _) => "/add_qrels"
  }

  /** The backend as the pipeline sees it: the requests it has received, in order. */
  class Backend {
    var log: seq<Request>

    constructor ()
      ensures log == []
    {
      log := [];
    }

    /** `requests.post`: the response is never looked at. */
    method Post(r: Request)
      modifies this
      ensures log == old(log) + [r]
    {
      log := log + [r];
    }
  }

  /** One add_documents request per batch. */
  function DocumentRequests(corpusName: string, batches: seq<seq<Document>>): seq<Request>
  {
    if batches == [] then []
    else [AddDocuments(corpusName, DocumentsPayload(batches[0]))] + DocumentRequests(corpusName, batches[1..])
  }

  /** One add_queries request per batch. */
  function QueryRequests(cfg: Config, batches: seq<seq<Query>>): seq<Request>
  {
    if batches == [] then []
    else [AddQueries(cfg.corpusName, cfg.datasetName, QueriesPayload(batches[0]))] + QueryRequests(cfg, batches[1..])
  }

  /** One add_qrels request per batch. */
  function QrelRequests(cfg: Config, batches: seq<seq<Qrel>>): seq<Request>
  {
    if batches == [] then []
    else [AddQrels(cfg.corpusName, cfg.datasetName, QrelsPayload(batches[0]))] + QrelRequests(cfg, batches[1..])
  }

  /**
   * Every request a run issues, in order. A batch size `batched` refuses
   * (below 1, or beyond a C `Py_ssize_t`) makes its first call fail, which
   * happens after one request has gone out.
   */
  function Plan(ds: Dataset, cfg: Config): seq<Request>
  {
    var createCorpus := CreateCorpus(cfg.corpusName, cfg.language);
    var createDataset := CreateDataset(cfg.datasetName, cfg.corpusName, cfg.minRelevance);
    if !ValidBatchSize(cfg.batchSize) then
      if cfg.addCorpus then [createCorpus] else [createDataset]
    else
      var b := cfg.batchSize;
      (if cfg.addCorpus then [createCorpus] + DocumentRequests(cfg.corpusName, Batch(ds.docs, b)) else [])
      + [createDataset]
      + QueryRequests(cfg, Batch(ds.queries, b))
      + QrelRequests(cfg, Batch(ds.qrels, b))
  }

  /**
   * One turn of the loop: after the request for the next chunk of
   * items[start..] is logged, what is left to send is the requests of the
   * items after that chunk.
   */
  lemma DocumentRequestsStep(corpusName: string, items: seq<Document>, start: nat, b: nat, log: seq<Request>)
    requires b >= 1 && start < |items|
    ensures (log + [AddDocuments(corpusName, DocumentsPayload(items[start..Min(start + b, |items|)]))]) + DocumentRequests(corpusName, Batch(items[Min(start + b, |items|)..], b))
         == log + DocumentRequests(corpusName, Batch(items[start..], b))
  {
    BatchStep(items, start, b);
    var rest := Batch(items[Min(start + b, |items|)..], b);
    assert ([items[start..Min(start + b, |items|)]] + rest)[1..] == rest;
  }

  /**
   * One turn of the loop: after the request for the next chunk of
   * items[start..] is logged, what is left to send is the requests of the
   * items after that chunk.
   */
  lemma QueryRequestsStep(cfg: Config, items: seq<Query>, start: nat, b: nat, log: seq<Request>)
    requires b >= 1 && start < |items|
    ensures (log + [AddQueries(cfg.corpusName, cfg.datasetName, QueriesPayload(items[start..Min(start + b, |items|)]))]) + QueryRequests(cfg, Batch(items[Min(start + b, |items|)..], b))
         == log + QueryRequests(cfg, Batch(items[start..], b))
  {
    BatchStep(items, start, b);
    var rest := Batch(items[Min(start + b, |items|)..], b);
    assert ([items[start..Min(start + b, |items|)]] + rest)[1..] == rest;
  }

  /**
   * One turn of the loop: after the request for the next chunk of
   * items[start..] is logged, what is left to send is the requests of the
   * items after that chunk.
   */
  lemma QrelRequestsStep(cfg: Config, items: seq<Qrel>, start: nat, b: nat, log: seq<Request>)
    requires b >= 1 && start < |items|
    ensures (log + [AddQrels(cfg.corpusName, cfg.datasetName, QrelsPayload(items[start..Min(start + b, |items|)]))]) + QrelRequests(cfg, Batch(items[Min(start + b, |items|)..], b))
         == log + QrelRequests(cfg, Batch(items[start..], b))
  {
    BatchStep(items, start, b);
    var rest := Batch(items[Min(start + b, |items|)..], b);
    assert ([items[start..Min(start + b, |items|)]] + rest)[1..] == rest;
  }

  /** The documents loop: one add_documents POST per `batched` chunk. */
  method UploadDocuments(backend: Backend, corpusName: string, docs: seq<Document>, b: nat)
    requires b >= 1
    modifies backend
    ensures backend.log == old(backend.log) + DocumentRequests(corpusName, Batch(docs, b))
  {
    var start := 0;
    while start < |docs|
      invariant start <= |docs|
      invariant backend.log + DocumentRequests(corpusName, Batch(docs[start..], b))
             == old(backend.log) + DocumentRequests(corpusName, Batch(docs, b))
    {
      var batch := docs[start..Min(start + b, |docs|)];
      ghost var before := backend.log;
      backend.Post(AddDocuments(corpusName, DocumentsPayload(batch)));
      DocumentRequestsStep(corpusName, docs, start, b, before);
      start := start + |batch|;
    }
    assert docs[start..] == [];
  }

  /** The queries loop: one add_queries POST per chunk. */
  method UploadQueries(backend: Backend, cfg: Config, queries: seq<Query>, b: nat)
    requires b >= 1
    modifies backend
    ensures backend.log == old(backend.log) + QueryRequests(cfg, Batch(queries, b))
  {
    var start := 0;
    while start < |queries|
      invariant start <= |queries|
      invariant backend.log + QueryRequests(cfg, Batch(queries[start..], b))
             == old(backend.log) + QueryRequests(cfg, Batch(queries, b))
    {
      var batch := queries[start..Min(start + b, |queries|)];
      ghost var before := backend.log;
      backend.Post(AddQueries(cfg.corpusName, cfg.datasetName, QueriesPayload(batch)));
      QueryRequestsStep(cfg, queries, start, b, before);
      start := start + |batch|;
    }
    assert queries[start..] == [];
  }

  /** The qrels loop: one add_qrels POST per chunk. */
  method UploadQrels(backend: Backend, cfg: Config, qrels: seq<Qrel>, b: nat)
    requires b >= 1
    modifies backend
    ensures backend.log == old(backend.log) + QrelRequests(cfg, Batch(qrels, b))
  {
    var start := 0;
    while start < |qrels|
      invariant start <= |qrels|
      invariant backend.log + QrelRequests(cfg, Batch(qrels[start..], b))
             == old(backend.log) + QrelRequests(cfg, Batch(qrels, b))
    {
      var batch := qrels[start..Min(start + b, |qrels|)];
      ghost var before := backend.log;
      backend.Post(AddQrels(cfg.corpusName, cfg.datasetName, QrelsPayload(batch)));
      QrelRequestsStep(cfg, qrels, start, b, before);
      start := start + |batch|;
    }
    assert qrels[start..] == [];
  }

  /** `main` after argument parsing and dataset loading. */
  method Run(backend: Backend, ds: Dataset, cfg: Config) returns (outcome: Outcome)
    modifies backend
    ensures outcome == (if ValidBatchSize(cfg.batchSize) then Completed else InvalidBatchSize)
    ensures backend.log == old(backend.log) + Plan(ds, cfg)
  {
    if cfg.addCorpus {
      backend.Post(CreateCorpus(cfg.corpusName, cfg.language));
      if !ValidBatchSize(cfg.batchSize) {
        return InvalidBatchSize;
      }
      UploadDocuments(backend, cfg.corpusName, ds.docs, cfg.batchSize);
    }
    backend.Post(CreateDataset(cfg.datasetName, cfg.corpusName, cfg.minRelevance));
    if !ValidBatchSize(cfg.batchSize) {
      return InvalidBatchSize;
    }
    UploadQueries(backend, cfg, ds.queries, cfg.batchSize);
    UploadQrels(backend, cfg, ds.qrels, cfg.batchSize);
    return Completed;
  }
}
