/**
 * What a run of the pipeline promises, stated over Plan, the requests Run
 * is proved to issue: the order of the endpoints, the size of every batch,
 * and that every record of the dataset reaches the backend exactly once,
 * in order.
 */
module PipelineProperties {
  import opened Batching
  import opened Payloads
  import opened Pipeline

  /** The endpoints of a request log, in order. */
  function Endpoints(log: seq<Request>): (r: seq<string>)
    ensures |r| == |log|
  {
    if log == [] then [] else [Endpoint(log[0])] + Endpoints(log[1..])
  }

  function Repeat(s: string, n: nat): (r: seq<string>)
    ensures |r| == n
  {
    if n == 0 then [] else [s] + Repeat(s, n - 1)
  }

  /** The document entries of every add_documents request, concatenated. */
  function SentDocuments(log: seq<Request>): seq<DocumentEntry>
  {
    if log == [] then []
    else (if log[0].AddDocuments? then log[0].documents else []) + SentDocuments(log[1..])
  }

  function SentQueries(log: seq<Request>): seq<QueryEntry>
  {
    if log == [] then []
    else (if log[0].AddQueries? then log[0].queries else []) + SentQueries(log[1..])
  }

  function SentQrels(log: seq<Request>): seq<QrelEntry>
  {
    if log == [] then []
    else (if log[0].AddQrels? then log[0].qrels else []) + SentQrels(log[1..])
  }

  /** The requests of the optional first stage. */
  function CorpusStage(ds: Dataset, cfg: Config): seq<Request>
    requires cfg.batchSize >= 1
  {
    if cfg.addCorpus then
      [CreateCorpus(cfg.corpusName, cfg.language)] + DocumentRequests(cfg.corpusName, Batch(ds.docs, cfg.batchSize))
    else []
  }

  /** An upload request carries between 1 and b records. */
  predicate WellSized(r: Request, b: nat)
  {
    match r
    case AddDocuments(_, documents) => 1 <= |documents| <= b
    case AddQueries(_, _, queries) => 1 <= |queries| <= b
    case AddQrels(_, _, qrels) => 1 <= |qrels| <= b
    case _ => true
  }

  lemma {:induction false} EndpointsAppend(a: seq<Request>, b: seq<Request>)
    ensures Endpoints(a + b) == Endpoints(a) + Endpoints(b)
  {
    if a == [] {
      assert a + b == b;
    } else {
      assert (a + b)[1..] == a[1..] + b;
      EndpointsAppend(a[1..], b);
    }
  }

  lemma {:induction false} SentDocumentsAppend(a: seq<Request>, b: seq<Request>)
    ensures SentDocuments(a + b) == SentDocuments(a) + SentDocuments(b)
  {
    if a == [] {
      assert a + b == b;
    } else {
      assert (a + b)[0] == a[0];
      assert (a + b)[1..] == a[1..] + b;
      SentDocumentsAppend(a[1..], b);
    }
  }

  lemma {:induction false} SentQueriesAppend(a: seq<Request>, b: seq<Request>)
    ensures SentQueries(a + b) == SentQueries(a) + SentQueries(b)
  {
    if a == [] {
      assert a + b == b;
    } else {
      assert (a + b)[0] == a[0];
      assert (a + b)[1..] == a[1..] + b;
      SentQueriesAppend(a[1..], b);
    }
  }

  lemma {:induction false} SentQrelsAppend(a: seq<Request>, b: seq<Request>)
    ensures SentQrels(a + b) == SentQrels(a) + SentQrels(b)
  {
    if a == [] {
      assert a + b == b;
    } else {
      assert (a + b)[0] == a[0];
      assert (a + b)[1..] == a[1..] + b;
      SentQrelsAppend(a[1..], b);
    }
  }

  lemma {:induction false} DocumentRequestsEndpoints(corpusName: string, batches: seq<seq<Document>>)
    ensures Endpoints(DocumentRequests(corpusName, batches)) == Repeat("/add_documents", |batches|)
  {
    if batches != [] {
      DocumentRequestsEndpoints(corpusName, batches[1..]);
    }
  }

  lemma {:induction false} DocumentRequestsSent(corpusName: string, batches: seq<seq<Document>>)
    ensures SentDocuments(DocumentRequests(corpusName, batches)) == DocumentsPayload(Flatten(batches))
    ensures SentQueries(DocumentRequests(corpusName, batches)) == []
    ensures SentQrels(DocumentRequests(corpusName, batches)) == []
  {
    if batches != [] {
      DocumentRequestsSent(corpusName, batches[1..]);
      DocumentsPayloadAppend(batches[0], Flatten(batches[1..]));
    }
  }

  lemma {:induction false} DocumentRequestsWellSized(corpusName: string, batches: seq<seq<Document>>, b: nat)
    requires forall i :: 0 <= i < |batches| ==> 1 <= |batches[i]| <= b
    ensures forall r :: r in DocumentRequests(corpusName, batches) ==> WellSized(r, b)
  {
    if batches != [] {
      DocumentRequestsWellSized(corpusName, batches[1..], b);
    }
  }

  lemma {:induction false} QueryRequestsEndpoints(cfg: Config, batches: seq<seq<Query>>)
    ensures Endpoints(QueryRequests(cfg, batches)) == Repeat("/add_queries", |batches|)
  {
    if batches != [] {
      QueryRequestsEndpoints(cfg, batches[1..]);
    }
  }

  lemma {:induction false} QueryRequestsSent(cfg: Config, batches: seq<seq<Query>>)
    ensures SentQueries(QueryRequests(cfg, batches)) == QueriesPayload(Flatten(batches))
    ensures SentDocuments(QueryRequests(cfg, batches)) == []
    ensures SentQrels(QueryRequests(cfg, batches)) == []
  {
    if batches != [] {
      QueryRequestsSent(cfg, batches[1..]);
      QueriesPayloadAppend(batches[0], Flatten(batches[1..]));
    }
  }

  lemma {:induction false} QueryRequestsWellSized(cfg: Config, batches: seq<seq<Query>>, b: nat)
    requires forall i :: 0 <= i < |batches| ==> 1 <= |batches[i]| <= b
    ensures forall r :: r in QueryRequests(cfg, batches) ==> WellSized(r, b)
  {
    if batches != [] {
      QueryRequestsWellSized(cfg, batches[1..], b);
    }
  }

  lemma {:induction false} QrelRequestsEndpoints(cfg: Config, batches: seq<seq<Qrel>>)
    ensures Endpoints(QrelRequests(cfg, batches)) == Repeat("/add_qrels", |batches|)
  {
    if batches != [] {
      QrelRequestsEndpoints(cfg, batches[1..]);
    }
  }

  lemma {:induction false} QrelRequestsSent(cfg: Config, batches: seq<seq<Qrel>>)
    ensures SentQrels(QrelRequests(cfg, batches)) == QrelsPayload(Flatten(batches))
    ensures SentDocuments(QrelRequests(cfg, batches)) == []
    ensures SentQueries(QrelRequests(cfg, batches)) == []
  {
    if batches != [] {
      QrelRequestsSent(cfg, batches[1..]);
      QrelsPayloadAppend(batches[0], Flatten(batches[1..]));
    }
  }

  lemma {:induction false} QrelRequestsWellSized(cfg: Config, batches: seq<seq<Qrel>>, b: nat)
    requires forall i :: 0 <= i < |batches| ==> 1 <= |batches[i]| <= b
    ensures forall r :: r in QrelRequests(cfg, batches) ==> WellSized(r, b)
  {
    if batches != [] {
      QrelRequestsWellSized(cfg, batches[1..], b);
    }
  }

  /** Plan, when the batch size is valid, as its three stages. */
  lemma PlanStages(ds: Dataset, cfg: Config)
    requires ValidBatchSize(cfg.batchSize)
    ensures Plan(ds, cfg)
      == CorpusStage(ds, cfg)
       + [CreateDataset(cfg.datasetName, cfg.corpusName, cfg.minRelevance)]
       + QueryRequests(cfg, Batch(ds.queries, cfg.batchSize))
       + QrelRequests(cfg, Batch(ds.qrels, cfg.batchSize))
  {
  }

  /**
   * The stage order: create_corpus and one add_documents per document batch
   * exactly when the corpus is to be added, then create_dataset once, then
   * one add_queries per query batch, then one add_qrels per qrel batch, and
   * nothing else.
   */
  lemma PlanStageOrder(ds: Dataset, cfg: Config)
    requires ValidBatchSize(cfg.batchSize)
    ensures var b := cfg.batchSize;
      Endpoints(Plan(ds, cfg))
        == (if cfg.addCorpus then ["/create_corpus"] + Repeat("/add_documents", CeilDiv(|ds.docs|, b)) else [])
         + ["/create_dataset"]
         + Repeat("/add_queries", CeilDiv(|ds.queries|, b))
         + Repeat("/add_qrels", CeilDiv(|ds.qrels|, b))
  {
    var b := cfg.batchSize;
    var corpus := CorpusStage(ds, cfg);
    var create := [CreateDataset(cfg.datasetName, cfg.corpusName, cfg.minRelevance)];
    var queries := QueryRequests(cfg, Batch(ds.queries, b));
    var qrels := QrelRequests(cfg, Batch(ds.qrels, b));
    PlanStages(ds, cfg);
    EndpointsAppend(corpus + create + queries, qrels);
    EndpointsAppend(corpus + create, queries);
    EndpointsAppend(corpus, create);
    BatchCount(ds.queries, b);
    QueryRequestsEndpoints(cfg, Batch(ds.queries, b));
    BatchCount(ds.qrels, b);
    QrelRequestsEndpoints(cfg, Batch(ds.qrels, b));
    if cfg.addCorpus {
      var docs := DocumentRequests(cfg.corpusName, Batch(ds.docs, b));
      EndpointsAppend([CreateCorpus(cfg.corpusName, cfg.language)], docs);
      BatchCount(ds.docs, b);
      DocumentRequestsEndpoints(cfg.corpusName, Batch(ds.docs, b));
    }
  }

  /**
   * Every document reaches the backend exactly once and in dataset order,
   * as its sanitized entry, when the corpus is to be added; otherwise no
   * document is sent.
   */
  lemma PlanSendsDocuments(ds: Dataset, cfg: Config)
    requires ValidBatchSize(cfg.batchSize)
    ensures SentDocuments(Plan(ds, cfg)) == if cfg.addCorpus then DocumentsPayload(ds.docs) else []
  {
    var b := cfg.batchSize;
    var corpus := CorpusStage(ds, cfg);
    var create := [CreateDataset(cfg.datasetName, cfg.corpusName, cfg.minRelevance)];
    var queries := QueryRequests(cfg, Batch(ds.queries, b));
    var qrels := QrelRequests(cfg, Batch(ds.qrels, b));
    PlanStages(ds, cfg);
    SentDocumentsAppend(corpus + create + queries, qrels);
    SentDocumentsAppend(corpus + create, queries);
    SentDocumentsAppend(corpus, create);
    QueryRequestsSent(cfg, Batch(ds.queries, b));
    QrelRequestsSent(cfg, Batch(ds.qrels, b));
    if cfg.addCorpus {
      var docs := DocumentRequests(cfg.corpusName, Batch(ds.docs, b));
      SentDocumentsAppend([CreateCorpus(cfg.corpusName, cfg.language)], docs);
      BatchFlatten(ds.docs, b);
      DocumentRequestsSent(cfg.corpusName, Batch(ds.docs, b));
    }
  }

  /** Every query reaches the backend exactly once and in dataset order, as its sanitized entry. */
  lemma PlanSendsQueries(ds: Dataset, cfg: Config)
    requires ValidBatchSize(cfg.batchSize)
    ensures SentQueries(Plan(ds, cfg)) == QueriesPayload(ds.queries)
  {
    var b := cfg.batchSize;
    var corpus := CorpusStage(ds, cfg);
    var create := [CreateDataset(cfg.datasetName, cfg.corpusName, cfg.minRelevance)];
    var queries := QueryRequests(cfg, Batch(ds.queries, b));
    var qrels := QrelRequests(cfg, Batch(ds.qrels, b));
    PlanStages(ds, cfg);
    SentQueriesAppend(corpus + create + queries, qrels);
    SentQueriesAppend(corpus + create, queries);
    SentQueriesAppend(corpus, create);
    BatchFlatten(ds.queries, b);
    QueryRequestsSent(cfg, Batch(ds.queries, b));
    QrelRequestsSent(cfg, Batch(ds.qrels, b));
    if cfg.addCorpus {
      var docs := DocumentRequests(cfg.corpusName, Batch(ds.docs, b));
      SentQueriesAppend([CreateCorpus(cfg.corpusName, cfg.language)], docs);
      DocumentRequestsSent(cfg.corpusName, Batch(ds.docs, b));
    }
  }

  /**
   * Every judgment reaches the backend exactly once and in dataset order,
   * unchanged: none is dropped, whatever the minimum relevance.
   */
  lemma PlanSendsQrels(ds: Dataset, cfg: Config)
    requires ValidBatchSize(cfg.batchSize)
    ensures SentQrels(Plan(ds, cfg)) == QrelsPayload(ds.qrels)
  {
    var b := cfg.batchSize;
    var corpus := CorpusStage(ds, cfg);
    var create := [CreateDataset(cfg.datasetName, cfg.corpusName, cfg.minRelevance)];
    var queries := QueryRequests(cfg, Batch(ds.queries, b));
    var qrels := QrelRequests(cfg, Batch(ds.qrels, b));
    PlanStages(ds, cfg);
    SentQrelsAppend(corpus + create + queries, qrels);
    SentQrelsAppend(corpus + create, queries);
    SentQrelsAppend(corpus, create);
    BatchFlatten(ds.qrels, b);
    QueryRequestsSent(cfg, Batch(ds.queries, b));
    QrelRequestsSent(cfg, Batch(ds.qrels, b));
    if cfg.addCorpus {
      var docs := DocumentRequests(cfg.corpusName, Batch(ds.docs, b));
      SentQrelsAppend([CreateCorpus(cfg.corpusName, cfg.language)], docs);
      DocumentRequestsSent(cfg.corpusName, Batch(ds.docs, b));
    }
  }

  /** Every upload request carries between 1 and batch-size records. */
  lemma PlanBatchesWellSized(ds: Dataset, cfg: Config)
    requires ValidBatchSize(cfg.batchSize)
    ensures forall r :: r in Plan(ds, cfg) ==> WellSized(r, cfg.batchSize)
  {
    var b := cfg.batchSize;
    PlanStages(ds, cfg);
    DocumentRequestsWellSized(cfg.corpusName, Batch(ds.docs, b), b);
    QueryRequestsWellSized(cfg, Batch(ds.queries, b), b);
    QrelRequestsWellSized(cfg, Batch(ds.qrels, b), b);
  }

  /** Judgments below the dataset's minimum relevance are sent like all others. */
  lemma PlanSendsEveryQrel(ds: Dataset, cfg: Config, i: nat)
    requires ValidBatchSize(cfg.batchSize) && i < |ds.qrels|
    ensures QrelEntry(ds.qrels[i].queryId, ds.qrels[i].docId, ds.qrels[i].relevance) in SentQrels(Plan(ds, cfg))
  {
    PlanSendsQrels(ds, cfg);
    assert SentQrels(Plan(ds, cfg))[i] == QrelEntry(ds.qrels[i].queryId, ds.qrels[i].docId, ds.qrels[i].relevance);
  }

  /**
   * A batch size `batched` refuses stops the run after its first request:
   * create_corpus when the corpus is to be added, create_dataset otherwise.
   * Nothing is uploaded.
   */
  lemma PlanRejectedBatchSize(ds: Dataset, cfg: Config)
    requires !ValidBatchSize(cfg.batchSize)
    ensures Endpoints(Plan(ds, cfg)) == [if cfg.addCorpus then "/create_corpus" else "/create_dataset"]
    ensures SentDocuments(Plan(ds, cfg)) == [] && SentQueries(Plan(ds, cfg)) == [] && SentQrels(Plan(ds, cfg)) == []
  {
  }

  /** create_corpus is issued exactly when the corpus is to be added, whatever the batch size. */
  lemma PlanCreatesCorpusIff(ds: Dataset, cfg: Config)
    ensures "/create_corpus" in Endpoints(Plan(ds, cfg)) <==> cfg.addCorpus
  {
    if ValidBatchSize(cfg.batchSize) {
      PlanStageOrder(ds, cfg);
      var b := cfg.batchSize;
      var tail := ["/create_dataset"] + Repeat("/add_queries", CeilDiv(|ds.queries|, b)) + Repeat("/add_qrels", CeilDiv(|ds.qrels|, b));
      RepeatOnly("/add_documents", CeilDiv(|ds.docs|, b));
      RepeatOnly("/add_queries", CeilDiv(|ds.queries|, b));
      RepeatOnly("/add_qrels", CeilDiv(|ds.qrels|, b));
      assert "/create_corpus" !in tail;
    }
  }

  lemma {:induction false} RepeatOnly(s: string, n: nat)
    ensures forall t :: t in Repeat(s, n) ==> t == s
  {
    if n > 0 {
      RepeatOnly(s, n - 1);
    }
  }
}
