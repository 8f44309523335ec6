/** Concrete runs of the pipeline, worked out from Plan. */
module Scenarios {
  import opened Wrappers
  import opened Sanitizer
  import opened Batching
  import opened Payloads
  import opened Pipeline

  function D1(): Document { Document("d1", None, "alpha") }
  function D2(): Document { Document("d2", Some("t"), "be\0ta") }
  function D3(): Document { Document("d3", None, "gamma") }

  /**
   * Three documents, one with a NUL in its text, batch size 2 and the corpus
   * to be added: create_corpus, a batch of two documents with the NUL gone,
   * a batch of one, then create_dataset.
   */
  lemma ThreeDocumentsInTwoBatches()
    ensures Plan(Dataset([D1(), D2(), D3()], [], []), Config("ds", "corpus", 2, "English", 1, true))
        == [ CreateCorpus("corpus", "English"),
             AddDocuments("corpus", [DocumentEntry("d1", None, "alpha"), DocumentEntry("d2", Some("t"), "beta")]),
             AddDocuments("corpus", [DocumentEntry("d3", None, "gamma")]),
             CreateDataset("ds", "corpus", 1) ]
  {
    var e12 := [DocumentEntry("d1", None, "alpha"), DocumentEntry("d2", Some("t"), "beta")];
    var e3 := [DocumentEntry("d3", None, "gamma")];
    BatchOfThree(D1(), D2(), D3());
    PayloadsOfThree();
    assert [[D1(), D2()], [D3()]][1..] == [[D3()]];
    assert DocumentRequests("corpus", [[D3()]]) == [AddDocuments("corpus", e3)];
    assert DocumentRequests("corpus", Batch([D1(), D2(), D3()], 2)) == [AddDocuments("corpus", e12), AddDocuments("corpus", e3)];
  }

  lemma BatchOfThree<T>(a: T, b: T, c: T)
    ensures Batch([a, b, c], 2) == [[a, b], [c]]
  {
    assert [a, b, c][..2] == [a, b] && [a, b, c][2..] == [c];
  }

  lemma PayloadsOfThree()
    ensures DocumentsPayload([D1(), D2()]) == [DocumentEntry("d1", None, "alpha"), DocumentEntry("d2", Some("t"), "beta")]
    ensures DocumentsPayload([D3()]) == [DocumentEntry("d3", None, "gamma")]
  {
    PayloadOfTwo(D1(), D2());
    PayloadOfOne(D3());
    StrippedTexts();
  }

  lemma PayloadOfTwo(x: Document, y: Document)
    ensures DocumentsPayload([x, y])
         == [DocumentEntry(x.id, Sanitize(x.title), StripNul(x.text)),
             DocumentEntry(y.id, Sanitize(y.title), StripNul(y.text))]
  {
  }

  lemma PayloadOfOne(x: Document)
    ensures DocumentsPayload([x]) == [DocumentEntry(x.id, Sanitize(x.title), StripNul(x.text))]
  {
  }

  lemma StrippedTexts()
    ensures StripNul("alpha") == "alpha" && StripNul("gamma") == "gamma" && StripNul("t") == "t"
    ensures StripNul("be\0ta") == "beta"
  {
    StripNulFixpoint("alpha");
    StripNulFixpoint("gamma");
    StripNulFixpoint("t");
    NulDropped('b', 'e', 't', 'a');
    assert "be\0ta" == ['b', 'e', NUL, 't', 'a'];
  }

  lemma NulDropped(a: char, b: char, c: char, d: char)
    requires a != NUL && b != NUL && c != NUL && d != NUL
    ensures StripNul([a, b, NUL, c, d]) == [a, b, c, d]
  {
    assert [d][1..] == [];
    assert StripNul([d]) == [d];
    assert [c, d][1..] == [d];
    assert StripNul([c, d]) == [c, d];
    assert [NUL, c, d][1..] == [c, d];
    assert StripNul([NUL, c, d]) == [c, d];
    assert [b, NUL, c, d][1..] == [NUL, c, d];
    assert StripNul([b, NUL, c, d]) == [b, c, d];
    assert [a, b, NUL, c, d][1..] == [b, NUL, c, d];
  }

  /**
   * A judgment of relevance 0 with the dataset's minimum relevance at 1 is
   * still sent, in an add_qrels request after create_dataset.
   */
  lemma IrrelevantQrelStillSent()
    ensures Plan(Dataset([], [], [Qrel("q1", "d1", 0)]), Config("ds", "corpus", 256, "English", 1, false))
        == [ CreateDataset("ds", "corpus", 1),
             AddQrels("corpus", "ds", [QrelEntry("q1", "d1", 0)]) ]
  {
    var cfg := Config("ds", "corpus", 256, "English", 1, false);
    var qrels := [Qrel("q1", "d1", 0)];
    assert Batch(qrels, 256) == [qrels];
    assert QrelsPayload(qrels) == [QrelEntry("q1", "d1", 0)];
    assert QrelRequests(cfg, [qrels]) == [AddQrels("corpus", "ds", [QrelEntry("q1", "d1", 0)])];
  }
}
