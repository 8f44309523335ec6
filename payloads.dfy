/**
 * The records read from the dataset and the JSON objects main.py builds
 * from them, one list comprehension per endpoint.
 */
module Payloads {
  import opened Wrappers
  import opened Sanitizer

  /** A document: the title may be missing, the text may not. */
  datatype Document = Document(id: string, title: Option<string>, text: string)

  /** A query: the description may be missing, the text may not. */
  datatype Query = Query(id: string, text: string, description: Option<string>)

  /** A relevance judgment. */
  datatype Qrel = Qrel(queryId: string, docId: string, relevance: int)

  /** `{"id", "title", "text"}` in an add_documents body. */
  datatype DocumentEntry = DocumentEntry(id: string, title: Option<string>, text: string)

  /** `{"id", "text", "description"}` in an add_queries body. */
  datatype QueryEntry = QueryEntry(id: string, text: string, description: Option<string>)

  /** `{"query_id", "document_id", "relevance"}` in an add_qrels body. */
  datatype QrelEntry = QrelEntry(queryId: string, documentId: string, relevance: int)

  /** True when no text field of the entry carries a NUL. */
  predicate DocumentEntryClean(e: DocumentEntry)
  {
    NUL !in e.text && (e.title.Some? ==> NUL !in e.title.value)
  }

  predicate QueryEntryClean(e: QueryEntry)
  {
    NUL !in e.text && (e.description.Some? ==> NUL !in e.description.value)
  }

  /** The add_documents body for one batch. */
  function DocumentsPayload(batch: seq<Document>): (r: seq<DocumentEntry>)
    ensures |r| == |batch|
    ensures forall i :: 0 <= i < |r| ==>
      r[i].id == batch[i].id && DocumentEntryClean(r[i]) &&
      (r[i].title.Some? <==> batch[i].title.Some?)
    ensures forall i :: 0 <= i < |r| ==>
      r[i].text == StripNul(batch[i].text) && r[i].title == Sanitize(batch[i].title)
  {
    seq(|batch|, i requires 0 <= i < |batch| =>
      DocumentEntry(batch[i].id, Sanitize(batch[i].title), StripNul(batch[i].text)))
  }

  /** The add_queries body for one batch. */
  function QueriesPayload(batch: seq<Query>): (r: seq<QueryEntry>)
    ensures |r| == |batch|
    ensures forall i :: 0 <= i < |r| ==>
      r[i].id == batch[i].id && QueryEntryClean(r[i]) &&
      (r[i].description.Some? <==> batch[i].description.Some?)
    ensures forall i :: 0 <= i < |r| ==>
      r[i].text == StripNul(batch[i].text) && r[i].description == Sanitize(batch[i].description)
  {
    seq(|batch|, i requires 0 <= i < |batch| =>
      QueryEntry(batch[i].id, StripNul(batch[i].text), Sanitize(batch[i].description)))
  }

  /** The add_qrels body for one batch: every judgment, whatever its relevance, copied field by field. */
  function QrelsPayload(batch: seq<Qrel>): (r: seq<QrelEntry>)
    ensures |r| == |batch|
    ensures forall i :: 0 <= i < |r| ==>
      r[i].queryId == batch[i].queryId && r[i].documentId == batch[i].docId &&
      r[i].relevance == batch[i].relevance
  {
    seq(|batch|, i requires 0 <= i < |batch| =>
      QrelEntry(batch[i].queryId, batch[i].docId, batch[i].relevance))
  }

  /**
   * An entry's text and title are the document's with exactly the NULs
   * removed: every other character keeps its multiplicity, and a field
   * without NUL is sent as read.
   */
  lemma DocumentsPayloadFaithful(batch: seq<Document>, i: nat)
    requires i < |batch|
    ensures multiset(DocumentsPayload(batch)[i].text) == multiset(batch[i].text)[NUL := 0]
    ensures |DocumentsPayload(batch)[i].text| == |batch[i].text| - multiset(batch[i].text)[NUL]
    ensures NUL !in batch[i].text ==> DocumentsPayload(batch)[i].text == batch[i].text
    ensures batch[i].title.Some? ==>
      multiset(DocumentsPayload(batch)[i].title.value) == multiset(batch[i].title.value)[NUL := 0]
    ensures batch[i].title.Some? && NUL !in batch[i].title.value ==>
      DocumentsPayload(batch)[i].title == batch[i].title
  {
    StripNulContents(batch[i].text);
    StripNulLength(batch[i].text);
    StripNulFixpoint(batch[i].text);
    if batch[i].title.Some? {
      StripNulContents(batch[i].title.value);
      StripNulFixpoint(batch[i].title.value);
    }
  }

  /**
   * An entry's text and description are the query's with exactly the NULs
   * removed; a field without NUL is sent as read.
   */
  lemma QueriesPayloadFaithful(batch: seq<Query>, i: nat)
    requires i < |batch|
    ensures multiset(QueriesPayload(batch)[i].text) == multiset(batch[i].text)[NUL := 0]
    ensures |QueriesPayload(batch)[i].text| == |batch[i].text| - multiset(batch[i].text)[NUL]
    ensures NUL !in batch[i].text ==> QueriesPayload(batch)[i].text == batch[i].text
    ensures batch[i].description.Some? ==>
      multiset(QueriesPayload(batch)[i].description.value) == multiset(batch[i].description.value)[NUL := 0]
    ensures batch[i].description.Some? && NUL !in batch[i].description.value ==>
      QueriesPayload(batch)[i].description == batch[i].description
  {
    StripNulContents(batch[i].text);
    StripNulLength(batch[i].text);
    StripNulFixpoint(batch[i].text);
    if batch[i].description.Some? {
      StripNulContents(batch[i].description.value);
      StripNulFixpoint(batch[i].description.value);
    }
  }

  /** Building the body batch by batch is building it for the whole sequence. */
  lemma DocumentsPayloadAppend(a: seq<Document>, b: seq<Document>)
    ensures DocumentsPayload(a + b) == DocumentsPayload(a) + DocumentsPayload(b)
  {
    assert forall i :: 0 <= i < |a + b| ==> (a + b)[i] == if i < |a| then a[i] else b[i - |a|];
  }

  lemma QueriesPayloadAppend(a: seq<Query>, b: seq<Query>)
    ensures QueriesPayload(a + b) == QueriesPayload(a) + QueriesPayload(b)
  {
    assert forall i :: 0 <= i < |a + b| ==> (a + b)[i] == if i < |a| then a[i] else b[i - |a|];
  }

  lemma QrelsPayloadAppend(a: seq<Qrel>, b: seq<Qrel>)
    ensures QrelsPayload(a + b) == QrelsPayload(a) + QrelsPayload(b)
  {
    assert forall i :: 0 <= i < |a + b| ==> (a + b)[i] == if i < |a| then a[i] else b[i - |a|];
  }
}
