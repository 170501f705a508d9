/**
 * `TantivyIndexWrapper` and `BatchIndexer` as a state machine. The tantivy
 * index is replaced by explicit state: the committed documents a searcher
 * sees, the documents pending in the open writer, and the single-writer lock.
 * Query parsing and ranking, which tantivy does, are parameters.
 */
module Indexing {
  import opened Results
  import opened Schemas
  import opened Documents

  /** The `TopDocs::with_limit(10)` collector's limit. */
  const TopK: nat := 10

  /** `hits` lists distinct committed documents (positions below `n`). */
  predicate IsRanking(hits: seq<nat>, n: nat) {
    && (forall i :: 0 <= i < |hits| ==> hits[i] < n)
    && (forall i, j :: 0 <= i < j < |hits| ==> hits[i] != hits[j])
  }

  /** What the top-10 collector keeps of a ranking: its longest prefix of at most `TopK` hits. */
  function TopDocs(ranking: seq<nat>): (hits: seq<nat>)
    ensures hits <= ranking && |hits| <= TopK
    ensures |hits| < TopK ==> hits == ranking
  {
    if |ranking| <= TopK then ranking else ranking[..TopK]
  }

  lemma TopDocsIsRanking(ranking: seq<nat>, n: nat)
    requires IsRanking(ranking, n)
    ensures IsRanking(TopDocs(ranking), n)
  {
  }

  /** Every hit is a committed document that has a display-field value. */
  predicate HitsHaveDisplayValue(committed: seq<Doc>, hits: seq<nat>) {
    forall i :: 0 <= i < |hits| ==>
      hits[i] < |committed| && FirstValue(committed[hits[i]], DisplayField).Some?
  }

  /** `results` are the display-field values of the hit documents, in hit order. */
  predicate ReportsDisplayValues(results: seq<string>, committed: seq<Doc>, hits: seq<nat>) {
    && |results| == |hits|
    && forall i :: 0 <= i < |hits| ==>
         hits[i] < |committed| && Some(results[i]) == FirstValue(committed[hits[i]], DisplayField)
  }

  /** The default fields of the query parser: every field of the schema. */
  function AllFields(schema: Schema): seq<nat> {
    seq(|schema|, i => i)
  }

  /**
   * The loop over the top hits in `search`: fetch each hit's stored document
   * and push the text of its first display-field value.
   */
  method Materialise(schema: Schema, committed: seq<Doc>, hits: seq<nat>, titleField: nat)
    returns (results: seq<string>)
    requires titleField == DisplayField && IsStored(schema, titleField)
    requires HitsHaveDisplayValue(committed, hits)
    ensures ReportsDisplayValues(results, committed, hits)
  {
    results := [];
    var i := 0;
    while i < |hits|
      invariant 0 <= i <= |hits|
      invariant |results| == i
      invariant forall k :: 0 <= k < i ==> Some(results[k]) == FirstValue(committed[hits[k]], DisplayField)
    {
      var doc := committed[hits[i]];
      var retrieved := StoredPart(schema, doc);
      StoredKeepsFirst(schema, doc, titleField);
      var title := FirstValue(retrieved, titleField);
      assert Some(title.value) == FirstValue(doc, DisplayField);
      results := results + [title.value];
      i := i + 1;
    }
  }

  class Index {
    const schema: Schema
    const titleFieldName: string
    /** The non-display fields `new` was given, kept for the specification. */
    ghost const otherFields: seq<string>

    /** The documents in the last committed generation: what a searcher sees. */
    var committed: seq<Doc>
    /** Documents added through the open writer but not yet committed. */
    var pending: seq<Doc>
    /** The index's writer lock: at most one writer at a time. */
    var writerOpen: bool

    ghost predicate Valid()
      reads this
    {
      && BuiltFrom(schema, titleFieldName, otherFields)
      && DistinctNames(schema)
      && (forall i :: 0 <= i < |committed| ==> WellFormed(schema, committed[i]))
      && (forall i :: 0 <= i < |pending| ==> WellFormed(schema, pending[i]))
      && (!writerOpen ==> pending == [])
    }

    /** `TantivyIndexWrapper::new` over a fresh in-RAM index. */
    constructor (nameField: string, fields: seq<string>)
      requires nameField !in fields && Distinct(fields)
      ensures Valid()
      ensures titleFieldName == nameField && otherFields == fields
      ensures committed == [] && pending == [] && !writerOpen
    {
      var s := BuildSchema(nameField, fields);
      schema := s;
      titleFieldName := nameField;
      otherFields := fields;
      committed := [];
      pending := [];
      writerOpen := false;
    }

    /** `field_names`: the schema's field names in schema order. */
    function FieldNames(): (names: seq<string>)
      requires Valid()
      reads this
      ensures names == [titleFieldName] + otherFields
    {
      BuiltNames(schema, titleFieldName, otherFields);
      Names(schema)
    }

    /** `num_docs`: the count in the committed snapshot, never the pending writes. */
    function NumDocs(): nat
      reads this
    {
      |committed|
    }

    /** `Index::writer`: take the writer lock, or fail if a writer is open. */
    method OpenWriter() returns (ok: bool)
      requires Valid()
      modifies this
      ensures Valid()
      ensures ok == !old(writerOpen) && writerOpen
      ensures committed == old(committed) && pending == old(pending)
    {
      ok := !writerOpen;
      writerOpen := true;
    }

    /**
     * Dropping the writer: the lock is released and whatever it had not
     * committed is discarded, so the index stays at its last commit.
     */
    method ReleaseWriter()
      requires Valid()
      modifies this
      ensures Valid()
      ensures !writerOpen && pending == [] && committed == old(committed)
    {
      writerOpen := false;
      pending := [];
    }

    /** `add_document_nocommit`: translate and queue the record; it always returns Ok. */
    method AddDocumentNoCommit(record: Record) returns (r: Result<()>)
      requires Valid() && writerOpen
      modifies this
      ensures Valid() && writerOpen
      ensures r == Ok(())
      ensures committed == old(committed)
      ensures |pending| == |old(pending)| + 1 && pending[..|old(pending)|] == old(pending)
      ensures IsTranslationOf(schema, record, pending[|old(pending)|])
    {
      var doc := Translate(schema, record);
      TranslationBound(schema, record, doc);
      pending := pending + [doc];
      r := Ok(());
    }

    /**
     * `IndexWriter::commit`: on success every pending document joins the
     * committed generation, in order, and the writer stays open, so commits
     * may be repeated. The failure branch is this model's own choice, since the
     * source does not say what a failed commit does: the last generation stays
     * in place and the pending documents are lost.
     */
    method CommitWriter(storageOk: bool) returns (r: Result<()>)
      requires Valid() && writerOpen
      modifies this
      ensures Valid() && writerOpen && pending == []
      ensures storageOk ==> r == Ok(()) && committed == old(committed) + old(pending)
      ensures !storageOk ==> r == Err(CommitFailure) && committed == old(committed)
    {
      if storageOk {
        committed := committed + pending;
        r := Ok(());
      } else {
        r := Err(CommitFailure);
      }
      pending := [];
    }

    /**
     * `add_document`: open a writer, queue the translated record, commit, and
     * drop the writer. Fails without any change when a writer is already open.
     */
    method AddDocument(record: Record, storageOk: bool) returns (r: Result<()>)
      requires Valid()
      modifies this
      ensures Valid()
      ensures old(writerOpen) ==>
        r == Err(LockFailure) && writerOpen && committed == old(committed) && pending == old(pending)
      ensures !old(writerOpen) ==> !writerOpen && pending == []
      ensures !old(writerOpen) && storageOk ==>
        && r == Ok(())
        && |committed| == |old(committed)| + 1
        && committed[..|old(committed)|] == old(committed)
        && IsTranslationOf(schema, record, committed[|old(committed)|])
      ensures !old(writerOpen) && !storageOk ==> r == Err(CommitFailure) && committed == old(committed)
    {
      var acquired := OpenWriter();
      if !acquired {
        return Err(LockFailure);
      }
      var _ := AddDocumentNoCommit(record);
      r := CommitWriter(storageOk);
      ReleaseWriter();
    }

    /**
     * `search`: parse the query against every field, take the top 10 hits of
     * the ranking over the committed documents, and report each hit's first
     * display-field value. The code unwraps that value, so every hit must
     * have one.
     */
    method Search<Q>(query: string, parse: (seq<nat>, string) -> Option<Q>,
                     rank: (Q, seq<Doc>) -> seq<nat>) returns (r: Result<seq<string>>)
      requires Valid()
      requires parse(AllFields(schema), query).Some? ==>
        IsRanking(rank(parse(AllFields(schema), query).value, committed), |committed|)
      requires parse(AllFields(schema), query).Some? ==>
        HitsHaveDisplayValue(committed, TopDocs(rank(parse(AllFields(schema), query).value, committed)))
      ensures parse(AllFields(schema), query).None? ==> r == Err(QueryParserError)
      ensures parse(AllFields(schema), query).Some? ==>
        && r.Ok? && |r.value| <= TopK
        && ReportsDisplayValues(r.value, committed, TopDocs(rank(parse(AllFields(schema), query).value, committed)))
        && IsRanking(TopDocs(rank(parse(AllFields(schema), query).value, committed)), |committed|)
    {
      BuiltNames(schema, titleFieldName, otherFields);
      var titleField := FieldIndex(schema, titleFieldName).value;
      var parsed := parse(AllFields(schema), query);
      if parsed.None? {
        return Err(QueryParserError);
      }
      var hits := TopDocs(rank(parsed.value, committed));
      TopDocsIsRanking(rank(parsed.value, committed), |committed|);
      var results := Materialise(schema, committed, hits, titleField);
      r := Ok(results);
    }
  }

  /** A long-lived writer over one index: many adds, then commits. */
  class BatchIndexer {
    const index: Index

    /** `BatchIndexer::new` unwraps the writer, so no other writer may be open. */
    constructor (index: Index)
      requires index.Valid() && !index.writerOpen
      modifies index
      ensures this.index == index && index.Valid() && index.writerOpen
      ensures index.committed == old(index.committed) && index.pending == []
    {
      this.index := index;
      new;
      var acquired := index.OpenWriter();
    }

    /** `BatchIndexer::add_document`: queue the record in the held writer; always Ok. */
    method AddDocument(record: Record) returns (r: Result<()>)
      requires index.Valid() && index.writerOpen
      modifies index
      ensures index.Valid() && index.writerOpen
      ensures r == Ok(())
      ensures index.committed == old(index.committed)
      ensures |index.pending| == |old(index.pending)| + 1
      ensures index.pending[..|old(index.pending)|] == old(index.pending)
      ensures IsTranslationOf(index.schema, record, index.pending[|old(index.pending)|])
    {
      r := index.AddDocumentNoCommit(record);
    }

    /** `BatchIndexer::commit`: publish everything added since the previous commit. */
    method Commit(storageOk: bool) returns (r: Result<()>)
      requires index.Valid() && index.writerOpen
      modifies index
      ensures index.Valid() && index.writerOpen && index.pending == []
      ensures storageOk ==> r == Ok(()) && index.committed == old(index.committed) + old(index.pending)
      ensures !storageOk ==> r == Err(CommitFailure) && index.committed == old(index.committed)
    {
      r := index.CommitWriter(storageOk);
    }

    /** Dropping the batch drops its writer; losing uncommitted additions is this model's choice. */
    method Drop()
      requires index.Valid() && index.writerOpen
      modifies index
      ensures index.Valid() && !index.writerOpen
      ensures index.pending == [] && index.committed == old(index.committed)
    {
      index.ReleaseWriter();
    }
  }
}
